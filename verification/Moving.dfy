/** Two executions in place, one of them in storage at least as large: every host call made on
    both is answered alike, each folding its own frame pool. Suspending an execution and resuming
    it in larger storage, as crates/xolotl-core/src/machine.rs offers, yields such a pair. */
module Moving {
  import opened Program
  import opened Machine
  import opened Forest
  import opened Runs
  import opened Arena
  import opened Placement
  import opened Executions
  import G = Growth

  /** The two executions share no storage. */
  ghost predicate Apart(e: Execution, f: Execution) {
    && e != f && e.frames != f.frames
    && {e.tasks as object, e.frames.slots, e.bindings} !! {f.tasks as object, f.frames.slots, f.bindings}
  }

  /** `f` is `e` in storage at least as large. */
  ghost predicate Twins(e: Execution, f: Execution, h: Values)
    reads e, e.tasks, e.frames, e.frames.slots, e.bindings, f, f.tasks, f.frames, f.frames.slots, f.bindings
  {
    Apart(e, f) && e.Valid(h) && f.Valid(h) && e.home == f.home
      && G.Together(e.model, f.model, e.frames.plan, f.frames.plan)
  }

  /** What a resumed execution holds is what was suspended, in storage at least as large. */
  lemma ResumedTogether(
    h: Values, before: Suspended, x: Snapshot, tasks: nat, capacity: nat, frames: nat, bindings: nat)
    requires Left(h, before, x) && Legal(x.model, Resize(tasks, capacity, frames, bindings))
    ensures |x.plan.paths| <= tasks
    ensures G.Together(x.model, Grow(x.model, tasks, capacity, frames, bindings), x.plan, Padded(x.plan, tasks))
  {
    LeftTasks(h, before, x);
    hide Inv, Sound, Holds, G.Larger;
    G.GrowLarger(Setting(x.home, h), x.model, x.tree, tasks, capacity, frames, bindings);
    G.GrowSize(x.model, tasks, capacity, frames, bindings);
  }

  /** A fault of the whole execution names the same values in both. */
  lemma SameFault(e: Execution, f: Execution, h: Values, fault: Fault)
    requires Twins(e, f, h)
    ensures TerminalFault(h, f.model.tasks, Kinds(f.frames.slots[..]), fault)
         == TerminalFault(h, e.model.tasks, Kinds(e.frames.slots[..]), fault)
  {
    hide Inv, Kinds, Order, FramesControl;
    e.Layout();
    f.Layout();
    G.OrderLarger(e.model, f.model, e.frames.plan, f.frames.plan);
    G.ControlWider(h, e.model.tasks, f.model.tasks, f.model.limits.bindingsPerTask);
  }

  /** Advance both with the same fuel. */
  method AdvanceBoth(e: Execution, f: Execution, image: Image, h: Values, fuel: nat)
    returns (a: Advance, b: Advance, ghost states: seq<Machine>, ghost moves: seq<Move>)
    requires Twins(e, f, h) && (image.id == e.imageId ==> image == e.home)
    modifies e, e.tasks, e.frames, e.frames.slots, e.bindings, f, f.tasks, f.frames, f.frames.slots, f.bindings
    ensures e.Valid(h) && f.Valid(h) && e.home == f.home == old(e.home)
    ensures |states| == |moves| + 1 && states[0] == old(e.model) && states[|moves|] == e.model
    ensures image.id == e.imageId ==> Advances(Setting(e.home, h), states, moves, fuel, a)
    ensures (forall t :: 0 <= t < |moves| ==> G.Eases(Setting(e.home, h), states[t], moves[t])) ==>
      b == a && Twins(e, f, h)
  {
    hide Execution.Valid, Inv, Advances, Laid, G.Together, G.Eases, TerminalFault, Kinds;
    Known(e, h);
    Known(f, h);
    ghost var s, tree := Setting(e.home, h), e.tree;
    ghost var plans, alt, calls, others;
    a, states, moves, plans := e.Advance(image, h, fuel);
    b, alt, calls, others := f.Advance(image, h, fuel);
    Known(e, h);
    Known(f, h);
    if image.id != e.imageId {
      SameFault(e, f, h, ImageMismatch);
    } else if forall t :: 0 <= t < |moves| ==> G.Eases(s, states[t], moves[t]) {
      G.AdvanceInStep(s, tree, fuel, states, moves, plans, a, alt, calls, others, b);
    }
  }

  lemma Known(e: Execution, h: Values)
    requires e.Valid(h)
    ensures e.imageId == e.home.id && Inv(Setting(e.home, h), e.model, e.tree)
  {
  }

  lemma TableSize(e: Execution, h: Values)
    requires e.Valid(h)
    ensures |e.model.tasks| == e.tasks.Length
  {
    e.Facts();
  }

  /** Deliver the same response to both. */
  method CompleteBoth(e: Execution, f: Execution, image: Image, h: Values, task: nat, ticket: nat, event: HostEvent)
    returns (a: Option<Fault>, b: Option<Fault>)
    requires Twins(e, f, h) && (image.id == e.imageId ==> image == e.home)
    modifies e, e.tasks, e.frames, e.frames.slots, e.bindings, f, f.tasks, f.frames, f.frames.slots, f.bindings
    ensures e.Valid(h) && f.Valid(h) && e.home == f.home == old(e.home)
    ensures a != Some(Frames) ==> b == a && Twins(e, f, h)
  {
    hide Execution.Valid, Inv, Deliver, G.Together, G.Agree, PlanAfter;
    Known(e, h);
    Known(f, h);
    TableSize(e, h);
    TableSize(f, h);
    ghost var s, tree, m, g, p, q, move :=
      Setting(e.home, h), e.tree, e.model, f.model, e.frames.plan, f.frames.plan, Respond(task, ticket, event);
    a := e.Complete(image, h, task, ticket, event);
    b := f.Complete(image, h, task, ticket, event);
    Known(e, h);
    Known(f, h);
    TableSize(e, h);
    TableSize(f, h);
    if image.id == e.imageId && a != Some(Frames) {
      G.StepTogether(s, m, g, tree, move, move, p, q);
      G.AgreeRefusal(s, m, g, move);
    }
  }

  /** Cancel both. */
  method CancelBoth(e: Execution, f: Execution, h: Values)
    requires Twins(e, f, h)
    modifies e, e.tasks, f, f.tasks
    ensures Twins(e, f, h) && e.home == old(e.home)
  {
    hide Execution.Valid, Inv, Cancel, G.Together, G.Agree;
    Known(e, h);
    Known(f, h);
    TableSize(e, h);
    TableSize(f, h);
    ghost var s, tree, m, g, p, q := Setting(e.home, h), e.tree, e.model, f.model, e.frames.plan, f.frames.plan;
    e.CancelRun(h);
    f.CancelRun(h);
    TableSize(e, h);
    TableSize(f, h);
    G.StepTogether(s, m, g, tree, Abort, Abort, p, q);
  }
}

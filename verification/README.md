# Verified model of the Xolotl execution core and three of its hosts

Xolotl runs structured programs on an allocation-free, host-driven machine. A program image is a
table of instructions (`Then`, `Catch`, `Finally`, `Branch`, `Let`, `While`, `Fork` with All or Race,
`Call`, `Scope`, `Request`). An execution borrows three arrays from its host: task slots, one shared
pool of continuations, and a flat matrix of bindings. The host calls `advance`, answers requests with
`complete`, may `cancel`, and may move the arrays to larger storage.

This project models that machine, its static storage analysis, and three smaller stateful
algorithms around it, and proves what they promise.

## How the model is built

- Host values and host errors are two abstract types; the value operations are a record of functions.
  A host is any sequence of calls: ticks of the scheduler, responses with any ticket and any event,
  cancellations, and moves to larger storage.
- `Machine.dfy` is the machine as functions on values. `Execution.dfy` is the same machine in place,
  over a task array, an intrusive frame pool (`Arena.dfy`) and a strided binding array. Every method
  of `Execution` is proved to do exactly what the functions say, so every property of runs holds of
  the in-place form. The one property that compares two executions, growth, is also proved for two
  executions in place, each with a pool of its own (`Moving.dfy`).
- The live tasks of every reachable machine form a tree. The tree is the witness that most whole-run
  proofs follow by structural induction (`Forest.dfy`, `Runs.dfy`).
- `Evaluator.dfy` is a recursive big-step evaluator without stacks or program counters. It is the
  independent meaning of a program that the frame machine is proved to realize, in both directions.
- The order in which `retain_control` folds the pool depends on the pool's slot layout. The machine
  on values therefore takes the layout as a parameter, and the in-place form proves that its slot
  order is a legal layout. Which slots a call takes and gives back is a function of the machine and
  the plan of the pool (`Placement.PlanAfter`), and every method of `Execution` is proved to follow it.

| file | contents |
|---|---|
| Program | images, validation, value operations |
| Machine, Stacks, Forest, Runs | the machine on values, what stacks promise, the task tree, host-driven runs |
| Scheduling, Quiescence, Budget, Tickets, Cleanup, Provenance | deadlock freedom, quiet ends, quotas and cancellation, tickets, cleanups, labels |
| Race, Growth | first finisher wins, growth is invisible |
| Exceptions | concrete runs for the two properties that need a condition |
| Usage, Analysis, Traversal | the storage analysis: specification, traversal invariants, the loop |
| Bounds, Storage, Soundness | the reported bounds are sound for every run |
| Evaluator, Refinement, Realization, Completeness | the frame machine realizes the evaluator exactly |
| Arena, Placement, Execution, Moving | the frame pool, the execution in place, two executions in step |
| HistoryTrim | the bisecting history trim that keeps its failed probe across ticks |
| Sessions | the compare-and-replace loop on session rows under interleaving |
| Bytes, Authorities, Contract, Grants | authority reconciliation, contract bytes, canonical grants |

## False as stated, and when it holds

- A race does not always return the branch that finished first. If the right branch is first, the
  race returns its result, always. If the left branch is first, the race returns its result exactly
  when the left branch is not marked cancelled at the merge, and only somebody outside the race can
  have marked it (`Race.RaceReturnsFirst`). `Exceptions.LastBranchWins` is a run in which the left
  branch is done first and the race returns the right one: the host cancels after both branches have
  started to return, the left one with a success and the right one with an error.
- Once a root is cancelled the run ends in an error, provided the host's `influence_result` never
  turns a failure into a success (`Budget.CancelledEndsInError`). The default in
  `crates/xolotl-core/src/program.rs` has this property. In the other direction, for every host and
  every input, the one-instruction program that is cancelled at once ends with what the host makes of
  `Cancelled`, so it succeeds exactly when the host forgives it (`Exceptions.CancelledEchoEnds`);
  `Exceptions.CancelledMaySucceed` is such a host.

## Model

| member | source | states |
|---|---|---|
| `Program.Validate` | crates/xolotl-core/src/program.rs:324-350 | an image is accepted exactly when every address, import and slot is in range; otherwise the earliest fault in instruction order is reported |
| `Stacks.BeginOk` | crates/xolotl-core/src/machine.rs:958-1078 | starting an instruction keeps the bindings, context and cleanup level that the task's stack will restore, and forks exactly for `Fork` |
| `Stacks.UnwindOk` | crates/xolotl-core/src/machine.rs:773-910 | handing an outcome to a frame never raises a fault, and keeps the same promises |
| `Stacks.DeliverOk` | crates/xolotl-core/src/machine.rs:585-646 | a response leaves its task in a legal state with the same promises, accepted or refused |
| `Runs.ApplyKeeps` | crates/xolotl-core/src/machine.rs:485-1137 | every host call keeps the tree of live tasks, idle slots empty, all indices in range and the pool within capacity |
| `Runs.JoinEffect` | crates/xolotl-core/src/machine.rs:911-957 | a join marks only the loser's subtree, or frees both branches and lets the parent conclude with the merged result |
| `Runs.RunsAs` | crates/xolotl-core/src/machine.rs:766-1115 | a task that starts or returns changes nobody else, or forks into the first two free slots |
| `Quiescence.LiveTasksFormTree` | crates/xolotl-core/src/machine.rs:911-957 | in every state of every run, joining tasks have exactly two live branches pointing back, parents are acyclic, `cleaning` is the parent's plus the task's own cleanups, and `Done` means an empty stack |
| `Quiescence.RootDoneIsQuiet` | crates/xolotl-core/src/machine.rs:1117-1137 | when the root is done every other slot is idle, nobody holds a frame, every binding is empty and the root's context is the original one |
| `Scheduling.ScanFirst` | crates/xolotl-core/src/machine.rs:665-706 | the scan picks the first slot in round-robin order that may act, and none exactly when every slot is to be skipped |
| `Scheduling.BlockedWaits` | crates/xolotl-core/src/machine.rs:707-709 | `advance` reports that it waits only while some task holds a live, deliverable ticket |
| `Budget.QuotaBoundsRun` | crates/xolotl-core/src/machine.rs:649-734 | with a quota, no run performs more than `max_steps + cleanup_steps` transitions, however calls interleave |
| `Budget.CancelledEndsInError` | crates/xolotl-core/src/machine.rs:485-498 | a run cancelled by the host or by its quota before its root ended can only end in an error, for every host that never turns a failure into a success |
| `Exceptions.CancelledMaySucceed` | crates/xolotl-core/src/machine.rs:485-498 | without that condition it fails: a host that forgives every failure, and a run that is cancelled at once and succeeds |
| `Exceptions.CancelledEchoEnds` | crates/xolotl-core/src/machine.rs:485-498 | for every host and input the one-instruction program cancelled at once ends with `Cancelled` as the host passes it on twice, so it succeeds exactly when the host makes a success of that |
| `Tickets.IssuedIncrease` | crates/xolotl-core/src/machine.rs:988-1006 | tickets issued later in a run are strictly larger |
| `Tickets.HeldWasIssued` | crates/xolotl-core/src/machine.rs:988-1006 | a live ticket was issued earlier in the run to the task that holds it |
| `Tickets.AcceptedRetires` | crates/xolotl-core/src/machine.rs:596-602 | an accepted response names the task holding the ticket, and nobody holds it afterwards |
| `Tickets.AcceptedAtMostOnce` | crates/xolotl-core/src/machine.rs:585-646 | no ticket is accepted twice in one run, whatever the host sends |
| `Tickets.RefusalLeavesTask` | crates/xolotl-core/src/machine.rs:603-645 | a refused response changes nothing but the recorded provenance of a matching one |
| `Cleanup.DischargeStarts` | crates/xolotl-core/src/machine.rs:806-810 | discharging a guard starts its cleanup entry on the guarded input, one level deeper, above the saved outcome |
| `Cleanup.CleanupConserved` | crates/xolotl-core/src/machine.rs:1017-1027 | over any run, guards opened equal guards discharged plus guards still on the stack |
| `Cleanup.DoneTaskOwesNothing` | crates/xolotl-core/src/machine.rs:780-783 | a slot whose task is done or has been freed owes no cleanup |
| `Cleanup.EveryFinallyCleanedOnce` | crates/xolotl-core/src/machine.rs:806-821 | when the root is done every `Finally` body that started had its cleanup started exactly once |
| `Provenance.ResultKeepsLabel` | crates/xolotl-core/src/machine.rs:518-557 | for any label the host tracks: if the input or any response with a live ticket carried it, so does the reported result, through catches, cleanups, joins, races, faults and halting |
| `Provenance.ResultCarriesAllLabels` | crates/xolotl-core/src/program.rs:374-407 | for hosts that attach label sets: the result carries the union of the labels of the input, of every completed request and of the input of every `Continue` that a live ticket accepted |
| `Race.RaceAt` | crates/xolotl-core/src/machine.rs:1079-1106 | in every state branches occupy slots (2k+1, 2k+2), and the scheduler comes to the parent of a finished right branch before it comes to the left branch |
| `Race.RaceReturnsFirst` | crates/xolotl-core/src/machine.rs:911-957 | a race has a first finisher; the result is the right branch's if that is first, and the left branch's if that is first and nobody outside the race cancelled it |
| `Exceptions.LastBranchWins` | crates/xolotl-core/src/machine.rs:911-957 | a run of seven calls in which the left branch is done first and the race returns the result of the right one |
| `Growth.GrowthInvisible` | crates/xolotl-core/src/machine.rs:342-395 | after a move to larger storage at any point the same host calls get the same answers, until the original storage would run out of tasks or frames, for any order of the pool that both see |
| `Growth.GrowthInPlace` | crates/xolotl-core/src/frame.rs:126-179 | the same where each of the two folds its own pool in its own slot order: the orders turn out equal at every call, so the answers are |
| `Growth.AdvanceInStep` | crates/xolotl-core/src/machine.rs:649-734 | one `advance` on each with the same fuel stops after the same passes with the same report and leaves them in step |
| `Moving.ResumedTogether` | crates/xolotl-core/src/machine.rs:342-395 | what is resumed in larger storage is in step with what was suspended |
| `Moving.AdvanceBoth` | crates/xolotl-core/src/machine.rs:649-734 | two executions in place, the second in storage at least as large: `advance` on both reports the same and leaves them so, unless the first runs out of storage on the way |
| `Moving.CompleteBoth` | crates/xolotl-core/src/machine.rs:585-646 | a response delivered to both is accepted or refused alike and leaves them so, unless the first has no room for it |
| `Moving.CancelBoth` | crates/xolotl-core/src/machine.rs:485-498 | cancelling both leaves them so |
| `Growth.ScanLarger` | crates/xolotl-core/src/machine.rs:666-667 | the scheduler picks the same task in a longer table, although its cursor may stand past the end of the shorter one |
| `Usage.AbsorbChecked` | crates/xolotl-core/src/analysis.rs:61-67 | accumulating with overflow-checked maximum and sum is the checked form of the unbounded recursion |
| `Traversal.Tallied` | crates/xolotl-core/src/analysis.rs:225-256 | the tally read back from the scratch slots is the combined usage of the instruction's edges |
| `Traversal.ModuleRequirements` | crates/xolotl-core/src/analysis.rs:162-275 | the scratch-array traversal terminates; it reports the recursive peak in checked arithmetic when no cycle is reachable, no frame bound when one is, and every rejection in source order |
| `Analysis.SortedAcyclic` | crates/xolotl-core/src/analysis.rs:203-223 | a finishing order that settles every edge rules out reachable cycles |
| `Analysis.SettledIsPeak` | crates/xolotl-core/src/analysis.rs:225-258 | a settled scratch slot holds exactly the recursive peak of its instruction |
| `Storage.SlotsNeverRunOut` | crates/xolotl-core/src/machine.rs:1079-1087 | a run whose slots meet any table of task needs never fails a fork |
| `Storage.FramesNeverRunOut` | crates/xolotl-core/src/machine.rs:500-506 | a run whose pool and stacks meet tables of frame needs never fails a push, in a transition or a response |
| `Soundness.ReportedTasksSuffice` | crates/xolotl-core/src/analysis.rs:261-273 | with the reported number of slots no run without appended code ever raises `Tasks`, whatever the host answers or cancels |
| `Soundness.ReportedFramesSuffice` | crates/xolotl-core/src/analysis.rs:76-138 | with the reported pool and depth no such run ever raises `Frames` |
| `Refinement.EvalLands` | crates/xolotl-core/src/machine.rs:958-1078 | where the evaluator gives a meaning, the task reaches `Returning` with that result, control, request trace and unused replies, with stack, context, bindings and cleanup level restored |
| `Refinement.ResumeLands` | crates/xolotl-core/src/machine.rs:784-909 | each frame does with the outcome of its part what the evaluator says |
| `Realization.ScriptedRunExists` | crates/xolotl-core/src/machine.rs:649-734 | a host that answers from a script can drive the whole machine to the evaluator's result |
| `Realization.ScriptedRunEvaluates` | crates/xolotl-core/src/machine.rs:649-734 | every run of such a host is done exactly from some call on, with exactly the evaluator's result and host calls, and everything restored |
| `Completeness.EvalFrugal` | crates/xolotl-core/src/machine.rs:958-1078 | an evaluation holds at most two continuations per level and spends a reply for every host call |
| `Completeness.FinishedRunMeans` | crates/xolotl-core/src/machine.rs:649-734 | conversely, a fork-free scripted run that finishes in storage of two frames per call computes a program the evaluator defines, and the evaluator's storage fits it |
| `Completeness.TightRunMeans` | crates/xolotl-core/src/machine.rs:649-734 | in storage of any size: a fork-free scripted run that finishes without having run out of storage computes a program the evaluator defines, and ends with exactly its result, its host calls and everything restored |
| `Arena.CheckForetells` | crates/xolotl-core/src/frame.rs:114-124 | a check for n frames succeeds exactly when n pushes in a row do |
| `Arena.FramePool.PushAll` | crates/xolotl-core/src/frame.rs:114-158 | frames pushed one after another all fit exactly in that case, and otherwise those that fit have been pushed |
| `Arena.FramePool.Balance` | crates/xolotl-core/src/frame.rs:84-88 | depths plus free slots account for every slot handed out |
| `Arena.FramePool.constructor` | crates/xolotl-core/src/frame.rs:106-112 | a new pool is empty for every owner |
| `Arena.FramePool.Check` | crates/xolotl-core/src/frame.rs:114-124 | reads the depth limit and the available slots exactly |
| `Arena.FramePool.Push` | crates/xolotl-core/src/frame.rs:126-158 | succeeds exactly when depth and pool allow; pushes on one stack, takes the head of the free list or else the first untouched slot, leaves all other stacks and the partition of slots intact; on failure nothing changes |
| `Arena.FramePool.Pop` | crates/xolotl-core/src/frame.rs:160-179 | returns the top frame of one stack, gives its slot to the tail if it borders it and to the free list otherwise, leaves all other stacks and the partition of slots intact |
| `Arena.FramePool.FromMeta` | crates/xolotl-core/src/machine.rs:374-395 | takes over slots that already hold stacks |
| `Placement.SlotOrderIsLayout` | crates/xolotl-core/src/machine.rs:467-480 | the pool in slot order lists exactly the frames on all stacks |
| `Arena.KindsListed` | crates/xolotl-core/src/machine.rs:467-480 | the pool in slot order is determined by the plan of the slots and the stacks |
| `Executions.Execution.Create` | crates/xolotl-core/src/machine.rs:277-316 | admits exactly valid images with enough storage, reports the earliest fault of an invalid image and otherwise the faults in the source's order, and starts the initial machine with an empty pool |
| `Executions.Execution.Advance` | crates/xolotl-core/src/machine.rs:649-734 | is a run of at most `fuel` scheduler passes, each seeing the frames in the order of its pool, that stops at the first report; an image with another id is answered by a terminal fault and changes nothing |
| `Executions.Execution.Pass` | crates/xolotl-core/src/machine.rs:659-731 | one turn of the loop is one pass of the machine on values |
| `Executions.Execution.Complete` | crates/xolotl-core/src/machine.rs:585-646 | delivers exactly as the machine on values does, with the same refusals, and takes slots of the pool as planned |
| `Executions.Execution.CancelRun` | crates/xolotl-core/src/machine.rs:485-498 | marks every live task unless the root has ended |
| `Executions.Execution.Suspend` | crates/xolotl-core/src/machine.rs:342-344 | leaves the machine in the arrays and returns the rest |
| `Executions.Execution.Resume` | crates/xolotl-core/src/machine.rs:350-395 | accepts exactly storage that is large enough, with the faults in the source's order and another image id first, and then holds the same machine grown, with every binding at its new stride and every frame in its slot |
| `Executions.Execution.Transitioning` | crates/xolotl-core/src/machine.rs:766-1115 | carries out one transition in place, up to the fault it raises |
| `Executions.Execution.Unwinding` | crates/xolotl-core/src/machine.rs:773-783 | pops one frame and hands it the outcome with its control |
| `Executions.Execution.Popped` | crates/xolotl-core/src/machine.rs:784-909 | does for every kind of frame what the machine on values does |
| `Executions.Execution.Starting` | crates/xolotl-core/src/machine.rs:968-1107 | does for every kind of instruction what the machine on values does |
| `Executions.Execution.Forking` | crates/xolotl-core/src/machine.rs:1079-1106 | starts both branches in the first two free slots with copied bindings, or faults |
| `Executions.Execution.JoinOnce` | crates/xolotl-core/src/machine.rs:911-957 | cancels the loser, or merges and frees both branches |
| `Executions.Execution.CancelSubtree` | crates/xolotl-core/src/machine.rs:1117-1129 | the walk along parents terminates and marks exactly the subtree |
| `Executions.Execution.Release` | crates/xolotl-core/src/machine.rs:1131-1137 | empties the stack and the binding row of one slot and nothing else |
| `Executions.Execution.Select` | crates/xolotl-core/src/machine.rs:665-706 | the scan loop returns the scan of the machine on values |
| `Executions.Execution.Retained` | crates/xolotl-core/src/machine.rs:448-482 | folds everything live tasks and frames depend on, in slot order |
| `Executions.Execution.Finishing` | crates/xolotl-core/src/machine.rs:559-581 | continues with the next instruction or returns, with the task's control |
| `Executions.Execution.Faulting` | crates/xolotl-core/src/machine.rs:530-547 | a fault becomes the task's result with all it depended on |
| `HistoryTrim.MaintainTickAt` | crates/xolotl-daemon/src/state_maintenance.rs:70-125 | the loop computes the tick's specification, including error exits |
| `HistoryTrim.TickKeeps` | crates/xolotl-daemon/src/state_maintenance.rs:76-124 | a tick never lowers the floor or moves it past the target, and a kept failed probe is still unaffordable |
| `HistoryTrim.VisitsKeep` | crates/xolotl-daemon/src/state_maintenance.rs:12-16 | the same over any series of ticks with any events written in between |
| `HistoryTrim.StallMeans` | crates/xolotl-daemon/src/state_maintenance.rs:97-100 | a stall means that the events at the single millisecond of the floor do not fit one batch; with attempts and batches left it is reported exactly when the target is not reached |
| `HistoryTrim.AttemptsBounded` | crates/xolotl-daemon/src/state_maintenance.rs:43-123 | over any ticks at any times, with any events written in between: n events older than the latest target, kept or written, in a window of w take at most (n + b + 1)(1 + ceil(log2 w)) attempts, plus one per tick that came to rest at an earlier target, plus one per failed tick, where b counts how often the target moved back |
| `HistoryTrim.AttemptsOnward` | crates/xolotl-daemon/src/state_maintenance.rs:43-123 | while the clock does not run backwards: at most (n + 1)(1 + ceil(log2 w)) attempts towards the target of the last tick, plus the ticks and the failed ticks |
| `HistoryTrim.CatchesUp` | crates/xolotl-daemon/src/state_maintenance.rs:43-123 | with a working backend some tick reaches its own target or reports a stall within (n + b + 1)(1 + ceil(log2 w)) ticks |
| `HistoryTrim.Log2Means` | crates/xolotl-daemon/src/state_maintenance.rs:101 | the logarithm in the bound is the rounded-up base-two logarithm |
| `Sessions.WriteSession` | crates/xolotl-console/src/auth.rs:2110-2183 | the retry loop computes its specification against a store that others change between calls |
| `Sessions.RetireExpired` | crates/xolotl-console/src/auth.rs:2192-2212 | deletes only the expired row it saw; a concurrent change is no error |
| `Sessions.WriteChangesOnce` | crates/xolotl-console/src/auth.rs:2122-2182 | whatever others do, a call changes the row at most once, only from the token it observed, never moving activity back; success is reported only after reading the new token back |
| `Sessions.CallAsSeen` | crates/xolotl-console/src/auth.rs:2122-2182 | a call among everyone makes exactly the changes that the retry loop makes against the others as that call sees them |
| `Sessions.NextOk` | crates/xolotl-console/src/session_store.rs:204-216 | every step of every concurrent call keeps rows earned, tokens distinct and replaced tokens retired |
| `Sessions.RotationIsFinal` | crates/xolotl-console/src/auth.rs:2167-2174 | once a refresh has landed no call that observed the old token lands any more |
| `Sessions.DeletedForGood` | crates/xolotl-console/src/session_store.rs:202-210 | a deleted row never comes back: a later row needs a session opened in between, and its token had never been issued |
| `Sessions.ActivityAdvances` | crates/xolotl-console/src/auth.rs:1864-1882 | while no other session is opened, last activity and idle expiry never move back, idle expiry never passes the hard expiry, life-long fields never change |
| `Authorities.CallStore.SetCallAuthority` | crates/xolotl-federation/src/call_memory.rs:229-259 | lands exactly when the rule is acceptable, the key has the expected revision, a new key has room and the revision can advance; then the row is this rule one revision on and every other key is as it was; each error has its exact condition and changes nothing |
| `Authorities.CallStore.CallAuthority` | crates/xolotl-federation/src/call_memory.rs:261-271 | finds the row of a key |
| `Authorities.CallStore.ScanCallAuthorities` | crates/xolotl-federation/src/call_memory.rs:273-297 | returns the next rows in key order after an exclusive key |
| `Authorities.Sweep` | crates/xolotl-daemon/src/federation_catalog.rs:301-321 | the paged scan looks at every row although it rewrites rows on the way, and switches off exactly those not configured; it fails exactly at the first enabled, unconfigured row whose switched-off rule the store rejects or whose revision cannot advance, and stops there |
| `Authorities.Grant` | crates/xolotl-daemon/src/federation_catalog.rs:322-338 | leaves a row that stands alone; otherwise fails with a conflict exactly when the revision is not the expected one, with a rejection or a capacity error exactly when a write is due that the store rejects or has no room or revision for, and else writes; a failure changes nothing |
| `Authorities.ReconcileAuthorities` | crates/xolotl-daemon/src/federation_catalog.rs:293-340 | reports the first failure of the sweep, or else the first of the grants; on success the table is the specified one; on failure it stopped while switching off, with nothing granted, or after all of that; in any case no key disappears, no revision moves back and only configured keys have been switched on |
| `Authorities.ReconcilesWhen` | crates/xolotl-daemon/src/federation_catalog.rs:293-340 | it succeeds exactly when, in the table as it is before, every enabled unconfigured row can be switched off and every configured rule can be granted over its own row in a table grown by the new rules before it |
| `Authorities.ReconciledExactly` | crates/xolotl-daemon/src/federation_catalog.rs:290-340 | afterwards a key is enabled exactly when a configured rule enables it, every configured rule stands as configured or is absent because it is disabled and was absent, and other rows are as before but switched off |
| `Contract.HashText` | crates/xolotl-daemon/src/federation_catalog.rs:496-499 | feeds a text with its length |
| `Contract.FeedContract` | crates/xolotl-daemon/src/federation_catalog.rs:464-494 | feeds exactly the encoding of the contract |
| `Contract.EncodeInjective` | crates/xolotl-daemon/src/federation_catalog.rs:464-499 | contracts with the same bytes are the same contract |
| `Grants.CompileGrants` | crates/xolotl-daemon/src/federation_catalog.rs:411-462 | succeeds exactly for few, well-formed, pairwise different grants, and returns their canonical forms in strictly ascending order; otherwise the first failure |
| `Grants.OrderDoesNotMatter` | crates/xolotl-daemon/src/federation_catalog.rs:447-460 | grants configured in another order compile alike and give the same contract bytes |

## Left out

- Value operations with a state of their own: the source passes the host's value operations as a mutable reference; here they are pure functions of their arguments.
- Images extended while a run is in progress: `Continue` is modelled, but an execution keeps one image for its whole life, and an image id stands for one image.
- Appended code in the storage bounds: the bounds are proved for runs without `Continue`, as the analysis documents.
- Wrap-around of the cleanup counter: `cleaning` and frame depths are unbounded here; program counters, tickets and step counters have their source widths.
- `clear_bindings`, `continuation_entries`, `pending_requests`, `view` and `contexts`: read-only views and a bulk clear that would only add easy members.
- `advance_linked`, authority handles and linking: they depend on slot generations that belong to another model.
- Completeness.FinishedRunMeans: asks for two frames per host call, since it also says that the evaluator's storage fits; `Completeness.TightRunMeans` has no such bound. A run that does run out may end in a frame fault, which the evaluator does not describe.
- Contract.EncodeInjective: lengths are below 2^32 because the source writes them in 32 bits; the hash function is not modelled, only the bytes that enter it.
- Budget.CancelledEndsInError: the condition on the host is sufficient and not necessary, because a host may violate it only for values that no run produces.
- Sessions.ActivityAdvances: assumes one idle limit and a clock that never moves back, since a shorter limit or an earlier clock legitimately shortens the idle expiry.
- HistoryTrim: what fits one batch is an arbitrary function of the events folded so far; encoded sizes and baselines are not computed.
- Authorities.ReconcilesWhen: the same two assumptions as `Authorities.ReconciledExactly`.
- Authorities.ReconciledExactly: configured keys are distinct, which preparation checks before (lines 220-225 of the same file); the store has a single writer during reconciliation.
- Grants.CompileGrants: the selector parser is an arbitrary function, and the library sort is an insertion sort.
- Login, passwords, rate limits, audit, network adapters, streams, console pages and configuration.

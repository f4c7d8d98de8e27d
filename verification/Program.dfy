/** Linked program images and the value operations a host supplies.
    Models crates/xolotl-core/src/program.rs and program/indices.rs. */
module Program {

  datatype Option<+T> = None | Some(value: T)

  datatype Result<+T, +F> = Ok(value: T) | Err(error: F)

  /** Host values and host errors stay abstract. */
  type V(!new)
  type E(!new)

  type Res = Result<V, E>

  const IMAGE_VERSION: nat := 1
  const U64_MAX: nat := 0xFFFF_FFFF_FFFF_FFFF
  const U32_MAX: nat := 0xFFFF_FFFF

  function Max(a: int, b: int): int { if a >= b then a else b }

  datatype Fault =
    | Version
    | InvalidNode
    | InvalidImport
    | InvalidBinding
    | MissingBinding
    | Tasks
    | Frames
    | AnalysisCapacity
    | Fuel
    | Iterations
    | Type
    | Cancelled
    | StaleEvent
    | SequenceExhausted
    | ImageMismatch
    | InvalidState
    | Authority

  datatype Join = All | Race

  datatype NodeKind =
    | Literal(constant: V)
    | Input
    | Load(slot: nat)
    | Fail(failure: E)
    | Request(port: nat)
    | Then(first: nat, after: nat)
    | Catch(body: nat, recover: nat)
    | Finally(body: nat, cleanup: nat)
    | If(yes: nat, no: nat)
    | Branch(condition: nat, yes: nat, no: nat)
    | Let(slot: nat, bound: nat, body: nat)
    | While(condition: nat, body: nat, max: nat)
    | Fork(left: nat, right: nat, join: Join)
    | Call(entry: nat)
    | Scope(port: nat, body: nat)

  datatype Node = Node(kind: NodeKind, next: Option<nat>, position: nat)

  datatype Image = Image(version: nat, id: nat, nodes: seq<Node>, entry: nat, bindings: nat, imports: nat)
  {
    predicate Has(n: nat) { n < |nodes| }
  }

  /** The instruction addresses named by a node, its implicit continuation first. */
  function Targets(node: Node): seq<nat> {
    (if node.next.Some? then [node.next.value] else []) +
    match node.kind
    case Literal(_) => []
    case Input => []
    case Load(_) => []
    case Fail(_) => []
    case Request(_) => []
    case Then(a, b) => [a, b]
    case Catch(a, b) => [a, b]
    case Finally(a, b) => [a, b]
    case If(a, b) => [a, b]
    case Branch(c, a, b) => [c, a, b]
    case Let(_, a, b) => [a, b]
    case While(a, b, _) => [a, b]
    case Fork(a, b, _) => [a, b]
    case Call(a) => [a]
    case Scope(_, a) => [a]
  }

  predicate PortsIn(node: Node, imports: nat) {
    match node.kind
    case Request(p) => p < imports
    case Scope(p, _) => p < imports
    case _ => true
  }

  predicate SlotsIn(node: Node, bindings: nat) {
    match node.kind
    case Load(slot) => slot < bindings
    case Let(slot, _, _) => slot < bindings
    case _ => true
  }

  /** What admission demands of one instruction: every address, import and slot is in range. */
  predicate NodeValid(image: Image, node: Node) {
    && (forall t :: t in Targets(node) ==> t < |image.nodes|)
    && PortsIn(node, image.imports)
    && SlotsIn(node, image.bindings)
  }

  predicate Valid(image: Image) {
    && image.version == IMAGE_VERSION
    && image.entry < |image.nodes|
    && forall i :: 0 <= i < |image.nodes| ==> NodeValid(image, image.nodes[i])
  }

  /** The first address of `node` that admission rejects, when code must stay in `[lo, hi)`. */
  function IndexFault(node: Node, lo: nat, hi: nat, imports: nat, bindings: nat): (r: Option<Fault>)
    ensures r.None? <==>
      (forall t :: t in Targets(node) ==> lo <= t < hi) && PortsIn(node, imports) && SlotsIn(node, bindings)
  {
    var kind := node.kind;
    if node.next.Some? && !(lo <= node.next.value < hi) then
      assert node.next.value in Targets(node);
      Some(InvalidNode)
    else if (kind.Load? || kind.Let?) && kind.slot >= bindings then Some(InvalidBinding)
    else if (kind.Request? || kind.Scope?) && kind.port >= imports then Some(InvalidImport)
    else
      var others := Targets(node.(next := None));
      TargetsSplit(node);
      if forall t :: t in others ==> lo <= t < hi then None else Some(InvalidNode)
  }

  lemma TargetsSplit(node: Node)
    ensures forall t :: t in Targets(node) <==> t in Targets(node.(next := None)) || node.next == Some(t)
  {
  }

  /** The first fault found in `nodes[from..hi]`, in instruction order. */
  function FirstFault(image: Image, lo: nat, hi: nat, from: nat): (r: Option<Fault>)
    requires from <= hi <= |image.nodes|
    ensures r.None? <==> forall i :: from <= i < hi ==>
      IndexFault(image.nodes[i], lo, hi, image.imports, image.bindings).None?
    decreases hi - from
  {
    if from == hi then None
    else
      var f := IndexFault(image.nodes[from], lo, hi, image.imports, image.bindings);
      if f.Some? then f else FirstFault(image, lo, hi, from + 1)
  }

  /** The earliest problem of an image that is not valid. */
  function EarliestFault(image: Image): Fault
    requires !Valid(image)
  {
    if image.version != IMAGE_VERSION then Version
    else if image.entry >= |image.nodes| then InvalidNode
    else FirstFault(image, 0, |image.nodes|, 0).value
  }

  /** Admission of an image: it is accepted exactly when it is valid, and otherwise the
      earliest problem is reported. */
  method Validate(image: Image) returns (r: Result<(), Fault>)
    ensures r.Ok? <==> Valid(image)
    ensures r.Err? ==> r.error == EarliestFault(image)
  {
    if image.version != IMAGE_VERSION { return Err(Version); }
    if image.entry >= |image.nodes| { return Err(InvalidNode); }
    for i := 0 to |image.nodes|
      invariant FirstFault(image, 0, |image.nodes|, 0) == FirstFault(image, 0, |image.nodes|, i)
    {
      var f := IndexFault(image.nodes[i], 0, |image.nodes|, image.imports, image.bindings);
      if f.Some? { return Err(f.value); }
    }
    return Ok(());
  }

  /** Value operations supplied by a host. */
  datatype Values = Values(
    unit: V,
    truth: V -> Result<bool, E>,
    pair: (V, V) -> Res,
    error: Fault -> E,
    errorValue: E -> V,
    influence: (V, V) -> V,
    influenceResult: (Res, V) -> Res,
    retainResult: Res -> V,
    retainControl: V -> V)

  /** Recording provenance never turns a failure into a success. */
  ghost predicate KeepsErrors(h: Values) {
    forall r: Res, c: V :: r.Err? ==> h.influenceResult(r, c).Err?
  }

  /** The image one execution runs and the host operations it runs with. */
  datatype Setting = Setting(image: Image, h: Values)
}

/** Repository changes (internal/change/planner.go): planning operations against a
    snapshot, predicting a tree, and applying the operations to a real one. A tree
    is a flat map from normalized path to file; a content hash is its content. */
module Change {
  import opened Basics
  import StableSort

  /** Normalized relative paths, numbered in byte order. */
  type Path = nat

  /** A path as a caller writes it: normalizable, refused, or left out. */
  datatype RawPath = Normal(path: Path) | Unsafe | Blank

  type Content = string

  /** An injective content hash; NoHash is the empty string, Foreign any text that is no content's hash. */
  datatype Hash = NoHash | HashOf(content: Content) | Foreign

  datatype Kind = Create | Replace | Delete | Rename | Chmod

  /** A snapshot entry; the zero value stands for a path the snapshot does not list. */
  datatype Info = Info(mode: nat, size: nat, hash: Hash, present: bool)

  const ABSENT := Info(0, 0, NoHash, false)

  type Files = map<Path, Info>

  /** Permission bits, all that Perm() reports and Chmod sets of a mode. */
  type Mode = m: nat | m < 512

  datatype File = File(content: Content, mode: Mode)

  type Tree = map<Path, File>

  datatype Input = Input(
    id: string, ordinal: int, kind: Option<Kind>, path: RawPath, destination: RawPath,
    expected: Hash, newMode: nat, content: Content)

  datatype Operation = Operation(
    id: string, ordinal: int, kind: Kind, path: Path, destination: Option<Path>,
    expected: Hash, newHash: Hash, newSize: nat, newMode: nat)

  datatype Budgets = Budgets(maxOperations: nat, maxFileBytes: nat, maxTotalBytes: nat)

  const MAX_OPERATIONS := 128

  function At(files: Files, p: Path): Info {
    if p in files then files[p] else ABSENT
  }

  // ----- Planning -----

  function Digits(n: nat): string {
    if n < 10 then [('0' as int + n) as char] else Digits(n / 10) + [('0' as int + n % 10) as char]
  }

  /** The id of an operation whose caller gave none: "op-" and at least three digits. */
  function DefaultId(n: nat): string {
    "op-" + (if n < 10 then "00" else if n < 100 then "0" else "") + Digits(n)
  }

  datatype Draft = Draft(ops: seq<Operation>, seen: set<Path>, total: nat, contents: map<string, Content>)

  const EMPTY_DRAFT := Draft([], {}, 0, map[])

  datatype Packet = Packet(source: Files, ops: seq<Operation>)

  datatype Planned = Planned(packet: Packet, contents: map<string, Content>, expected: Files)

  /** The operation an input stands for, with every check against the snapshot. */
  function PlanOne(source: Files, seen: set<Path>, index: nat, input: Input): Result<Operation> {
    if !input.path.Normal? || input.path.path in seen || input.kind.None? then Err
    else
      var path, kind := input.path.path, input.kind.value;
      var file := At(source, path);
      var id := if input.id == "" then DefaultId(index + 1) else input.id;
      var ordinal := if input.ordinal == 0 then index + 1 else input.ordinal;
      var base := Operation(id, ordinal, kind, path, None, input.expected, NoHash, 0, input.newMode);
      var matches := file.present && input.expected != NoHash && input.expected == file.hash;
      match kind
      case Create =>
        if file.present || input.content == "" then Err
        else Ok(base.(newHash := HashOf(input.content), newSize := |input.content|,
                      newMode := if input.newMode == 0 then 0x1A4 else input.newMode))
      case Replace =>
        if !matches || input.content == "" then Err
        else Ok(base.(newHash := HashOf(input.content), newSize := |input.content|,
                      newMode := if input.newMode == 0 then file.mode else input.newMode))
      case Delete =>
        if !matches then Err else Ok(base)
      case Rename =>
        if !matches || !input.destination.Normal? then Err
        else
          var destination := input.destination.path;
          if At(source, destination).present || destination in seen + {path} then Err
          else Ok(base.(destination := Some(destination), newHash := file.hash, newSize := file.size, newMode := file.mode))
      case Chmod =>
        if !matches || input.newMode == 0 then Err
        else Ok(base.(newHash := file.hash, newSize := file.size))
  }

  /** The paths an operation reads or writes. */
  function Footprint(op: Operation): set<Path> {
    if op.kind == Rename && op.destination.Some? then {op.path, op.destination.value} else {op.path}
  }

  function Extend(budgets: Budgets, draft: Draft, op: Operation, content: Content): Result<Draft> {
    if op.newSize > budgets.maxFileBytes || draft.total + op.newSize > budgets.maxTotalBytes then Err
    else Ok(Draft(draft.ops + [op], draft.seen + Footprint(op), draft.total + op.newSize,
                  if op.kind == Create || op.kind == Replace then draft.contents[op.id := content] else draft.contents))
  }

  function PlanAll(source: Files, budgets: Budgets, inputs: seq<Input>): Result<Draft> {
    if inputs == [] then Ok(EMPTY_DRAFT)
    else match PlanAll(source, budgets, inputs[..|inputs| - 1])
      case Err => Err
      case Ok(draft) => match PlanOne(source, draft.seen, |inputs| - 1, inputs[|inputs| - 1])
        case Err => Err
        case Ok(op) => Extend(budgets, draft, op, inputs[|inputs| - 1].content)
  }

  function Plan(source: Files, budgets: Budgets, inputs: seq<Input>): Result<Planned> {
    if inputs == [] || |inputs| > MAX_OPERATIONS || |inputs| > budgets.maxOperations then Err
    else match PlanAll(source, budgets, inputs)
      case Err => Err
      case Ok(draft) =>
        Ok(Planned(Packet(source, draft.ops), draft.contents, Predicted(source, draft.ops)))
  }

  /** The paths the service asks a snapshot of. */
  function Asked(inputs: seq<Input>): set<RawPath> {
    (set i | 0 <= i < |inputs| :: inputs[i].path) +
    (set i | 0 <= i < |inputs| && inputs[i].destination != Blank :: inputs[i].destination)
  }

  /** Reading the mounted tree at the given paths; absent paths are listed as such. */
  function Capture(tree: Tree, paths: set<Path>): Files {
    map p | p in paths :: Observe(tree, p)
  }

  /** The service's plan: snapshot every named path of the mounted tree, then plan against it. */
  function PlanOnTree(tree: Tree, budgets: Budgets, inputs: seq<Input>): Result<Planned> {
    var asked := Asked(inputs);
    if exists raw :: raw in asked && !raw.Normal? then Err
    else Plan(Capture(tree, set raw | raw in asked && raw.Normal? :: raw.path), budgets, inputs)
  }

  // ----- Ordering -----

  /** The executor's order: by ordinal, then by path. */
  predicate Before(a: Operation, b: Operation) {
    a.ordinal < b.ordinal || (a.ordinal == b.ordinal && a.path < b.path)
  }

  function Sorted(ops: seq<Operation>): seq<Operation> {
    StableSort.Sort(Before, ops)
  }

  // ----- Predicting -----

  function PredictOne(files: Files, op: Operation): Files {
    match op.kind
    case Create => files[op.path := Info(op.newMode, op.newSize, op.newHash, true)]
    case Replace => files[op.path := Info(op.newMode, op.newSize, op.newHash, true)]
    case Delete => files - {op.path}
    case Rename =>
      if op.destination.None? then files - {op.path}
      else (files - {op.path})[op.destination.value := At(files, op.path)]
    case Chmod => files[op.path := At(files, op.path).(mode := op.newMode)]
  }

  function PredictAll(files: Files, ops: seq<Operation>): Files {
    if ops == [] then files else PredictOne(PredictAll(files, ops[..|ops| - 1]), ops[|ops| - 1])
  }

  /** The predicted tree's file list, one entry per path. */
  function Predicted(source: Files, ops: seq<Operation>): Files {
    PredictAll(source, Sorted(ops))
  }

  // ----- Applying -----

  function Observe(tree: Tree, p: Path): Info {
    if p in tree then Info(tree[p].mode, |tree[p].content|, HashOf(tree[p].content), true) else ABSENT
  }

  function Footprints(ops: seq<Operation>): set<Path> {
    if ops == [] then {} else Footprints(ops[..|ops| - 1]) + Footprint(ops[|ops| - 1])
  }

  /** What observedTreeHashFull lists: every path of the snapshot and of the packet. */
  function Observed(tree: Tree, packet: Packet): Files {
    map p | p in packet.source.Keys + Footprints(packet.ops) :: Observe(tree, p)
  }

  datatype Conflict = Conflict(path: Path, expectedPresent: bool, observedPresent: bool, observedHash: Hash)

  function Check(tree: Tree, op: Operation): Option<Conflict> {
    var observed := Observe(tree, op.path);
    var expectedPresent := op.kind != Create;
    if observed.present != expectedPresent || (expectedPresent && observed.hash != op.expected) then
      Some(Conflict(op.path, expectedPresent, observed.present, observed.hash))
    else if op.kind == Rename && op.destination.Some? && op.destination.value in tree then
      Some(Conflict(op.destination.value, false, true, NoHash))
    else None
  }

  /** The content store, keyed by hash. */
  type Contents = map<Hash, Content>

  function ApplyOne(tree: Tree, op: Operation, store: Contents): Option<Tree> {
    match op.kind
    case Create => Write(tree, op, store)
    case Replace => Write(tree, op, store)
    case Delete => if op.path in tree then Some(tree - {op.path}) else None
    case Rename =>
      if op.path in tree && op.destination.Some?
      then Some((tree - {op.path})[op.destination.value := tree[op.path]]) else None
    case Chmod => if op.path in tree then Some(tree[op.path := tree[op.path].(mode := op.newMode % 512)]) else None
  }

  function Write(tree: Tree, op: Operation, store: Contents): Option<Tree> {
    if op.newHash in store && HashOf(store[op.newHash]) == op.newHash
    then Some(tree[op.path := File(store[op.newHash], op.newMode % 512)]) else None
  }

  datatype Stop = Finished | Conflicted(conflict: Conflict) | EffectFailed

  /** How far a run over ordered operations got, and the tree it left. */
  datatype Trace = Trace(tree: Tree, passed: nat, stop: Stop)

  function RunOps(tree: Tree, ops: seq<Operation>, store: Contents, dryRun: bool): Trace {
    if ops == [] then Trace(tree, 0, Finished)
    else
      var before := RunOps(tree, ops[..|ops| - 1], store, dryRun);
      if before.stop != Finished then before
      else RunNext(before, ops[|ops| - 1], store, dryRun)
  }

  function RunNext(t: Trace, op: Operation, store: Contents, dryRun: bool): Trace {
    match Check(t.tree, op)
    case Some(conflict) => t.(stop := Conflicted(conflict))
    case None =>
      if dryRun then t.(passed := t.passed + 1)
      else match ApplyOne(t.tree, op, store)
        case None => t.(stop := EffectFailed)
        case Some(after) => t.(tree := after, passed := t.passed + 1)
  }

  datatype Verdict = Verified | SourceConflict | EffectError | Interrupted | NeedsRecovery

  datatype Report = Report(tree: Tree, applied: nat, verdict: Verdict, conflict: Option<Conflict>)

  /** One call of Apply, cut off before the `limit`-th operation by a crash, an I/O
      error or a cancelled context; a limit past the end never cuts. */
  function Apply(tree: Tree, packet: Packet, store: Contents, dryRun: bool, limit: nat): Report {
    var ordered := Sorted(packet.ops);
    var ran := RunOps(tree, if limit < |ordered| then ordered[..limit] else ordered, store, dryRun);
    var applied := if dryRun then 0 else ran.passed;
    match ran.stop
    case Conflicted(c) => Report(ran.tree, applied, SourceConflict, Some(c))
    case EffectFailed => Report(ran.tree, applied, EffectError, None)
    case Finished =>
      if limit < |ordered| then Report(ran.tree, applied, Interrupted, None)
      else if dryRun || Observed(ran.tree, packet) == Predicted(packet.source, packet.ops)
      then Report(ran.tree, applied, Verified, None)
      else Report(ran.tree, applied, NeedsRecovery, None)
  }

  // ----- The service's classification of a failed application -----

  datatype Status = StatusApplied | StatusConflicted | StatusRecoveryRequired | StatusFailed

  function Classify(r: Report): Status {
    if r.verdict == Verified then StatusApplied
    else if r.conflict.Some? then StatusConflicted
    else if r.applied > 0 then StatusRecoveryRequired
    else StatusFailed
  }
}

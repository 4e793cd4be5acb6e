/** What applying a planned request does to the tree, said of the request's inputs and the
    tree before it; in what order it is done; and what the reported status says of it. */
module ChangeEffects {
  import opened Basics
  import StableSort
  import opened Change
  import opened ChangePlanning
  import opened ChangeExecution
  import opened ChangeOutcome
  import opened ChangeInputs

  // ----- Preconditions -----

  /** An operation passes exactly where its path is as it expects and its destination is free;
      otherwise the conflict names the path at fault and what was found there. */
  lemma PreconditionsAreExact(tree: Tree, op: Operation)
    ensures Check(tree, op).None? <==>
              && (op.kind == Create ==> op.path !in tree)
              && (op.kind != Create ==> op.path in tree && op.expected == HashOf(tree[op.path].content))
              && (op.kind == Rename && op.destination.Some? ==> op.destination.value !in tree)
    ensures Check(tree, op).Some? ==>
              var c := Check(tree, op).value;
              && (c.path == op.path || Some(c.path) == op.destination)
              && (c.observedPresent <==> c.path in tree)
              && (c.expectedPresent ==> c.path == op.path && op.kind != Create)
              && (c.path == op.path && op.kind != Create && op.destination != Some(op.path) ==> c.expectedPresent)
              && (c.observedHash != NoHash ==> c.path in tree && c.observedHash == HashOf(tree[c.path].content))
  {
  }

  // ----- Order -----

  /** Operations run by ascending ordinal and, among equal ones, by ascending path, each once. */
  lemma OperationsRunByOrdinal(ops: seq<Operation>)
    ensures multiset(Sorted(ops)) == multiset(ops)
    ensures forall i, j :: 0 <= i < j < |Sorted(ops)| ==>
              var a, b := Sorted(ops)[i], Sorted(ops)[j];
              a.ordinal < b.ordinal || (a.ordinal == b.ordinal && a.path <= b.path)
  {
    hide StableSort.Sort;
    SortedIsAnOrderedPermutation(ops);
  }

  // ----- From inputs to the tree -----

  /** The tree `after` holds what the input asks for, given the tree `before`. */
  predicate Done(before: Tree, after: Tree, input: Input)
    requires input.path.Normal? && input.kind.Some?
  {
    var path := input.path.path;
    match input.kind.value
    case Create =>
      Has(after, path) == Some(File(input.content, if input.newMode == 0 then 0x1A4 else input.newMode % 512))
    case Replace =>
      && path in before
      && Has(after, path) == Some(File(input.content, if input.newMode == 0 then before[path].mode else input.newMode % 512))
    case Delete => path in before && path !in after
    case Rename =>
      && input.destination.Normal? && path in before && path !in after
      && Has(after, input.destination.path) == Has(before, path)
    case Chmod =>
      path in before && Has(after, path) == Some(File(before[path].content, input.newMode % 512))
  }

  /** An operation that stands for an input does what the input asks. */
  lemma OperationDoesItsInput(
      tree: Tree, source: Files, index: nat, input: Input, op: Operation, store: Contents, after: Tree)
    requires Admits(source, input) && Asks(index, input, op) && Leaves(source, input, op)
    requires source == Capture(tree, source.Keys) && Ready(op, store)
    requires ApplyOne(tree, op, store).Some? && Check(tree, op).None?
    requires Agree(after, ApplyOne(tree, op, store).value, Footprint(op))
    ensures Done(tree, after, input)
  {
    hide DefaultId;
    var own := ApplyOne(tree, op, store).value;
    assert op.path in Footprint(op);
    assert Has(after, op.path) == Has(own, op.path);
    if op.path in source { assert source[op.path] == Observe(tree, op.path); }
    if op.kind == Rename {
      assert op.destination.value in Footprint(op);
      assert Has(after, op.destination.value) == Has(own, op.destination.value);
    }
  }

  /** A request that was planned on a tree and applied to it leaves there, input by input, what
      each of them asks for, and every other path as it was. */
  lemma AppliedRequestDoesWhatItAsks(tree: Tree, budgets: Budgets, inputs: seq<Input>, store: Contents, limit: nat)
    requires PlanOnTree(tree, budgets, inputs).Ok? && limit >= |inputs|
    requires AllReady(PlanOnTree(tree, budgets, inputs).value.packet.ops, store)
    ensures var after := Apply(tree, PlanOnTree(tree, budgets, inputs).value.packet, store, false, limit).tree;
            && (forall i :: 0 <= i < |inputs| ==>
                  inputs[i].path.Normal? && inputs[i].kind.Some? && Done(tree, after, inputs[i]))
            && (forall p :: (forall i :: 0 <= i < |inputs| ==> Normal(p) !in Touches(inputs[i])) ==>
                  Has(after, p) == Has(tree, p))
  {
    hide PlanAll, Predicted, Sorted, RunOps, Footprint, Footprints, Done, Admits, Asks, Leaves, Touches, Ready, Has, ApplyOne, Check, Fits, Disjoint;
    var packet := PlanOnTree(tree, budgets, inputs).value.packet;
    var source, ops := packet.source, packet.ops;
    PlannedPacketIsGrounded(tree, budgets, inputs);
    PlanGivesEachInputItsOperation(source, budgets, inputs, ops);
    SortedKeepsEverything(tree, packet, store);
    var run := Sorted(ops);
    GroundedRunFinishes(tree, source, run, store);
    var after := RunOps(tree, run, store, false).tree;
    assert after == Apply(tree, packet, store, false, limit).tree;
    FinishedRunIsPointwise(tree, run, store);
    RunStaysInItsFootprints(tree, run, store, false);
    forall i | 0 <= i < |inputs| ensures inputs[i].path.Normal? && inputs[i].kind.Some? && Done(tree, after, inputs[i]) {
      assert Admits(source, inputs[i]) && Asks(i, inputs[i], ops[i]) && Leaves(source, inputs[i], ops[i]);
      ListedOperationRuns(ops, run, i);
      var j :| 0 <= j < |run| && run[j] == ops[i];
      AdmittedIsNormal(source, inputs[i]);
      OperationDoesItsInput(tree, source, i, inputs[i], ops[i], store, after);
    }
    forall p | forall i :: 0 <= i < |inputs| ==> Normal(p) !in Touches(inputs[i]) ensures Has(after, p) == Has(tree, p) {
      UntouchedIsOutside(source, inputs, ops, p);
    }
  }

  lemma AdmittedIsNormal(source: Files, input: Input)
    requires Admits(source, input)
    ensures input.path.Normal? && input.kind.Some?
  {
  }

  lemma ListedOperationRuns(ops: seq<Operation>, run: seq<Operation>, i: nat)
    requires multiset(ops) == multiset(run) && i < |ops|
    ensures exists j :: 0 <= j < |run| && run[j] == ops[i]
  {
    assert ops[i] in multiset(run);
  }

  lemma UntouchedIsOutside(source: Files, inputs: seq<Input>, ops: seq<Operation>, p: Path)
    requires BecomesEach(source, inputs, ops) && forall i :: 0 <= i < |inputs| ==> Admits(source, inputs[i])
    requires forall i :: 0 <= i < |inputs| ==> Normal(p) !in Touches(inputs[i])
    ensures p !in Footprints(ops)
  {
    hide Admits, Asks, Leaves, Touches, Footprint;
    FootprintsUnion(ops, p);
    forall i | 0 <= i < |ops| ensures p !in Footprint(ops[i]) {
      OperationTouchesItsInput(source, i, inputs[i], ops[i]);
      assert Normal(p) !in Touches(inputs[i]);
    }
  }

  // ----- What is reported -----

  lemma {:induction false} ConflictIsAtTheStop(tree: Tree, ops: seq<Operation>, store: Contents, dry: bool)
    ensures var r := RunOps(tree, ops, store, dry);
            r.stop.Conflicted? ==> r.passed < |ops| && Check(r.tree, ops[r.passed]) == Some(r.stop.conflict)
    ensures var r := RunOps(tree, ops, store, dry);
            r.stop.EffectFailed? ==> !dry && r.passed < |ops| && ApplyOne(r.tree, ops[r.passed], store).None?
  {
    hide Check, ApplyOne;
    PassedCountsOperations(tree, ops, store, dry);
    if ops != [] {
      ConflictIsAtTheStop(tree, ops[..|ops| - 1], store, dry);
      PassedCountsOperations(tree, ops[..|ops| - 1], store, dry);
    }
  }

  /** The reported status says exactly how the application went: applied when every operation
      passed and the result is the predicted one; conflicted at the operation after those
      counted; in need of recovery when it stopped otherwise with some applied; and failed
      when with none, which has left the tree as it was. */
  lemma StatusTellsTheRun(tree: Tree, packet: Packet, store: Contents, dry: bool, limit: nat)
    ensures var ordered := Sorted(packet.ops);
            var run := RunOps(tree, ordered[..Min(limit, |ordered|)], store, dry);
            var r := Apply(tree, packet, store, dry, limit);
            && r.tree == run.tree && r.applied == (if dry then 0 else run.passed)
            && (Classify(r) == StatusApplied <==>
                  limit >= |ordered| && run.passed == |ordered|
                  && (dry || Observed(r.tree, packet) == Predicted(packet.source, packet.ops)))
            && (Classify(r) == StatusConflicted <==>
                  run.passed < Min(limit, |ordered|) && !run.stop.EffectFailed?)
            && (Classify(r) == StatusConflicted ==> Check(r.tree, ordered[run.passed]) == r.conflict)
            && (Classify(r) == StatusRecoveryRequired <==>
                  r.applied > 0 && Classify(r) != StatusApplied && Classify(r) != StatusConflicted)
            && (Classify(r) == StatusFailed ==> r.applied == 0 && r.tree == tree)
  {
    hide Sorted, RunOps, Check, ApplyOne, Observed, Predicted;
    var ordered := Sorted(packet.ops);
    var ran := ordered[..Min(limit, |ordered|)];
    assert limit >= |ordered| ==> ran == ordered;
    PassedCountsOperations(tree, ran, store, dry);
    ConflictIsAtTheStop(tree, ran, store, dry);
    StoppedRunIsAPrefix(tree, ran, store, dry);
    RunStaysInItsFootprints(tree, ran, store, dry);
    NothingRan(tree, store, dry);
    if RunOps(tree, ran, store, dry).passed == 0 { assert ran[..0] == []; }
  }

  lemma NothingRan(tree: Tree, store: Contents, dry: bool)
    ensures RunOps(tree, [], store, dry) == Trace(tree, 0, Finished)
  {
  }

  // ----- Planning on the mounted tree -----

  /** The paths a request names: what each input changes and any destination it gives. */
  predicate Names(inputs: seq<Input>, raw: RawPath) {
    exists i :: 0 <= i < |inputs| && (raw == inputs[i].path || (raw == inputs[i].destination && raw != Blank))
  }

  lemma AskedAreNamed(inputs: seq<Input>, raw: RawPath)
    ensures raw in Asked(inputs) <==> Names(inputs, raw)
  {
  }

  /** A request is planned on a tree exactly when every path it names is safe and it is
      plannable on what the tree holds at those paths, which is the snapshot it is planned on. */
  lemma TreesArePlannedExactly(tree: Tree, budgets: Budgets, inputs: seq<Input>, source: Files)
    requires forall p :: p in source <==> Names(inputs, Normal(p))
    requires forall p :: p in source ==>
               source[p] == if p in tree then Info(tree[p].mode, |tree[p].content|, HashOf(tree[p].content), true)
                            else Info(0, 0, NoHash, false)
    ensures PlanOnTree(tree, budgets, inputs).Ok? <==>
              (forall raw :: Names(inputs, raw) ==> raw.Normal?) && Plannable(source, budgets, inputs)
    ensures PlanOnTree(tree, budgets, inputs).Ok? ==> PlanOnTree(tree, budgets, inputs).value.packet.source == source
  {
    hide Asked, Names, PlanAll, Predicted, Plannable;
    forall raw ensures raw in Asked(inputs) <==> Names(inputs, raw) { AskedAreNamed(inputs, raw); }
    var asked := Asked(inputs);
    var paths := set raw | raw in asked && raw.Normal? :: raw.path;
    forall p ensures p in paths <==> p in source {
      if p in source { assert Normal(p) in asked; }
    }
    assert Capture(tree, paths) == source;
    RequestsArePlannedExactly(source, budgets, inputs);
  }
}

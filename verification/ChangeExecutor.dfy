/** The planner and the executor as the loops they are: the planner builds its packet
    input by input, the executor changes a mounted tree operation by operation. Each is
    proved to do what the functions of module Change say. */
module ChangeExecutor {
  import opened Basics
  import opened Change
  import opened ChangePlanning
  import opened ChangeExecution

  lemma {:induction false} PlanAllStaysRefused(source: Files, budgets: Budgets, inputs: seq<Input>, k: nat)
    requires k <= |inputs| && PlanAll(source, budgets, inputs[..k]).Err?
    ensures PlanAll(source, budgets, inputs).Err?
  {
    if k == |inputs| {
      assert inputs[..k] == inputs;
    } else {
      assert inputs[..|inputs| - 1][..k] == inputs[..k];
      PlanAllStaysRefused(source, budgets, inputs[..|inputs| - 1], k);
    }
  }

  method PlanRequest(source: Files, budgets: Budgets, inputs: seq<Input>) returns (r: Result<Planned>)
    ensures r == Plan(source, budgets, inputs)
  {
    hide PlanOne, Footprint, Predicted;
    if inputs == [] || |inputs| > MAX_OPERATIONS || |inputs| > budgets.maxOperations { return Err; }
    var operations: seq<Operation>, seen: set<Path>, totalBytes: nat := [], {}, 0;
    var contents: map<string, Content> := map[];
    var index := 0;
    while index < |inputs|
      invariant index <= |inputs|
      invariant PlanAll(source, budgets, inputs[..index]) == Ok(Draft(operations, seen, totalBytes, contents))
    {
      assert inputs[..index + 1][..index] == inputs[..index];
      var planned := PlanOne(source, seen, index, inputs[index]);
      if planned.Err? {
        PlanAllStaysRefused(source, budgets, inputs, index + 1);
        return Err;
      }
      var operation := planned.value;
      if operation.newSize > budgets.maxFileBytes || totalBytes + operation.newSize > budgets.maxTotalBytes {
        PlanAllStaysRefused(source, budgets, inputs, index + 1);
        return Err;
      }
      if operation.kind == Create || operation.kind == Replace {
        contents := contents[operation.id := inputs[index].content];
      }
      seen, totalBytes := seen + Footprint(operation), totalBytes + operation.newSize;
      operations := operations + [operation];
      index := index + 1;
    }
    assert inputs[..index] == inputs;
    var expected := PredictTree(source, operations);
    r := Ok(Planned(Packet(source, operations), contents, expected));
  }

  /** Edits a copy of the snapshot, operation by operation in the executor's order. */
  method PredictTree(source: Files, operations: seq<Operation>) returns (files: Files)
    ensures files == Predicted(source, operations)
  {
    hide Sorted;
    var ordered := Sorted(operations);
    files := source;
    var i := 0;
    while i < |ordered|
      invariant i <= |ordered| && files == PredictAll(source, ordered[..i])
    {
      assert ordered[..i + 1][..i] == ordered[..i];
      var op := ordered[i];
      match op.kind {
        case Create => files := files[op.path := Info(op.newMode, op.newSize, op.newHash, true)];
        case Replace => files := files[op.path := Info(op.newMode, op.newSize, op.newHash, true)];
        case Delete => files := files - {op.path};
        case Rename =>
          var file := At(files, op.path);
          files := files - {op.path};
          if op.destination.Some? { files := files[op.destination.value := file]; }
        case Chmod => files := files[op.path := At(files, op.path).(mode := op.newMode)];
      }
      i := i + 1;
    }
    assert ordered[..i] == ordered;
  }

  /** A mounted repository tree and the content store its executor resolves from. */
  class Mount {
    var files: Tree
    const store: Contents

    constructor (tree: Tree, store: Contents)
      ensures files == tree && this.store == store
    {
      files, this.store := tree, store;
    }

    /** One effect: the write is atomic, so a failed one leaves the tree as it was. */
    method Effect(op: Operation) returns (done: bool)
      modifies this
      ensures done == ApplyOne(old(files), op, store).Some?
      ensures files == if done then ApplyOne(old(files), op, store).value else old(files)
    {
      match op.kind {
        case Delete =>
          if op.path !in files { return false; }
          files := files - {op.path};
        case Rename =>
          if op.path !in files || op.destination.None? { return false; }
          var file := files[op.path];
          files := files - {op.path};
          files := files[op.destination.value := file];
        case Chmod =>
          if op.path !in files { return false; }
          files := files[op.path := files[op.path].(mode := op.newMode % 512)];
        case _ =>
          if op.newHash !in store { return false; }
          var content := store[op.newHash];
          if HashOf(content) != op.newHash { return false; }
          files := files[op.path := File(content, op.newMode % 512)];
      }
      done := true;
    }

    /** Applies a packet, stopping at a conflict, a failed effect or before operation `limit`. */
    method ApplyPacket(packet: Packet, dryRun: bool, limit: nat) returns (report: Report)
      modifies this
      ensures report == Apply(old(files), packet, store, dryRun, limit)
      ensures files == report.tree
    {
      hide Check, ApplyOne, Sorted, Predicted, Observed;
      var ordered := Sorted(packet.ops);
      ghost var run := if limit < |ordered| then ordered[..limit] else ordered;
      var applied, i := 0, 0;
      while i < |ordered|
        invariant i <= |run|
        invariant applied == if dryRun then 0 else i
        invariant RunOps(old(files), run[..i], store, dryRun) == Trace(files, i, Finished)
      {
        if i == limit {
          assert run[..i] == run;
          return Report(files, applied, Interrupted, None);
        }
        assert run[..i + 1][..i] == run[..i] && run[..i + 1][i] == ordered[i];
        RunContinues(old(files), run, i + 1, store, dryRun);
        var conflict := Check(files, ordered[i]);
        if conflict.Some? { return Report(files, applied, SourceConflict, conflict); }
        if !dryRun {
          var done := Effect(ordered[i]);
          if !done { return Report(files, applied, EffectError, None); }
          applied := applied + 1;
        }
        i := i + 1;
      }
      assert run[..i] == run;
      if dryRun || Observed(files, packet) == Predicted(packet.source, packet.ops) {
        return Report(files, applied, Verified, None);
      }
      report := Report(files, applied, NeedsRecovery, None);
    }
  }
}

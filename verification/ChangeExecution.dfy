/** What running a packet guarantees on any tree: operations on disjoint footprints do
    not interfere, so a dry run foretells the real one and a crash leaves a tree from
    which a second run can only finish or stop untouched. */
module ChangeExecution {
  import opened Basics
  import opened Change
  import opened ChangePlanning

  function Has(tree: Tree, p: Path): Option<File> {
    if p in tree then Some(tree[p]) else None
  }

  /** A rename names its destination and written content can be resolved. */
  predicate Ready(op: Operation, store: Contents) {
    && (op.kind == Rename ==> op.destination.Some?)
    && (op.kind == Create || op.kind == Replace ==>
          op.newHash in store && HashOf(store[op.newHash]) == op.newHash)
  }

  ghost predicate AllReady(ops: seq<Operation>, store: Contents) {
    forall i :: 0 <= i < |ops| ==> Ready(ops[i], store)
  }

  ghost predicate Agree(t: Tree, u: Tree, paths: set<Path>) {
    forall p :: p in paths ==> Has(t, p) == Has(u, p)
  }

  ghost predicate AgreeOutside(t: Tree, u: Tree, paths: set<Path>) {
    forall p :: p !in paths ==> Has(t, p) == Has(u, p)
  }

  // ----- Single operations -----

  lemma CheckIsLocal(t: Tree, u: Tree, op: Operation)
    requires Agree(t, u, Footprint(op))
    ensures Check(t, op) == Check(u, op)
  {
    assert Has(t, op.path) == Has(u, op.path);
    if op.kind == Rename && op.destination.Some? {
      assert Has(t, op.destination.value) == Has(u, op.destination.value);
    }
  }

  lemma PassedCheckMeansEffect(t: Tree, op: Operation, store: Contents)
    requires Ready(op, store) && Check(t, op).None?
    ensures ApplyOne(t, op, store).Some?
  {
  }

  /** An effect decides its footprint from its footprint and touches nothing else. */
  lemma EffectIsLocal(t: Tree, u: Tree, op: Operation, store: Contents)
    requires ApplyOne(t, op, store).Some?
    ensures AgreeOutside(ApplyOne(t, op, store).value, t, Footprint(op))
    ensures Agree(t, u, Footprint(op)) ==>
              && ApplyOne(u, op, store).Some?
              && Agree(ApplyOne(t, op, store).value, ApplyOne(u, op, store).value, Footprint(op))
  {
    if Agree(t, u, Footprint(op)) {
      assert Has(t, op.path) == Has(u, op.path);
    }
  }

  /** The operations that pass their own precondition again after they were applied. */
  predicate Idempotent(op: Operation) {
    op.kind == Chmod || (op.kind == Replace && op.newHash == op.expected)
  }

  lemma OnlyIdempotentEffectsRepeat(t: Tree, op: Operation, store: Contents)
    requires Ready(op, store) && Check(t, op).None?
    ensures ApplyOne(t, op, store).Some?
    ensures var u := ApplyOne(t, op, store).value;
            && (Check(u, op).None? <==> Idempotent(op))
            && (Idempotent(op) ==> ApplyOne(u, op, store) == Some(u))
  {
    var u := ApplyOne(t, op, store).value;
    if Idempotent(op) {
      assert ApplyOne(u, op, store).value == u[op.path := u[op.path]] == u;
    }
  }

  // ----- Runs -----

  lemma {:induction false} RunStaysInItsFootprints(t: Tree, ops: seq<Operation>, store: Contents, dry: bool)
    ensures AgreeOutside(RunOps(t, ops, store, dry).tree, t, Footprints(ops))
    ensures dry ==> RunOps(t, ops, store, dry).tree == t
  {
    hide Check, ApplyOne, Footprint, Has;
    if ops != [] {
      var front, last := ops[..|ops| - 1], ops[|ops| - 1];
      RunStaysInItsFootprints(t, front, store, dry);
      var before := RunOps(t, front, store, dry);
      if before.stop == Finished && !dry && ApplyOne(before.tree, last, store).Some? {
        EffectIsLocal(before.tree, before.tree, last, store);
      }
    }
  }

  lemma {:induction false} PassedCountsOperations(t: Tree, ops: seq<Operation>, store: Contents, dry: bool)
    ensures RunOps(t, ops, store, dry).passed <= |ops|
    ensures RunOps(t, ops, store, dry).stop == Finished <==> RunOps(t, ops, store, dry).passed == |ops|
  {
    hide Check, ApplyOne;
    if ops != [] { PassedCountsOperations(t, ops[..|ops| - 1], store, dry); }
  }

  lemma {:induction false} RunContinues(t: Tree, ops: seq<Operation>, k: nat, store: Contents, dry: bool)
    requires k <= |ops|
    ensures RunOps(t, ops[..k], store, dry).stop != Finished ==>
              RunOps(t, ops, store, dry) == RunOps(t, ops[..k], store, dry)
    ensures RunOps(t, ops, store, dry).stop == Finished ==> RunOps(t, ops[..k], store, dry).stop == Finished
  {
    if k == |ops| {
      assert ops[..k] == ops;
    } else {
      assert ops[..|ops| - 1][..k] == ops[..k];
      RunContinues(t, ops[..|ops| - 1], k, store, dry);
    }
  }

  /** Whatever ends a run, the tree is that of a complete run over the operations it passed. */
  lemma {:induction false} StoppedRunIsAPrefix(t: Tree, ops: seq<Operation>, store: Contents, dry: bool)
    ensures var r := RunOps(t, ops, store, dry);
            r.passed <= |ops| && RunOps(t, ops[..r.passed], store, dry) == Trace(r.tree, r.passed, Finished)
  {
    hide Check, ApplyOne;
    PassedCountsOperations(t, ops, store, dry);
    var r := RunOps(t, ops, store, dry);
    if ops == [] || r.stop == Finished {
      assert ops[..|ops|] == ops;
    } else {
      var front := ops[..|ops| - 1];
      StoppedRunIsAPrefix(t, front, store, dry);
      assert r.passed <= |front| && front[..r.passed] == ops[..r.passed];
    }
  }

  /** A dry run passes the operations up to the first whose precondition fails on the tree as it is. */
  lemma {:induction false} DryRunFindsFirstConflict(t: Tree, ops: seq<Operation>, store: Contents)
    ensures var r := RunOps(t, ops, store, true);
            && r.tree == t
            && r.passed <= |ops|
            && (forall i :: 0 <= i < r.passed ==> Check(t, ops[i]).None?)
            && (r.stop == Finished <==> r.passed == |ops|)
            && (r.passed < |ops| ==> Check(t, ops[r.passed]).Some? && r.stop == Conflicted(Check(t, ops[r.passed]).value))
  {
    hide Check;
    RunStaysInItsFootprints(t, ops, store, true);
    PassedCountsOperations(t, ops, store, true);
    if ops != [] {
      var front := ops[..|ops| - 1];
      DryRunFindsFirstConflict(t, front, store);
      assert forall i :: 0 <= i < |front| ==> front[i] == ops[i];
    }
  }

  /** On any tree, a dry run and the real run pass the same operations and stop at the
      same conflict: what ran earlier cannot reach a later operation's footprint. */
  lemma {:induction false} DryRunForetellsTheRealRun(t: Tree, ops: seq<Operation>, store: Contents)
    requires Disjoint(ops) && AllReady(ops, store)
    ensures RunOps(t, ops, store, true).passed == RunOps(t, ops, store, false).passed
    ensures RunOps(t, ops, store, true).stop == RunOps(t, ops, store, false).stop
    ensures !RunOps(t, ops, store, false).stop.EffectFailed?
  {
    hide Check, ApplyOne, Footprint, Has, Ready;
    if ops != [] {
      var front, last := ops[..|ops| - 1], ops[|ops| - 1];
      assert ops == front + [last];
      DisjointSnoc(front, last);
      assert forall i :: 0 <= i < |front| ==> front[i] == ops[i];
      DryRunForetellsTheRealRun(t, front, store);
      RunStaysInItsFootprints(t, front, store, true);
      RunStaysInItsFootprints(t, front, store, false);
      var before := RunOps(t, front, store, false);
      CheckIsLocal(t, before.tree, last);
      if before.stop == Finished && Check(before.tree, last).None? {
        PassedCheckMeansEffect(before.tree, last, store);
      }
    }
  }

  /** A finished run leaves on each footprint what its operation makes of the original tree. */
  lemma {:induction false} FinishedRunIsPointwise(t: Tree, ops: seq<Operation>, store: Contents)
    requires Disjoint(ops) && RunOps(t, ops, store, false).stop == Finished
    ensures forall i :: 0 <= i < |ops| ==>
              && Check(t, ops[i]).None?
              && ApplyOne(t, ops[i], store).Some?
              && Agree(RunOps(t, ops, store, false).tree, ApplyOne(t, ops[i], store).value, Footprint(ops[i]))
  {
    hide Check, ApplyOne, Footprint, Has;
    if ops != [] {
      var front, last := ops[..|ops| - 1], ops[|ops| - 1];
      assert ops == front + [last];
      DisjointSnoc(front, last);
      FinishedRunIsPointwise(t, front, store);
      RunStaysInItsFootprints(t, front, store, false);
      var before := RunOps(t, front, store, false).tree;
      CheckIsLocal(before, t, last);
      EffectIsLocal(before, t, last, store);
      forall i | 0 <= i < |front|
        ensures Check(t, ops[i]).None? && ApplyOne(t, ops[i], store).Some?
        ensures Agree(RunOps(t, ops, store, false).tree, ApplyOne(t, ops[i], store).value, Footprint(ops[i]))
      {
        assert ops[i] == front[i];
      }
    }
  }

  lemma SameHasSameTree(t: Tree, u: Tree)
    requires forall p :: Has(t, p) == Has(u, p)
    ensures t == u
  {
    forall p ensures p in t <==> p in u { assert Has(t, p) == Has(u, p); }
    forall p | p in t ensures t[p] == u[p] { assert Has(t, p) == Has(u, p); }
  }

  lemma ReadyPermutes(a: seq<Operation>, b: seq<Operation>, store: Contents)
    requires AllReady(a, store) && multiset(a) == multiset(b)
    ensures AllReady(b, store)
  {
    forall i | 0 <= i < |b| ensures Ready(b[i], store) {
      assert b[i] in multiset(a);
      var j :| 0 <= j < |a| && a[j] == b[i];
    }
  }

  lemma FinishingIgnoresOrder(t: Tree, a: seq<Operation>, b: seq<Operation>, store: Contents)
    requires Disjoint(a) && AllReady(a, store) && multiset(a) == multiset(b)
    requires RunOps(t, a, store, false).stop == Finished
    ensures RunOps(t, b, store, false).stop == Finished
  {
    hide Check, ApplyOne, Footprint, Has, Ready, RunOps, Disjoint;
    ReadyPermutes(a, b, store);
    DisjointPermutes(a, b);
    FinishedRunIsPointwise(t, a, store);
    DryRunFindsFirstConflict(t, b, store);
    DryRunForetellsTheRealRun(t, b, store);
    forall i | 0 <= i < |b| ensures Check(t, b[i]).None? {
      assert b[i] in multiset(a);
      var j :| 0 <= j < |a| && a[j] == b[i];
    }
  }

  /** Disjoint operations that all apply in one order apply in every order, with the same tree. */
  lemma RealRunIgnoresOrder(t: Tree, a: seq<Operation>, b: seq<Operation>, store: Contents)
    requires Disjoint(a) && AllReady(a, store) && multiset(a) == multiset(b)
    requires RunOps(t, a, store, false).stop == Finished
    ensures RunOps(t, b, store, false).stop == Finished
    ensures RunOps(t, b, store, false).tree == RunOps(t, a, store, false).tree
  {
    hide Check, ApplyOne, Footprint, Has, Ready, RunOps, Disjoint;
    DisjointPermutes(a, b);
    FinishingIgnoresOrder(t, a, b, store);
    FinishedRunIsPointwise(t, a, store);
    FinishedRunIsPointwise(t, b, store);
    RunStaysInItsFootprints(t, a, store, false);
    RunStaysInItsFootprints(t, b, store, false);
    FootprintsPermute(a, b);
    var u, v := RunOps(t, a, store, false).tree, RunOps(t, b, store, false).tree;
    forall p ensures Has(u, p) == Has(v, p) {
      FootprintsUnion(a, p);
      if p in Footprints(a) {
        var i :| 0 <= i < |a| && p in Footprint(a[i]);
        assert a[i] in multiset(b);
        var j :| 0 <= j < |b| && b[j] == a[i];
      }
    }
    SameHasSameTree(u, v);
  }

  // ----- Running again after a crash -----

  /** On the tree a crash left, an operation that had been applied is refused, unless it
      is idempotent, and then it changes nothing. */
  lemma AppliedOperationOnCrashTree(t: Tree, done: seq<Operation>, i: nat, store: Contents)
    requires Disjoint(done) && AllReady(done, store) && i < |done|
    requires RunOps(t, done, store, false).stop == Finished
    ensures var left := RunOps(t, done, store, false).tree;
            && (Check(left, done[i]).None? <==> Idempotent(done[i]))
            && (Idempotent(done[i]) ==> ApplyOne(left, done[i], store) == Some(left))
  {
    hide Check, ApplyOne, Footprint, RunOps, Disjoint;
    FinishedRunIsPointwise(t, done, store);
    var left, op := RunOps(t, done, store, false).tree, done[i];
    var own := ApplyOne(t, op, store).value;
    OnlyIdempotentEffectsRepeat(t, op, store);
    CheckIsLocal(left, own, op);
    if Idempotent(op) {
      EffectIsLocal(own, left, op, store);
      EffectIsLocal(left, left, op, store);
      var again := ApplyOne(left, op, store).value;
      forall p ensures Has(again, p) == Has(left, p) {
        if p in Footprint(op) { assert Has(left, p) == Has(own, p); }
      }
      SameHasSameTree(again, left);
    }
  }

  lemma {:induction false} RerunRepeatsNothing(t: Tree, done: seq<Operation>, j: nat, store: Contents)
    requires Disjoint(done) && AllReady(done, store) && j <= |done|
    requires RunOps(t, done, store, false).stop == Finished
    requires forall i :: 0 <= i < j ==> Idempotent(done[i])
    ensures var left := RunOps(t, done, store, false).tree;
            RunOps(left, done[..j], store, false) == Trace(left, j, Finished)
  {
    hide Check, ApplyOne, Footprint, Disjoint, Idempotent;
    if j > 0 {
      RerunRepeatsNothing(t, done, j - 1, store);
      AppliedOperationOnCrashTree(t, done, j - 1, store);
      assert done[..j][..j - 1] == done[..j - 1];
    }
  }

  lemma {:induction false} SamePrefixSameRun(t: Tree, u: Tree, ops: seq<Operation>, k: nat, store: Contents)
    requires k <= |ops|
    requires RunOps(t, ops[..k], store, false) == RunOps(u, ops[..k], store, false)
    ensures RunOps(t, ops, store, false) == RunOps(u, ops, store, false)
  {
    if k == |ops| {
      assert ops[..k] == ops;
    } else {
      assert ops[..|ops| - 1][..k] == ops[..k];
      SamePrefixSameRun(t, u, ops[..|ops| - 1], k, store);
    }
  }

  lemma {:induction false} FirstOneTimeOperation(ops: seq<Operation>) returns (j: nat)
    requires exists i :: 0 <= i < |ops| && !Idempotent(ops[i])
    ensures j < |ops| && !Idempotent(ops[j]) && forall i :: 0 <= i < j ==> Idempotent(ops[i])
  {
    if !Idempotent(ops[0]) {
      j := 0;
    } else {
      assert exists i :: 0 <= i < |ops[1..]| && !Idempotent(ops[1..][i]) by {
        var i :| 0 <= i < |ops| && !Idempotent(ops[i]);
        assert ops[1..][i - 1] == ops[i];
      }
      var rest := FirstOneTimeOperation(ops[1..]);
      j := rest + 1;
      forall i | 0 <= i < j ensures Idempotent(ops[i]) {
        if i > 0 { assert ops[i] == ops[1..][i - 1]; }
      }
    }
  }

  lemma PrefixIsDisjointAndReady(ops: seq<Operation>, k: nat, store: Contents)
    requires Disjoint(ops) && AllReady(ops, store) && k <= |ops|
    ensures Disjoint(ops[..k]) && AllReady(ops[..k], store)
  {
    assert forall i :: 0 <= i < k ==> ops[..k][i] == ops[i];
  }

  /** Running again after a crash that followed `k` operations. When all of those are
      idempotent the second run ends as the uncrashed one would have; otherwise it stops
      in a conflict at the first that is not, and the tree stays as the crash left it. */
  lemma RerunFinishesOrTouchesNothing(t: Tree, ops: seq<Operation>, k: nat, store: Contents)
    requires Disjoint(ops) && AllReady(ops, store) && k <= |ops|
    requires RunOps(t, ops[..k], store, false).stop == Finished
    ensures var left := RunOps(t, ops[..k], store, false).tree;
            if forall i :: 0 <= i < k ==> Idempotent(ops[i])
            then RunOps(left, ops, store, false) == RunOps(t, ops, store, false)
            else var again := RunOps(left, ops, store, false);
              && again.stop.Conflicted? && again.tree == left
              && again.passed < k && !Idempotent(ops[again.passed])
              && forall i :: 0 <= i < again.passed ==> Idempotent(ops[i])
  {
    hide Check, ApplyOne, Footprint, Disjoint, Idempotent, Ready;
    var done := ops[..k];
    PrefixIsDisjointAndReady(ops, k, store);
    assert forall i :: 0 <= i < k ==> done[i] == ops[i];
    var left := RunOps(t, done, store, false).tree;
    if forall i :: 0 <= i < k ==> Idempotent(ops[i]) {
      RerunRepeatsNothing(t, done, k, store);
      assert done[..k] == done;
      PassedCountsOperations(t, done, store, false);
      SamePrefixSameRun(left, t, ops, k, store);
    } else {
      var i :| 0 <= i < k && !Idempotent(ops[i]);
      assert !Idempotent(done[i]);
      var j := FirstOneTimeOperation(done);
      RerunStopsAt(t, ops, k, j, store);
    }
  }

  lemma RerunStopsAt(t: Tree, ops: seq<Operation>, k: nat, j: nat, store: Contents)
    requires j < k <= |ops| && Disjoint(ops[..k]) && AllReady(ops[..k], store)
    requires RunOps(t, ops[..k], store, false).stop == Finished
    requires !Idempotent(ops[j]) && forall i :: 0 <= i < j ==> Idempotent(ops[i])
    ensures var left := RunOps(t, ops[..k], store, false).tree;
            var again := RunOps(left, ops, store, false);
            again.stop.Conflicted? && again.tree == left && again.passed == j
  {
    hide Check, ApplyOne, Footprint, Disjoint, Idempotent, Ready;
    var done := ops[..k];
    var left := RunOps(t, done, store, false).tree;
    RerunRepeatsNothing(t, done, j, store);
    AppliedOperationOnCrashTree(t, done, j, store);
    assert ops[..j + 1][..j] == done[..j] && ops[..j + 1][j] == done[j];
    assert RunOps(left, ops[..j + 1], store, false).stop.Conflicted?;
    RunContinues(left, ops, j + 1, store, false);
  }
}

/** What a plan guarantees: exactly which requests are accepted, and that neither the
    executor's order nor the predicted tree depends on how the operations are listed. */
module ChangePlanning {
  import opened Basics
  import StableSort
  import opened Change

  ghost predicate Disjoint(ops: seq<Operation>) {
    forall i, j :: 0 <= i < j < |ops| ==> Footprint(ops[i]) !! Footprint(ops[j])
  }

  function TotalBytes(ops: seq<Operation>): nat {
    if ops == [] then 0 else TotalBytes(ops[..|ops| - 1]) + ops[|ops| - 1].newSize
  }

  // ----- Acceptance -----

  /** The operation of one input when the other inputs are left aside. */
  function Alone(source: Files, index: nat, input: Input): Result<Operation> {
    PlanOne(source, {}, index, input)
  }

  predicate Answers(source: Files, budgets: Budgets, index: nat, input: Input, op: Operation) {
    Alone(source, index, input) == Ok(op) && op.newSize <= budgets.maxFileBytes
  }

  /** `ops` answers `inputs` one by one, no two operations touch a common path, and the budgets hold. */
  ghost predicate Acceptable(source: Files, budgets: Budgets, inputs: seq<Input>, ops: seq<Operation>) {
    && |ops| == |inputs|
    && (forall i :: 0 <= i < |ops| ==> Answers(source, budgets, i, inputs[i], ops[i]))
    && Disjoint(ops)
    && TotalBytes(ops) <= budgets.maxTotalBytes
  }

  lemma SeenOnlyExcludes(source: Files, seen: set<Path>, index: nat, input: Input)
    ensures PlanOne(source, seen, index, input) ==
            match Alone(source, index, input)
            case Err => Err
            case Ok(op) => if Footprint(op) !! seen then Ok(op) else Err
  {
    match Alone(source, index, input)
    case Err =>
    case Ok(op) =>
      assert op.path in Footprint(op);
      assert op.kind == Rename ==> Footprint(op) == {op.path, input.destination.path};
  }

  lemma FootprintsUnion(ops: seq<Operation>, p: Path)
    ensures p in Footprints(ops) <==> exists i :: 0 <= i < |ops| && p in Footprint(ops[i])
  {
    if ops != [] {
      var front := ops[..|ops| - 1];
      FootprintsUnion(front, p);
      if p in Footprint(ops[|ops| - 1]) {
      } else if p in Footprints(front) {
        var i :| 0 <= i < |front| && p in Footprint(front[i]);
        assert ops[i] == front[i];
      } else {
        forall i | 0 <= i < |ops| ensures p !in Footprint(ops[i]) {
          if i < |front| { assert ops[i] == front[i]; }
        }
      }
    }
  }

  lemma DisjointSnoc(front: seq<Operation>, last: Operation)
    ensures Disjoint(front + [last]) <==> Disjoint(front) && Footprint(last) !! Footprints(front)
  {
    var ops := front + [last];
    forall p ensures p in Footprints(front) <==> exists i :: 0 <= i < |front| && p in Footprint(front[i]) {
      FootprintsUnion(front, p);
    }
    if Disjoint(ops) {
      forall i, j | 0 <= i < j < |front| ensures Footprint(front[i]) !! Footprint(front[j]) {
        assert ops[i] == front[i] && ops[j] == front[j];
      }
      forall i | 0 <= i < |front| ensures Footprint(front[i]) !! Footprint(last) {
        assert ops[i] == front[i] && ops[|front|] == last;
      }
    }
  }

  lemma AcceptableSnoc(source: Files, budgets: Budgets, inputs: seq<Input>, ops: seq<Operation>)
    requires 0 < |inputs| == |ops|
    ensures Acceptable(source, budgets, inputs, ops) <==>
            && Acceptable(source, budgets, inputs[..|inputs| - 1], ops[..|ops| - 1])
            && Answers(source, budgets, |inputs| - 1, inputs[|inputs| - 1], ops[|ops| - 1])
            && Footprint(ops[|ops| - 1]) !! Footprints(ops[..|ops| - 1])
            && TotalBytes(ops) <= budgets.maxTotalBytes
  {
    hide PlanOne, Footprint, Footprints, Answers, Disjoint;
    var n := |ops| - 1;
    assert ops == ops[..n] + [ops[n]];
    DisjointSnoc(ops[..n], ops[n]);
    assert (forall i :: 0 <= i < n ==> Answers(source, budgets, i, inputs[..n][i], ops[..n][i]))
           <==> forall i :: 0 <= i < n ==> Answers(source, budgets, i, inputs[i], ops[i]);
  }

  lemma {:induction false} DraftRemembersItsOperations(source: Files, budgets: Budgets, inputs: seq<Input>)
    requires PlanAll(source, budgets, inputs).Ok?
    ensures var d := PlanAll(source, budgets, inputs).value;
            |d.ops| == |inputs| && d.seen == Footprints(d.ops) && d.total == TotalBytes(d.ops)
  {
    hide PlanOne, Footprint;
    if inputs != [] {
      DraftRemembersItsOperations(source, budgets, inputs[..|inputs| - 1]);
      var d := PlanAll(source, budgets, inputs).value;
      assert d.ops[..|d.ops| - 1] == PlanAll(source, budgets, inputs[..|inputs| - 1]).value.ops;
    }
  }

  function PlanNext(source: Files, budgets: Budgets, d: Draft, n: nat, input: Input): Result<Draft> {
    match PlanOne(source, d.seen, n, input)
    case Err => Err
    case Ok(op) => Extend(budgets, d, op, input.content)
  }

  lemma PlanAllOnce(source: Files, budgets: Budgets, inputs: seq<Input>)
    requires inputs != []
    ensures var n := |inputs| - 1;
            PlanAll(source, budgets, inputs) ==
            match PlanAll(source, budgets, inputs[..n])
            case Err => Err
            case Ok(d) => PlanNext(source, budgets, d, n, inputs[n])
  {
    hide PlanOne, Footprint, Extend;
  }

  lemma PlanNextAccepts(source: Files, budgets: Budgets, d: Draft, n: nat, input: Input, op: Operation)
    ensures var next := PlanNext(source, budgets, d, n, input);
            && (next.Ok? ==> |next.value.ops| == |d.ops| + 1 && next.value.ops[..|d.ops|] == d.ops)
            && ((next.Ok? && next.value.ops[|d.ops|] == op) <==>
                  Answers(source, budgets, n, input, op) && Footprint(op) !! d.seen
                  && d.total + op.newSize <= budgets.maxTotalBytes)
  {
    hide PlanOne, Footprint;
    SeenOnlyExcludes(source, d.seen, n, input);
  }

  lemma {:induction false} PlanAllAcceptsExactly(
      source: Files, budgets: Budgets, inputs: seq<Input>, ops: seq<Operation>)
    requires |ops| == |inputs|
    ensures var all := PlanAll(source, budgets, inputs);
            (all.Ok? && all.value.ops == ops) <==> Acceptable(source, budgets, inputs, ops)
  {
    if inputs != [] {
      hide PlanOne, Footprint, Disjoint, Footprints, PlanAll, PlanNext, Acceptable, Answers;
      var n := |inputs| - 1;
      var before := PlanAll(source, budgets, inputs[..n]);
      PlanAllAcceptsExactly(source, budgets, inputs[..n], ops[..n]);
      AcceptableSnoc(source, budgets, inputs, ops);
      PlanAllOnce(source, budgets, inputs);
      assert ops == ops[..n] + [ops[n]];
      if before.Ok? {
        DraftRemembersItsOperations(source, budgets, inputs[..n]);
        PlanNextAccepts(source, budgets, before.value, n, inputs[n], ops[n]);
        SameByParts(PlanNext(source, budgets, before.value, n, inputs[n]), before.value.ops, ops, n);
      }
    }
  }

  /** A list one longer is another exactly when its front and its last are. */
  lemma SameByParts(next: Result<Draft>, front: seq<Operation>, ops: seq<Operation>, n: nat)
    requires |front| == n && |ops| == n + 1
    requires next.Ok? ==> |next.value.ops| == n + 1 && next.value.ops[..n] == front
    ensures (next.Ok? && next.value.ops == ops) <==> (next.Ok? && next.value.ops[n] == ops[n] && front == ops[..n])
  {
    if next.Ok? { assert next.value.ops == next.value.ops[..n] + [next.value.ops[n]]; }
    assert ops == ops[..n] + [ops[n]];
  }

  /** A request is planned exactly when it is within its limits, every input fits the
      snapshot on its own, and no two operations touch a common path. */
  lemma PlanAcceptsExactly(source: Files, budgets: Budgets, inputs: seq<Input>, ops: seq<Operation>)
    ensures var plan := Plan(source, budgets, inputs);
            (plan.Ok? && plan.value.packet.ops == ops) <==>
            0 < |inputs| <= MAX_OPERATIONS && |inputs| <= budgets.maxOperations
            && Acceptable(source, budgets, inputs, ops)
  {
    if |ops| == |inputs| {
      PlanAllAcceptsExactly(source, budgets, inputs, ops);
    } else if PlanAll(source, budgets, inputs).Ok? {
      DraftRemembersItsOperations(source, budgets, inputs);
    }
  }

  // ----- Ordering -----

  lemma SortedIsAnOrderedPermutation(ops: seq<Operation>)
    ensures StableSort.InOrder(Before, Sorted(ops))
    ensures multiset(Sorted(ops)) == multiset(ops)
  {
    StableSort.SortIsAnOrderedPermutation(Before, ops);
  }

  /** Disjointness as a property of the operations, not of where they are listed. */
  ghost predicate Apart(ops: multiset<Operation>) {
    && (forall x :: ops[x] <= 1)
    && (forall x, y :: x in ops && y in ops && x != y ==> Footprint(x) !! Footprint(y))
  }

  lemma DisjointIsApart(ops: seq<Operation>)
    ensures Disjoint(ops) <==> Apart(multiset(ops))
  {
    if Disjoint(ops) {
      DisjointHasNoRepeats(ops);
    } else {
      var i, j :| 0 <= i < j < |ops| && !(Footprint(ops[i]) !! Footprint(ops[j]));
      assert ops == ops[..j] + ops[j..];
      assert ops[i] in multiset(ops[..j]) by { assert ops[..j][i] == ops[i]; }
      assert ops[j] in multiset(ops[j..]) by { assert ops[j..][0] == ops[j]; }
      if ops[i] == ops[j] { assert multiset(ops)[ops[i]] >= 2; }
    }
  }

  lemma {:induction false} DisjointHasNoRepeats(ops: seq<Operation>)
    requires Disjoint(ops)
    ensures forall x :: multiset(ops)[x] <= 1
  {
    if ops != [] {
      var front, last := ops[..|ops| - 1], ops[|ops| - 1];
      assert ops == front + [last];
      DisjointSnoc(front, last);
      DisjointHasNoRepeats(front);
      forall i | 0 <= i < |front| ensures front[i] != last {
        assert ops[i] == front[i] && ops[|front|] == last;
        assert last.path in Footprint(last);
      }
      assert last !in multiset(front);
    }
  }

  lemma DisjointPermutes(a: seq<Operation>, b: seq<Operation>)
    requires Disjoint(a) && multiset(a) == multiset(b)
    ensures Disjoint(b)
  {
    DisjointIsApart(a);
    DisjointIsApart(b);
  }

  /** However disjoint operations are listed, the executor runs them in the same order,
      so the packet that is hashed and the tree that is predicted are the same too. */
  lemma ExecutionOrderIsCanonical(a: seq<Operation>, b: seq<Operation>)
    requires Disjoint(a) && multiset(a) == multiset(b)
    ensures Sorted(a) == Sorted(b)
  {
    DisjointIsApart(a);
    forall x, y | x in a && y in a && x != y ensures Before(x, y) || Before(y, x) {
      assert x in multiset(a) && y in multiset(a);
      assert x.path in Footprint(x) && y.path in Footprint(y);
    }
    StableSort.SortIsCanonical(Before, a, b);
  }

  // ----- Prediction -----

  function Look(files: Files, p: Path): Option<Info> {
    if p in files then Some(files[p]) else None
  }

  lemma PredictOneIsLocal(f: Files, g: Files, op: Operation)
    ensures forall p :: p !in Footprint(op) ==> Look(PredictOne(f, op), p) == Look(f, p)
    ensures (forall p :: p in Footprint(op) ==> Look(f, p) == Look(g, p)) ==>
            forall p :: p in Footprint(op) ==> Look(PredictOne(f, op), p) == Look(PredictOne(g, op), p)
  {
    if forall p :: p in Footprint(op) ==> Look(f, p) == Look(g, p) {
      assert Look(f, op.path) == Look(g, op.path);
      assert At(f, op.path) == At(g, op.path);
    }
  }

  /** Each operation decides its own footprint from the snapshot; every other path keeps its entry. */
  lemma {:induction false} PredictionIsPointwise(files: Files, ops: seq<Operation>)
    requires Disjoint(ops)
    ensures forall p :: p !in Footprints(ops) ==> Look(PredictAll(files, ops), p) == Look(files, p)
    ensures forall i, p :: 0 <= i < |ops| && p in Footprint(ops[i]) ==>
              Look(PredictAll(files, ops), p) == Look(PredictOne(files, ops[i]), p)
  {
    hide PredictOne, Footprint, Look;
    if ops != [] {
      var front, last := ops[..|ops| - 1], ops[|ops| - 1];
      assert ops == front + [last];
      DisjointSnoc(front, last);
      PredictionIsPointwise(files, front);
      PredictOneIsLocal(PredictAll(files, front), files, last);
      forall i, p | 0 <= i < |ops| && p in Footprint(ops[i])
        ensures Look(PredictAll(files, ops), p) == Look(PredictOne(files, ops[i]), p)
      {
        if i < |front| {
          assert ops[i] == front[i];
          FootprintsUnion(front, p);
        }
      }
    }
  }

  lemma SameLooksSameFiles(f: Files, g: Files)
    requires forall p :: Look(f, p) == Look(g, p)
    ensures f == g
  {
    forall p ensures p in f <==> p in g { assert Look(f, p) == Look(g, p); }
    forall p | p in f ensures f[p] == g[p] { assert Look(f, p) == Look(g, p); }
  }

  lemma FootprintsPermute(a: seq<Operation>, b: seq<Operation>)
    requires multiset(a) == multiset(b)
    ensures Footprints(a) == Footprints(b)
  {
    forall p ensures p in Footprints(a) <==> p in Footprints(b) {
      FootprintsUnion(a, p);
      FootprintsUnion(b, p);
      if p in Footprints(a) {
        var i :| 0 <= i < |a| && p in Footprint(a[i]);
        assert a[i] in multiset(b);
      }
      if p in Footprints(b) {
        var i :| 0 <= i < |b| && p in Footprint(b[i]);
        assert b[i] in multiset(a);
      }
    }
  }

  /** Disjoint operations predict the same tree in every order, not only in the executor's. */
  lemma PredictionIgnoresOrder(files: Files, a: seq<Operation>, b: seq<Operation>)
    requires Disjoint(a) && multiset(a) == multiset(b)
    ensures PredictAll(files, a) == PredictAll(files, b)
  {
    hide PredictOne, Footprint, Look, PredictAll;
    DisjointPermutes(a, b);
    PredictionIsPointwise(files, a);
    PredictionIsPointwise(files, b);
    FootprintsPermute(a, b);
    forall p ensures Look(PredictAll(files, a), p) == Look(PredictAll(files, b), p) {
      FootprintsUnion(a, p);
      if p in Footprints(a) {
        var i :| 0 <= i < |a| && p in Footprint(a[i]);
        assert a[i] in multiset(b);
        var j :| 0 <= j < |b| && b[j] == a[i];
      }
    }
    SameLooksSameFiles(PredictAll(files, a), PredictAll(files, b));
  }
}

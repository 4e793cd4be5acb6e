/** From a plan to its application: a packet planned on the mounted tree applies in full,
    when its result is the predicted one, and what a failed application is reported as. */
module ChangeOutcome {
  import opened Basics
  import StableSort
  import opened Change
  import opened ChangePlanning
  import opened ChangeExecution

  // ----- What planning on the mounted tree establishes -----

  predicate Writes(op: Operation) {
    op.kind == Create || op.kind == Replace
  }

  /** The snapshot meets the operation's preconditions, and its hash and size are those of its content. */
  predicate Fits(source: Files, op: Operation) {
    var file := At(source, op.path);
    && (op.kind == Rename <==> op.destination.Some?)
    && (if op.kind == Create then !file.present else file.present && op.expected == file.hash)
    && (op.kind == Rename ==> op.destination.value != op.path && !At(source, op.destination.value).present)
    && (Writes(op) ==> op.newHash.HashOf? && op.newSize == |op.newHash.content|)
  }

  /** The snapshot lists what the tree holds, and every path the operations touch. */
  ghost predicate Grounded(tree: Tree, source: Files, ops: seq<Operation>) {
    && source == Capture(tree, source.Keys)
    && Footprints(ops) <= source.Keys
    && Disjoint(ops)
    && forall i :: 0 <= i < |ops| ==> Fits(source, ops[i])
  }

  lemma AloneFits(source: Files, index: nat, input: Input)
    requires Alone(source, index, input).Ok?
    ensures Fits(source, Alone(source, index, input).value)
    ensures input.path.Normal? && Footprint(Alone(source, index, input).value) <=
            {input.path.path} + (if input.destination.Normal? then {input.destination.path} else {})
  {
  }

  lemma AskedPathIsListed(inputs: seq<Input>, i: nat)
    requires i < |inputs|
    ensures inputs[i].path in Asked(inputs)
    ensures inputs[i].destination.Normal? ==> inputs[i].destination in Asked(inputs)
  {
  }

  lemma FootprintIsListed(tree: Tree, budgets: Budgets, inputs: seq<Input>, i: nat)
    requires PlanOnTree(tree, budgets, inputs).Ok? && i < |inputs|
    requires Alone(PlanOnTree(tree, budgets, inputs).value.packet.source, i, inputs[i]).Ok?
    ensures var source := PlanOnTree(tree, budgets, inputs).value.packet.source;
            Footprint(Alone(source, i, inputs[i]).value) <= source.Keys
  {
    hide PlanOne, Footprint, Fits, PlanAll, Predicted, Observe;
    AskedPathIsListed(inputs, i);
    AloneFits(PlanOnTree(tree, budgets, inputs).value.packet.source, i, inputs[i]);
  }

  lemma PlannedPacketIsGrounded(tree: Tree, budgets: Budgets, inputs: seq<Input>)
    requires PlanOnTree(tree, budgets, inputs).Ok?
    ensures var packet := PlanOnTree(tree, budgets, inputs).value.packet;
            Grounded(tree, packet.source, packet.ops)
  {
    hide PlanOne, Footprint, Footprints, Fits, PlanAll, Predicted, Observe, Alone, Disjoint;
    var packet := PlanOnTree(tree, budgets, inputs).value.packet;
    PlanAcceptsExactly(packet.source, budgets, inputs, packet.ops);
    forall i | 0 <= i < |packet.ops|
      ensures Fits(packet.source, packet.ops[i]) && Footprint(packet.ops[i]) <= packet.source.Keys
    {
      assert Answers(packet.source, budgets, i, inputs[i], packet.ops[i]);
      AloneFits(packet.source, i, inputs[i]);
      FootprintIsListed(tree, budgets, inputs, i);
    }
    forall p | p in Footprints(packet.ops) ensures p in packet.source {
      FootprintsUnion(packet.ops, p);
    }
  }

  // ----- Content -----

  ghost predicate DistinctIds(ops: seq<Operation>) {
    forall i, j :: 0 <= i < j < |ops| ==> ops[i].id != ops[j].id
  }

  function Stored(contents: map<string, Content>): Contents {
    map id | id in contents :: HashOf(contents[id]) := contents[id]
  }

  /** The hash that the last write listed under an id asks for. */
  function LastWrite(ops: seq<Operation>, id: string): Option<Hash> {
    if ops == [] then None
    else
      var last := ops[|ops| - 1];
      if Writes(last) && last.id == id then Some(last.newHash) else LastWrite(ops[..|ops| - 1], id)
  }

  ghost predicate Mirrors(contents: map<string, Content>, ops: seq<Operation>) {
    forall id :: LastWrite(ops, id) == if id in contents then Some(HashOf(contents[id])) else None
  }

  lemma AloneHolds(source: Files, index: nat, input: Input)
    requires Alone(source, index, input).Ok?
    ensures var op := Alone(source, index, input).value;
            Writes(op) ==> op.newHash == HashOf(input.content)
  {
  }

  /** The planner's contents map keeps, for each id, what the last write under it brought. */
  lemma {:induction false} DraftMirrorsWrites(source: Files, budgets: Budgets, inputs: seq<Input>)
    requires PlanAll(source, budgets, inputs).Ok?
    ensures var d := PlanAll(source, budgets, inputs).value;
            Mirrors(d.contents, d.ops)
  {
    hide PlanOne, Footprint;
    var d := PlanAll(source, budgets, inputs).value;
    if inputs != [] {
      var n := |inputs| - 1;
      DraftMirrorsWrites(source, budgets, inputs[..n]);
      var before := PlanAll(source, budgets, inputs[..n]).value;
      SeenOnlyExcludes(source, before.seen, n, inputs[n]);
      AloneHolds(source, n, inputs[n]);
      assert d.ops[..|d.ops| - 1] == before.ops;
    }
  }

  lemma {:induction false} LastWriteIsAWrite(ops: seq<Operation>, id: string) returns (j: nat)
    requires LastWrite(ops, id).Some?
    ensures j < |ops| && Writes(ops[j]) && ops[j].id == id && LastWrite(ops, id) == Some(ops[j].newHash)
  {
    var n := |ops| - 1;
    if Writes(ops[n]) && ops[n].id == id {
      j := n;
    } else {
      j := LastWriteIsAWrite(ops[..n], id);
    }
  }

  /** Every hash that is to be written is the last one written under some id. */
  ghost predicate EveryWriteLasts(ops: seq<Operation>) {
    forall i :: 0 <= i < |ops| && Writes(ops[i]) ==>
      exists j :: 0 <= j < |ops| && LastWrite(ops, ops[j].id) == Some(ops[i].newHash)
  }

  lemma StoredResolves(contents: map<string, Content>, ops: seq<Operation>, hash: Hash)
    requires Mirrors(contents, ops)
    ensures hash in Stored(contents) <==> exists j :: 0 <= j < |ops| && LastWrite(ops, ops[j].id) == Some(hash)
  {
    if hash in Stored(contents) {
      var id :| id in contents && HashOf(contents[id]) == hash;
      var j := LastWriteIsAWrite(ops, id);
    }
  }

  /** Storing a plan's contents makes all of its operations runnable exactly when every hash
      that is to be written is the last one written under some id. */
  lemma PlannedContentsResolve(tree: Tree, budgets: Budgets, inputs: seq<Input>)
    requires PlanOnTree(tree, budgets, inputs).Ok?
    ensures var plan := PlanOnTree(tree, budgets, inputs).value;
            AllReady(plan.packet.ops, Stored(plan.contents)) <==> EveryWriteLasts(plan.packet.ops)
  {
    hide PlanOne, Footprint, LastWrite, PlanAll;
    var plan := PlanOnTree(tree, budgets, inputs).value;
    var ops, store := plan.packet.ops, Stored(plan.contents);
    PlannedPacketIsGrounded(tree, budgets, inputs);
    DraftMirrorsWrites(plan.packet.source, budgets, inputs);
    forall i | 0 <= i < |ops|
      ensures Ready(ops[i], store) <==>
              (Writes(ops[i]) ==> exists j :: 0 <= j < |ops| && LastWrite(ops, ops[j].id) == Some(ops[i].newHash))
    {
      assert Fits(plan.packet.source, ops[i]);
      StoredResolves(plan.contents, ops, ops[i].newHash);
    }
  }

  /** With distinct ids every write lasts. */
  lemma DistinctWritesLast(ops: seq<Operation>)
    requires DistinctIds(ops)
    ensures EveryWriteLasts(ops)
  {
    forall i | 0 <= i < |ops| && Writes(ops[i])
      ensures exists j :: 0 <= j < |ops| && LastWrite(ops, ops[j].id) == Some(ops[i].newHash)
    {
      WriteLastsUntilRepeated(ops, i);
    }
  }

  lemma {:induction false} WriteLastsUntilRepeated(ops: seq<Operation>, i: nat)
    requires DistinctIds(ops) && i < |ops| && Writes(ops[i])
    ensures LastWrite(ops, ops[i].id) == Some(ops[i].newHash)
  {
    var n := |ops| - 1;
    if i < n {
      assert forall j :: 0 <= j < n ==> ops[..n][j] == ops[j];
      WriteLastsUntilRepeated(ops[..n], i);
    }
  }

  // ----- Applying on the tree the plan was made from -----

  lemma GroundedCheckPasses(tree: Tree, source: Files, op: Operation)
    requires source == Capture(tree, source.Keys) && Footprint(op) <= source.Keys && Fits(source, op)
    ensures Check(tree, op).None?
  {
    assert op.path in source;
    assert source[op.path] == Observe(tree, op.path);
    if op.kind == Rename {
      assert op.destination.value in Footprint(op);
      assert source[op.destination.value] == Observe(tree, op.destination.value);
    }
  }

  lemma GroundedRunFinishes(tree: Tree, source: Files, ops: seq<Operation>, store: Contents)
    requires Grounded(tree, source, ops) && AllReady(ops, store)
    ensures RunOps(tree, ops, store, false).stop == Finished
    ensures RunOps(tree, ops, store, false).passed == |ops|
  {
    hide Check, Footprint, Fits, Ready, RunOps, Disjoint;
    DryRunFindsFirstConflict(tree, ops, store);
    DryRunForetellsTheRealRun(tree, ops, store);
    forall i | 0 <= i < |ops| ensures Check(tree, ops[i]).None? {
      forall p | p in Footprint(ops[i]) ensures p in source { FootprintsUnion(ops, p); }
      GroundedCheckPasses(tree, source, ops[i]);
    }
  }

  /** The operation asks for permission bits only. */
  predicate PlainMode(op: Operation) {
    Writes(op) || op.kind == Chmod ==> op.newMode < 512
  }

  predicate KeepsPath(op: Operation) {
    op.kind != Delete && op.kind != Rename
  }

  function Live(files: Files): Files {
    map p | p in files && files[p].present :: files[p]
  }

  function LiveLook(files: Files, p: Path): Option<Info> {
    if p in files && files[p].present then Some(files[p]) else None
  }

  function Alive(info: Info): Option<Info> {
    if info.present then Some(info) else None
  }

  /** What one operation leaves on a path of its footprint, observed and predicted. */
  lemma EffectMeetsPrediction(tree: Tree, source: Files, op: Operation, store: Contents, p: Path)
    requires source == Capture(tree, source.Keys) && Footprint(op) <= source.Keys && Fits(source, op)
    requires Ready(op, store) && p in Footprint(op)
    ensures ApplyOne(tree, op, store).Some?
    ensures var seen, said := Observe(ApplyOne(tree, op, store).value, p), Look(PredictOne(source, op), p);
            && (PlainMode(op) && KeepsPath(op) ==> said == Some(seen))
            && (p == op.path && !(PlainMode(op) && KeepsPath(op)) ==> said != Some(seen))
            && (PlainMode(op) ==> LiveLook(PredictOne(source, op), p) == Alive(seen))
            && (p == op.path && !PlainMode(op) ==> LiveLook(PredictOne(source, op), p) != Alive(seen))
  {
    GroundedCheckPasses(tree, source, op);
    PassedCheckMeansEffect(tree, op, store);
    assert op.path in source && source[op.path] == Observe(tree, op.path);
    assert At(source, op.path) == Observe(tree, op.path);
  }

  /** The list observedTreeHashFull hashes, for the tree of a full run. */
  function After(tree: Tree, source: Files, ops: seq<Operation>, store: Contents): Files {
    Observed(RunOps(tree, ops, store, false).tree, Packet(source, ops))
  }

  lemma PathOutsideMeetsPrediction(tree: Tree, source: Files, ops: seq<Operation>, store: Contents, p: Path)
    requires Grounded(tree, source, ops) && p !in Footprints(ops)
    ensures Look(After(tree, source, ops, store), p) == Look(PredictAll(source, ops), p)
  {
    hide Footprint, Fits, RunOps, Footprints, PredictAll;
    RunStaysInItsFootprints(tree, ops, store, false);
    PredictionIsPointwise(source, ops);
    assert Has(RunOps(tree, ops, store, false).tree, p) == Has(tree, p);
  }

  lemma PathInsideMeetsPrediction(
      tree: Tree, source: Files, ops: seq<Operation>, store: Contents, i: nat, p: Path)
    requires Grounded(tree, source, ops) && AllReady(ops, store) && i < |ops| && p in Footprint(ops[i])
    ensures var seen, said := After(tree, source, ops, store), PredictAll(source, ops);
            && (PlainMode(ops[i]) && KeepsPath(ops[i]) ==> Look(seen, p) == Look(said, p))
            && (p == ops[i].path && !(PlainMode(ops[i]) && KeepsPath(ops[i])) ==> Look(seen, p) != Look(said, p))
            && (PlainMode(ops[i]) ==> LiveLook(seen, p) == LiveLook(said, p))
            && (p == ops[i].path && !PlainMode(ops[i]) ==> LiveLook(seen, p) != LiveLook(said, p))
  {
    hide Footprint, Fits, RunOps, PredictAll, Check, ApplyOne, PredictOne, Ready, PlainMode, KeepsPath, Footprints;
    var op := ops[i];
    GroundedRunFinishes(tree, source, ops, store);
    FinishedRunIsPointwise(tree, ops, store);
    PredictionIsPointwise(source, ops);
    FootprintsUnion(ops, p);
    forall q | q in Footprint(op) ensures q in source { FootprintsUnion(ops, q); }
    EffectMeetsPrediction(tree, source, op, store, p);
    var end, own := RunOps(tree, ops, store, false).tree, ApplyOne(tree, op, store).value;
    assert Has(end, p) == Has(own, p);
    assert Observe(end, p) == Observe(own, p);
    assert Look(PredictAll(source, ops), p) == Look(PredictOne(source, op), p);
    assert LiveLook(PredictAll(source, ops), p) == LiveLook(PredictOne(source, op), p);
  }

  lemma SameLiveLooks(f: Files, g: Files)
    ensures Live(f) == Live(g) <==> forall p :: LiveLook(f, p) == LiveLook(g, p)
  {
    if forall p :: LiveLook(f, p) == LiveLook(g, p) {
      forall p ensures p in Live(f) <==> p in Live(g) { assert LiveLook(f, p) == LiveLook(g, p); }
      forall p | p in Live(f) ensures Live(f)[p] == Live(g)[p] { assert LiveLook(f, p) == LiveLook(g, p); }
    }
    if Live(f) == Live(g) {
      forall p ensures LiveLook(f, p) == LiveLook(g, p) {
        assert p in Live(f) <==> p in Live(g);
        if p in Live(f) { assert Live(f)[p] == Live(g)[p]; }
      }
    }
  }

  /** The live files after a full run are the predicted ones exactly when only permission
      bits are asked for. */
  lemma LiveFilesMeetPrediction(tree: Tree, source: Files, ops: seq<Operation>, store: Contents)
    requires Grounded(tree, source, ops) && AllReady(ops, store)
    ensures Live(After(tree, source, ops, store)) == Live(PredictAll(source, ops))
            <==> forall i :: 0 <= i < |ops| ==> PlainMode(ops[i])
  {
    hide Footprint, PredictAll, PlainMode, KeepsPath, After, Grounded, AllReady, Live;
    var seen, said := After(tree, source, ops, store), PredictAll(source, ops);
    SameLiveLooks(seen, said);
    if forall i :: 0 <= i < |ops| ==> PlainMode(ops[i]) {
      forall p ensures LiveLook(seen, p) == LiveLook(said, p) {
        FootprintsUnion(ops, p);
        if p in Footprints(ops) {
          var i :| 0 <= i < |ops| && p in Footprint(ops[i]);
          PathInsideMeetsPrediction(tree, source, ops, store, i, p);
        } else {
          PathOutsideMeetsPrediction(tree, source, ops, store, p);
          assert Look(seen, p) == Look(said, p);
        }
      }
    } else {
      var i :| 0 <= i < |ops| && !PlainMode(ops[i]);
      OwnPath(ops[i]);
      PathInsideMeetsPrediction(tree, source, ops, store, i, ops[i].path);
    }
  }

  lemma OwnPath(op: Operation)
    ensures op.path in Footprint(op)
  {
  }

  /** The full observed list is the predicted one exactly when, besides, no operation
      deletes or renames. */
  lemma FullListMeetsPrediction(tree: Tree, source: Files, ops: seq<Operation>, store: Contents)
    requires Grounded(tree, source, ops) && AllReady(ops, store)
    ensures After(tree, source, ops, store) == PredictAll(source, ops)
            <==> forall i :: 0 <= i < |ops| ==> PlainMode(ops[i]) && KeepsPath(ops[i])
  {
    hide Footprint, PredictAll, PlainMode, KeepsPath, After, Grounded, AllReady;
    var seen, said := After(tree, source, ops, store), PredictAll(source, ops);
    if forall i :: 0 <= i < |ops| ==> PlainMode(ops[i]) && KeepsPath(ops[i]) {
      forall p ensures Look(seen, p) == Look(said, p) {
        FootprintsUnion(ops, p);
        if p in Footprints(ops) {
          var i :| 0 <= i < |ops| && p in Footprint(ops[i]);
          PathInsideMeetsPrediction(tree, source, ops, store, i, p);
        } else {
          PathOutsideMeetsPrediction(tree, source, ops, store, p);
        }
      }
      SameLooksSameFiles(seen, said);
    } else {
      var i :| 0 <= i < |ops| && !(PlainMode(ops[i]) && KeepsPath(ops[i]));
      OwnPath(ops[i]);
      PathInsideMeetsPrediction(tree, source, ops, store, i, ops[i].path);
    }
  }

  lemma GroundedPermutes(tree: Tree, source: Files, a: seq<Operation>, b: seq<Operation>)
    requires Grounded(tree, source, a) && multiset(a) == multiset(b)
    ensures Grounded(tree, source, b)
  {
    hide Fits, Footprint;
    DisjointPermutes(a, b);
    FootprintsPermute(a, b);
    forall i | 0 <= i < |b| ensures Fits(source, b[i]) {
      assert b[i] in multiset(a);
      var j :| 0 <= j < |a| && a[j] == b[i];
    }
  }

  /** A packet planned on a tree and applied to it meets no conflict and runs in full. Its
      result is then reported as verified exactly when no operation deletes, renames or asks
      for more than permission bits; any other packet ends as needing recovery. */
  lemma PlannedPacketApplies(tree: Tree, budgets: Budgets, inputs: seq<Input>, store: Contents, limit: nat)
    requires PlanOnTree(tree, budgets, inputs).Ok?
    requires AllReady(PlanOnTree(tree, budgets, inputs).value.packet.ops, store)
    requires limit >= |inputs|
    ensures var packet := PlanOnTree(tree, budgets, inputs).value.packet;
            var report := Apply(tree, packet, store, false, limit);
            && report.applied == |inputs| && report.conflict.None?
            && (report.verdict == Verified <==>
                  forall i :: 0 <= i < |packet.ops| ==> PlainMode(packet.ops[i]) && KeepsPath(packet.ops[i]))
            && (report.verdict != Verified ==> report.verdict == NeedsRecovery)
            && (Live(Observed(report.tree, packet)) == Live(Predicted(packet.source, packet.ops)) <==>
                  forall i :: 0 <= i < |packet.ops| ==> PlainMode(packet.ops[i]))
            && AgreeOutside(report.tree, tree, Footprints(packet.ops))
  {
    hide Footprint, PredictAll, PlainMode, KeepsPath, Grounded, AllReady, RunOps, Sorted, PlanOne, Live, Footprints;
    var packet := PlanOnTree(tree, budgets, inputs).value.packet;
    PlannedPacketIsGrounded(tree, budgets, inputs);
    PlanAcceptsExactly(packet.source, budgets, inputs, packet.ops);
    SortedKeepsEverything(tree, packet, store);
    var run := Sorted(packet.ops);
    GroundedRunFinishes(tree, packet.source, run, store);
    LiveFilesMeetPrediction(tree, packet.source, run, store);
    FullListMeetsPrediction(tree, packet.source, run, store);
    RunStaysInItsFootprints(tree, run, store, false);
    SameForAll(packet.ops, run);
    SameForAll(run, packet.ops);
  }

  lemma SortedKeepsEverything(tree: Tree, packet: Packet, store: Contents)
    requires Grounded(tree, packet.source, packet.ops) && AllReady(packet.ops, store)
    ensures var run := Sorted(packet.ops);
            && Grounded(tree, packet.source, run) && AllReady(run, store)
            && multiset(run) == multiset(packet.ops) && |run| == |packet.ops|
            && Footprints(run) == Footprints(packet.ops)
  {
    hide Fits, Footprint, Ready, Sorted;
    SortedIsAnOrderedPermutation(packet.ops);
    var run := Sorted(packet.ops);
    GroundedPermutes(tree, packet.source, packet.ops, run);
    ReadyPermutes(packet.ops, run, store);
    FootprintsPermute(packet.ops, run);
    assert |run| == |multiset(run)| == |multiset(packet.ops)|;
  }

  lemma SameForAll(a: seq<Operation>, b: seq<Operation>)
    requires multiset(a) == multiset(b)
    ensures (forall i :: 0 <= i < |a| ==> PlainMode(a[i])) ==> forall i :: 0 <= i < |b| ==> PlainMode(b[i])
    ensures (forall i :: 0 <= i < |a| ==> PlainMode(a[i]) && KeepsPath(a[i])) ==>
              forall i :: 0 <= i < |b| ==> PlainMode(b[i]) && KeepsPath(b[i])
  {
    hide PlainMode, KeepsPath;
    forall i | 0 <= i < |b| ensures exists j :: 0 <= j < |a| && a[j] == b[i] {
      assert b[i] in multiset(a);
    }
  }

  // ----- Applying to any tree -----

  lemma SortedIsDisjointAndReady(packet: Packet, store: Contents)
    requires Disjoint(packet.ops) && AllReady(packet.ops, store)
    ensures Disjoint(Sorted(packet.ops)) && AllReady(Sorted(packet.ops), store)
  {
    SortedIsAnOrderedPermutation(packet.ops);
    DisjointPermutes(packet.ops, Sorted(packet.ops));
    ReadyPermutes(packet.ops, Sorted(packet.ops), store);
  }

  /** On any tree a dry run changes nothing and reports the conflict the real run meets,
      and the real run leaves exactly the effect of the operations it counts as applied. */
  lemma DryRunForetellsApplication(tree: Tree, packet: Packet, store: Contents, limit: nat)
    requires Disjoint(packet.ops) && AllReady(packet.ops, store)
    ensures var dry, actual := Apply(tree, packet, store, true, limit), Apply(tree, packet, store, false, limit);
            && dry.tree == tree && dry.applied == 0
            && dry.conflict == actual.conflict
            && actual.verdict != EffectError
            && actual.applied <= |Sorted(packet.ops)|
            && RunOps(tree, Sorted(packet.ops)[..actual.applied], store, false) == Trace(actual.tree, actual.applied, Finished)
  {
    hide Sorted, RunOps, Footprint, Ready, Disjoint, AllReady, Observed;
    SortedIsDisjointAndReady(packet, store);
    var ordered := Sorted(packet.ops);
    var run := if limit < |ordered| then ordered[..limit] else ordered;
    PrefixIsDisjointAndReady(ordered, |run|, store);
    assert run == ordered[..|run|];
    DryRunForetellsTheRealRun(tree, run, store);
    RunStaysInItsFootprints(tree, run, store, true);
    StoppedRunIsAPrefix(tree, run, store, false);
    var passed := RunOps(tree, run, store, false).passed;
    assert run[..passed] == ordered[..passed];
  }

  /** Applying again after a crash that followed `k` operations: the report is that of an
      uncrashed application when all of those are idempotent, and otherwise a conflict
      that leaves the tree as the crash left it. */
  lemma SecondApplicationFinishesOrTouchesNothing(tree: Tree, packet: Packet, store: Contents, k: nat)
    requires Disjoint(packet.ops) && AllReady(packet.ops, store) && k <= |Sorted(packet.ops)|
    requires RunOps(tree, Sorted(packet.ops)[..k], store, false).stop == Finished
    ensures var ordered := Sorted(packet.ops);
            var left := RunOps(tree, ordered[..k], store, false).tree;
            var again := Apply(left, packet, store, false, |ordered|);
            if forall i :: 0 <= i < k ==> Idempotent(ordered[i])
            then again == Apply(tree, packet, store, false, |ordered|)
            else again.verdict == SourceConflict && again.tree == left && Classify(again) == StatusConflicted
  {
    hide Sorted, RunOps, Footprint, Ready, Disjoint, AllReady, Idempotent;
    SortedIsDisjointAndReady(packet, store);
    RerunFinishesOrTouchesNothing(tree, Sorted(packet.ops), k, store);
  }

  /** A failed application that did change files is flagged for recovery exactly when the
      dry run of the same operations reports no conflict. */
  lemma PartialEffectIsFlaggedUnlessConflicted(tree: Tree, packet: Packet, store: Contents, limit: nat)
    requires Disjoint(packet.ops) && AllReady(packet.ops, store)
    ensures var actual := Apply(tree, packet, store, false, limit);
            actual.applied > 0 && actual.verdict != Verified ==>
              (Classify(actual) == StatusRecoveryRequired
               <==> Apply(tree, packet, store, true, limit).conflict.None?)
  {
    DryRunForetellsApplication(tree, packet, store, limit);
  }

  /** The comment on the service's Apply promises that flag for every multi-operation
      partial effect. Here one of two creations has happened and the status is conflicted. */
  lemma PartialEffectCanBeLabelledConflicted()
    returns (tree: Tree, packet: Packet, store: Contents)
    ensures Disjoint(packet.ops) && AllReady(packet.ops, store)
    ensures var report := Apply(tree, packet, store, false, 2);
            report.applied == 1 && report.tree != tree && Classify(report) == StatusConflicted
  {
    hide StableSort.Sort;
    var hash := HashOf("x");
    var first := Operation("a", 1, Create, 1, None, NoHash, hash, 1, 0);
    var second := Operation("b", 2, Create, 2, None, NoHash, hash, 1, 0);
    tree, packet, store := map[2 := File("y", 0)], Packet(map[], [first, second]), map[hash := "x"];
    var ops := packet.ops;
    assert ops[..1] == [first];
    StableSort.SortKeepsOrdered(Before, ops);
    assert RunOps(tree, [first], store, false) == Trace(tree[1 := File("x", 0)], 1, Finished);
    assert RunOps(tree, ops, store, false).stop.Conflicted?;
    assert 1 in tree[1 := File("x", 0)];
  }
}

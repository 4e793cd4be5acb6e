/** Whole executions of the projection: appends, lease takeovers, batches by any
    number of consumers, crashes before commit, and rebuild resets. */
module ProjectionSystem {
  import opened Basics
  import opened Projection
  import opened ProjectionRuntime

  datatype Step =
    | Append(event: Event)
    | AcquireLease(consumer: string, owner: string)
    | Lapse(consumer: string)                 // the lease expires or is released
    | RunBatch(token: Token, size: nat)
    | CrashBeforeCommit(token: Token)
    | Reset(token: Token)

  /** The database and the tokens under which it was written, in commit order. */
  datatype World = World(db: Database, commits: seq<Token>)

  function LastSequence(log: seq<Event>): nat {
    if log == [] then 0 else log[|log| - 1].sequence
  }

  function CommitAs(s: World, result: Option<Database>, token: Token): World {
    if result.None? then s else World(result.value, s.commits + [token])
  }

  predicate Enabled(s: World, step: Step) {
    match step
    case Append(event) => event.sequence > LastSequence(s.db.log)
    case Lapse(consumer) => consumer in s.db.leases
    case _ => true
  }

  function Do(s: World, step: Step): World
    requires Enabled(s, step)
  {
    match step
    case Append(event) => s.(db := s.db.(log := s.db.log + [event]))
    case AcquireLease(consumer, owner) =>
      (match Acquire(s.db, consumer, owner) case None => s case Some(db) => s.(db := db))
    case Lapse(consumer) =>
      s.(db := s.db.(leases := s.db.leases[consumer := s.db.leases[consumer].(live := false)]))
    case RunBatch(token, size) => CommitAs(s, Batch(s.db, token, size), token)
    case CrashBeforeCommit(token) => s
    case Reset(token) => CommitAs(s, ResetBy(s.db, token), token)
  }

  const EMPTY := World(Database([], map[], map[], map[]), [])

  ghost predicate Execution(states: seq<World>, steps: seq<Step>) {
    && |states| == |steps| + 1
    && states[0] == EMPTY
    && forall i :: 0 <= i < |steps| ==> Enabled(states[i], steps[i]) && states[i + 1] == Do(states[i], steps[i])
  }

  /** Steps that rewrite the table come from one consumer only. */
  predicate OwnedBy(step: Step, consumer: string) {
    (step.RunBatch? || step.Reset?) ==> step.token.consumer == consumer
  }

  // ----- Rows and cursors -----

  /** `high` is the largest cursor of any consumer. */
  ghost predicate Highest(cursors: map<string, nat>, high: nat) {
    && (forall c :: c in cursors ==> cursors[c] <= high)
    && (high == 0 || exists c :: c in cursors && cursors[c] == high)
  }

  ghost predicate Consistent(db: Database, high: nat) {
    && Increasing(db.log)
    && Highest(db.cursors, high)
    && high <= LastSequence(db.log)
    && RowsAreFoldUpTo(db, high)
  }

  lemma AppendKeepsConsistent(db: Database, e: Event, high: nat)
    requires Consistent(db, high) && e.sequence > LastSequence(db.log)
    ensures Consistent(db.(log := db.log + [e]), high)
  {
    var log := db.log + [e];
    assert log[|log| - 1] == e && log[..|log| - 1] == db.log;
    assert forall i :: 0 <= i < |db.log| ==> log[i] == db.log[i];
    assert Passed(log, high) == Passed(db.log, high);
    assert log[..Passed(log, high)] == db.log[..Passed(db.log, high)];
  }

  /** Delivering log[k..m] to rows that already fold log[..front], k <= front, gives
      the fold up to whichever of m and front is further. */
  lemma DeliveryExtendsFold(log: seq<Event>, rows: Rows, k: nat, m: nat, front: nat)
    requires k <= front <= |log| && k <= m <= |log|
    requires Fold(map[], log[..front]) == Ok(rows)
    ensures Fold(rows, log[k..m]) == Fold(map[], log[..Max(m, front)])
  {
    hide Fold;
    if m <= front {
      RedeliveredBatchIsHarmless(map[], log[..front], k, m);
      assert log[..front][k..m] == log[k..m];
    } else {
      RedeliveredBatchIsHarmless(map[], log[..front], k, front);
      assert log[..front][k..front] == log[k..front];
      FoldConcat(rows, log[k..front], log[front..m]);
      assert log[k..front] + log[front..m] == log[k..m];
      FoldOn(log, rows, front, m);
    }
  }

  /** One batch by any consumer, at the front or far behind it: what was already
      folded is passed over unchanged, what is new is folded on. */
  lemma BatchKeepsConsistent(db: Database, token: Token, size: nat, high: nat) returns (high': nat)
    requires Consistent(db, high) && Batch(db, token, size).Some?
    ensures Consistent(Batch(db, token, size).value, high')
    ensures high' >= high
  {
    hide Fold, Passed, Increasing;
    var log, cursor := db.log, Cursor(db, token.consumer);
    var k, front := Passed(log, cursor), Passed(log, high);
    var m := Min(k + size, |log|);
    PassedMonotone(log, cursor, high);
    DeliveryExtendsFold(log, db.rows, k, m, front);
    high' := high;
    if k < m {
      PassedBounds(log, cursor, m);
      PassedBounds(log, high, m);
      if m > front {
        high' := log[m - 1].sequence;
        PassedAt(log, m);
        LastIsLargest(log, m);
      }
    }
    CursorsStayBelow(db, token, size, high, high');
  }

  lemma CursorsStayBelow(db: Database, token: Token, size: nat, high: nat, high': nat)
    requires Highest(db.cursors, high) && Batch(db, token, size).Some? && high <= high'
    requires Cursor(Batch(db, token, size).value, token.consumer) <= high'
    requires high' != high ==> Cursor(Batch(db, token, size).value, token.consumer) == high'
    requires Cursor(db, token.consumer) <= Cursor(Batch(db, token, size).value, token.consumer)
    ensures Highest(Batch(db, token, size).value.cursors, high')
  {
    hide Fold, Passed;
    var next := Batch(db, token, size).value;
    if high' == high && high > 0 {
      var c :| c in db.cursors && db.cursors[c] == high;
      assert c in next.cursors && next.cursors[c] == high;
    } else if high' > 0 {
      assert token.consumer in next.cursors;
    }
  }

  lemma PassedBounds(log: seq<Event>, cursor: nat, m: nat)
    requires Increasing(log) && 0 < m <= |log|
    ensures m <= Passed(log, cursor) <==> log[m - 1].sequence <= cursor
  {
    PassedSplitsLog(log, cursor);
    assert m - 1 < Passed(log, cursor) <==> log[m - 1].sequence <= cursor;
  }

  lemma LastIsLargest(log: seq<Event>, m: nat)
    requires Increasing(log) && 0 < m <= |log|
    ensures log[m - 1].sequence <= LastSequence(log)
  {
  }

  /** With any number of consumers sharing the table and no reset, the rows always
      are the fold up to the furthest cursor. */
  lemma {:induction false} SharedTableFollowsFurthestCursor(states: seq<World>, steps: seq<Step>, n: nat) returns (high: nat)
    requires Execution(states, steps) && n < |states|
    requires forall i :: 0 <= i < n ==> !steps[i].Reset?
    ensures Consistent(states[n].db, high)
  {
    hide Consistent, Batch;
    if n == 0 {
      high := 0;
      EmptyIsConsistent();
    } else {
      var before := SharedTableFollowsFurthestCursor(states, steps, n - 1);
      high := StepKeepsConsistent(states[n - 1], steps[n - 1], before);
    }
  }

  lemma EmptyIsConsistent()
    ensures Consistent(EMPTY.db, 0)
  {
    assert EMPTY.db.log[..0] == [];
  }

  lemma StepKeepsConsistent(s: World, step: Step, high: nat) returns (high': nat)
    requires Enabled(s, step) && !step.Reset? && Consistent(s.db, high)
    ensures Consistent(Do(s, step).db, high')
  {
    hide Fold, Passed, Increasing;
    high' := high;
    match step {
      case Append(event) => AppendKeepsConsistent(s.db, event, high);
      case AcquireLease(_, _) =>
      case Lapse(_) =>
      case CrashBeforeCommit(_) =>
      case Reset(_) =>
      case RunBatch(token, size) =>
        if Batch(s.db, token, size).Some? { high' := BatchKeepsConsistent(s.db, token, size, high); }
    }
  }

  ghost predicate OnlyCursor(db: Database, consumer: string) {
    forall c :: c in db.cursors ==> c == consumer
  }

  /** With one consumer per table, resets included, rows are always the fold of
      exactly the events up to that consumer's checkpoint. */
  lemma {:induction false} RowsFollowTheCheckpoint(states: seq<World>, steps: seq<Step>, consumer: string, n: nat)
    requires Execution(states, steps) && n < |states|
    requires forall i :: 0 <= i < n ==> OwnedBy(steps[i], consumer)
    ensures OnlyCursor(states[n].db, consumer)
    ensures Consistent(states[n].db, Cursor(states[n].db, consumer))
  {
    hide Consistent, Batch, Cursor, Do;
    if n == 0 {
      EmptyIsConsistent();
      NoCursorYet(consumer);
    } else {
      RowsFollowTheCheckpoint(states, steps, consumer, n - 1);
      OwnedStepKeepsConsistent(states[n - 1], steps[n - 1], consumer);
    }
  }

  lemma NoCursorYet(consumer: string)
    ensures Cursor(EMPTY.db, consumer) == 0
  {
  }

  lemma OwnedStepKeepsConsistent(s: World, step: Step, consumer: string)
    requires Enabled(s, step) && OwnedBy(step, consumer)
    requires OnlyCursor(s.db, consumer) && Consistent(s.db, Cursor(s.db, consumer))
    ensures OnlyCursor(Do(s, step).db, consumer)
    ensures Consistent(Do(s, step).db, Cursor(Do(s, step).db, consumer))
  {
    hide Fold, Passed, Increasing;
    if step.Reset? {
      NothingPassedAtZero(s.db.log);
    } else {
      var high := StepKeepsConsistent(s, step, Cursor(s.db, consumer));
    }
  }

  /** Incremental processing, however it was split and interrupted, agrees with
      one fold of the whole log as soon as the checkpoint has passed it. */
  lemma CaughtUpMeansWholeFold(states: seq<World>, steps: seq<Step>, consumer: string, n: nat)
    requires Execution(states, steps) && n < |states|
    requires forall i :: 0 <= i < n ==> OwnedBy(steps[i], consumer)
    requires Passed(states[n].db.log, Cursor(states[n].db, consumer)) == |states[n].db.log|
    ensures Fold(map[], states[n].db.log) == Ok(states[n].db.rows)
  {
    RowsFollowTheCheckpoint(states, steps, consumer, n);
    assert states[n].db.log[..|states[n].db.log|] == states[n].db.log;
  }

  // ----- Fences -----

  function Fence(db: Database, consumer: string): nat {
    if consumer in db.leases then db.leases[consumer].fence else 0
  }

  /** A token below the current fence changes nothing at all. */
  lemma StaleTokensAreRefused(s: World, token: Token, size: nat)
    requires token.fence < Fence(s.db, token.consumer)
    ensures Do(s, RunBatch(token, size)) == s && Do(s, Reset(token)) == s
  {
  }

  lemma FencesNeverFall(s: World, step: Step, consumer: string)
    requires Enabled(s, step)
    ensures Fence(s.db, consumer) <= Fence(Do(s, step).db, consumer)
  {
  }

  /** Taking a lapsed lease over raises the fence; a live one keeps it. */
  lemma TakeoverRaisesFence(s: World, consumer: string, owner: string)
    requires consumer in s.db.leases
    ensures var s' := Do(s, AcquireLease(consumer, owner));
            && (s.db.leases[consumer].live ==> s' == s)
            && (!s.db.leases[consumer].live ==>
                Fence(s'.db, consumer) > Fence(s.db, consumer) && Holds(s'.db, Token(consumer, owner, Fence(s'.db, consumer))))
  {
  }

  ghost predicate FencesOrdered(s: World) {
    && (forall i :: 0 <= i < |s.commits| ==> 0 < s.commits[i].fence <= Fence(s.db, s.commits[i].consumer))
    && forall i, j :: 0 <= i < j < |s.commits| && s.commits[i].consumer == s.commits[j].consumer
        ==> s.commits[i].fence <= s.commits[j].fence
  }

  lemma StepKeepsFencesOrdered(s: World, step: Step)
    requires Enabled(s, step) && FencesOrdered(s)
    ensures FencesOrdered(Do(s, step))
  {
    hide Fold, Passed;
  }

  /** Over every execution each consumer's commits carry non-decreasing fences. */
  lemma {:induction false} CommitsCarryOrderedFences(states: seq<World>, steps: seq<Step>, n: nat)
    requires Execution(states, steps) && n < |states|
    ensures FencesOrdered(states[n])
  {
    hide Do;
    if n > 0 {
      CommitsCarryOrderedFences(states, steps, n - 1);
      StepKeepsFencesOrdered(states[n - 1], steps[n - 1]);
    }
  }

  /** An owner that has been superseded can never write again. */
  lemma {:induction false} SupersededOwnersNeverCommit(states: seq<World>, steps: seq<Step>, m: nat, n: nat, token: Token)
    requires Execution(states, steps) && m <= n < |steps|
    requires token.fence < Fence(states[m].db, token.consumer)
    requires (steps[n].RunBatch? || steps[n].Reset?) && steps[n].token == token
    ensures states[n + 1] == states[n]
  {
    FenceGrowsAlong(states, steps, m, n, token.consumer);
    StaleTokensAreRefused(states[n], token, if steps[n].RunBatch? then steps[n].size else 0);
  }

  lemma {:induction false} FenceGrowsAlong(states: seq<World>, steps: seq<Step>, m: nat, n: nat, consumer: string)
    requires Execution(states, steps) && m <= n < |states|
    ensures Fence(states[m].db, consumer) <= Fence(states[n].db, consumer)
  {
    hide Do;
    if m < n {
      FenceGrowsAlong(states, steps, m, n - 1, consumer);
      FencesNeverFall(states[n - 1], steps[n - 1], consumer);
    }
  }

  // ----- Reset with a second consumer -----

  lemma {:induction false} FoldIsEmptyWithoutTaskEvents(log: seq<Event>)
    requires Increasing(log) && Fold(map[], log).Ok?
    ensures Fold(map[], log).value == map[] <==> StatusEvents(log) == 0
  {
    if log != [] {
      var before, e := log[..|log| - 1], log[|log| - 1];
      FoldIsEmptyWithoutTaskEvents(before);
      assert before + [e] == log;
      if EventStatus(e.eventType).Some? && e.task.Some? {
        NextEventIsNotSeen(before, e);
        assert e.task.value.id in Fold(map[], log).value;
      }
    }
  }

  /** A reset deletes every row but rewinds one cursor. The table still is the fold
      up to the furthest remaining cursor exactly when that cursor has passed no
      task event. */
  lemma ResetIsSafeOnlyAlone(db: Database, token: Token, high: nat, left: nat)
    requires Consistent(db, high) && Holds(db, token)
    requires Highest(ResetBy(db, token).value.cursors, left) && left <= high
    ensures Consistent(ResetBy(db, token).value, left)
            <==> StatusEvents(db.log[..Passed(db.log, left)]) == 0
  {
    PassedMonotone(db.log, left, high);
    var k, front := Passed(db.log, left), Passed(db.log, high);
    var prefix := db.log[..k];
    FoldConcat(map[], prefix, db.log[k..front]);
    assert prefix + db.log[k..front] == db.log[..front];
    FoldIsEmptyWithoutTaskEvents(prefix);
  }

  // One task event, consumed by "a" and by "b", each under its own lease.

  const CREATED := Event(1, "e", TaskCreated, Some(Ref("t", true, true)), None, [Delta(StatusOf("t"), true, Text("pending"))])
  const BY_A := Token("a", "o", 1)
  const BY_B := Token("b", "o", 1)
  const CREATED_ROWS: Rows := map["t" := TaskState(PendingStatus, "", "", "e", 1, 1)]
  const LEASES: map<string, Lease> := map["a" := Lease("o", 1, true), "b" := Lease("o", 1, true)]

  function Shared(rows: Rows, cursors: map<string, nat>): Database {
    Database([CREATED], rows, cursors, LEASES)
  }

  lemma CreatedFolds()
    ensures Fold(map[], [CREATED]) == Ok(CREATED_ROWS)
    ensures Fold(CREATED_ROWS, [CREATED]) == Ok(CREATED_ROWS)
  {
    assert [CREATED][..0] == [] && CREATED.deltas[..0] == [];
    assert ReadDeltas(CREATED.deltas, "t", "pending") == Ok(Change(true, None, None));
  }

  lemma CreatedIsRead(db: Database, token: Token)
    requires db.log == [CREATED] && Holds(db, token) && Cursor(db, token.consumer) == 0
    requires Fold(db.rows, [CREATED]) == Ok(CREATED_ROWS)
    ensures Batch(db, token, 1) == Some(db.(rows := CREATED_ROWS, cursors := db.cursors[token.consumer := 1]))
  {
    assert [CREATED][..0] == [];
    assert Passed(db.log, 0) == 0;
    assert BatchEvents(db, token, 1) == [CREATED];
  }

  lemma ResetBreaksTheSharedTable(cursors: map<string, nat>)
    requires cursors == map["a" := 0, "b" := 1]
    ensures Highest(cursors, 1) && !Consistent(Shared(map[], cursors), 1)
  {
    assert cursors["b"] == 1;
    CreatedFolds();
    var db := Shared(map[], cursors);
    assert Passed(db.log, 1) == 1;
    assert db.log[..1] == [CREATED];
  }

  /** Two consumers have read one event into their shared table; then the first resets. In this
      execution the row is gone although the second consumer's cursor has passed the event. */
  lemma ResetBreaksASharedTable() returns (states: seq<World>, steps: seq<Step>)
    ensures Execution(states, steps) && |steps| == 6 && steps[5].Reset?
    ensures Consistent(states[5].db, 1)
    ensures Highest(states[6].db.cursors, 1) && !Consistent(states[6].db, 1)
  {
    hide Batch, Fold, Consistent, Highest;
    steps := [Append(CREATED), AcquireLease("a", "o"), AcquireLease("b", "o"), RunBatch(BY_A, 1), RunBatch(BY_B, 1), Reset(BY_A)];
    var s1 := World(Database([CREATED], map[], map[], map[]), []);
    var s2 := World(Database([CREATED], map[], map[], map["a" := Lease("o", 1, true)]), []);
    var s3 := World(Shared(map[], map[]), []);
    var s4 := World(Shared(CREATED_ROWS, map["a" := 1]), [BY_A]);
    var s5 := World(Shared(CREATED_ROWS, map["a" := 1, "b" := 1]), [BY_A, BY_B]);
    var s6 := World(Shared(map[], map["a" := 0, "b" := 1]), [BY_A, BY_B, BY_A]);
    CreatedFolds();
    CreatedIsRead(s3.db, BY_A);
    CreatedIsRead(s4.db, BY_B);
    states := [EMPTY, s1, s2, s3, s4, s5, s6];
    LeasesAreTaken(s1, s2, s3);
    assert Do(s3, RunBatch(BY_A, 1)) == s4;
    assert Do(s4, RunBatch(BY_B, 1)) == s5;
    assert Do(s5, Reset(BY_A)) == s6;
    SharedIsConsistent(s5.db);
    ResetBreaksTheSharedTable(s6.db.cursors);
  }

  lemma LeasesAreTaken(s1: World, s2: World, s3: World)
    requires s1 == World(Database([CREATED], map[], map[], map[]), [])
    requires s2 == World(Database([CREATED], map[], map[], map["a" := Lease("o", 1, true)]), [])
    requires s3 == World(Shared(map[], map[]), [])
    ensures Enabled(EMPTY, Append(CREATED)) && Do(EMPTY, Append(CREATED)) == s1
    ensures Do(s1, AcquireLease("a", "o")) == s2 && Do(s2, AcquireLease("b", "o")) == s3
  {
  }

  lemma SharedIsConsistent(db: Database)
    requires db == Shared(CREATED_ROWS, map["a" := 1, "b" := 1])
    ensures Consistent(db, 1)
  {
    CreatedFolds();
    assert db.cursors["a"] == 1;
    assert Passed(db.log, 1) == 1;
    assert db.log[..1] == [CREATED];
  }
}

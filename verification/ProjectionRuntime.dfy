/** The projection runner (internal/projection/runtime.go) over its store: one
    transactional batch under a consumer lease, and the rebuild loop. */
module ProjectionRuntime {
  import opened Basics
  import opened Projection

  const DEFAULT_BATCH := 100
  const MAX_BATCH := 1000

  function BoundedBatchSize(size: int): (n: nat)
    ensures 1 <= n <= MAX_BATCH
    ensures 1 <= size <= 1000 ==> n == size
    ensures size <= 0 ==> n == 100
    ensures size > 1000 ==> n == 1000
  {
    if size <= 0 then DEFAULT_BATCH else if size > MAX_BATCH then MAX_BATCH else size
  }

  /** A consumer's lease row: `live` is false once it expired or was released. */
  datatype Lease = Lease(owner: string, fence: nat, live: bool)

  datatype Database = Database(log: seq<Event>, rows: Rows, cursors: map<string, nat>, leases: map<string, Lease>)

  function Cursor(db: Database, consumer: string): nat {
    if consumer in db.cursors then db.cursors[consumer] else 0
  }

  /** How many events of the log a cursor has passed. */
  function Passed(log: seq<Event>, cursor: nat): (n: nat)
    ensures n <= |log|
  {
    if log == [] then 0
    else if log[|log| - 1].sequence <= cursor then |log|
    else Passed(log[..|log| - 1], cursor)
  }

  lemma {:induction false} PassedSplitsLog(log: seq<Event>, cursor: nat)
    requires Increasing(log)
    ensures forall i :: 0 <= i < |log| ==> (i < Passed(log, cursor) <==> log[i].sequence <= cursor)
  {
    if log != [] && log[|log| - 1].sequence > cursor { PassedSplitsLog(log[..|log| - 1], cursor); }
  }

  /** A cursor at the n-th event has passed exactly n events. */
  lemma PassedAt(log: seq<Event>, n: nat)
    requires Increasing(log) && 0 < n <= |log|
    ensures Passed(log, log[n - 1].sequence) == n
  {
    PassedSplitsLog(log, log[n - 1].sequence);
    assert n - 1 < Passed(log, log[n - 1].sequence);
    if n < |log| { assert !(n < Passed(log, log[n - 1].sequence)); }
  }

  lemma PassedMonotone(log: seq<Event>, a: nat, b: nat)
    requires Increasing(log) && a <= b
    ensures Passed(log, a) <= Passed(log, b)
  {
    PassedSplitsLog(log, a);
    PassedSplitsLog(log, b);
    var n := Passed(log, a);
    if n > 0 { assert n - 1 < Passed(log, a); }
  }

  /** The contract of an ordered read after a cursor. */
  function ReadAfter(log: seq<Event>, cursor: nat, limit: nat): seq<Event> {
    var k := Passed(log, cursor);
    log[k..Min(k + limit, |log|)]
  }

  /** A lease token as a worker holds it. */
  datatype Token = Token(consumer: string, owner: string, fence: nat)

  predicate Holds(db: Database, token: Token) {
    && token.fence > 0
    && token.consumer in db.leases
    && db.leases[token.consumer] == Lease(token.owner, token.fence, true)
  }

  datatype BatchResult = BatchResult(
    eventsRead: nat, applied: nat, duplicates: nat, before: nat, after: nat, fence: nat, hasMore: bool)

  function BatchEvents(db: Database, token: Token, size: nat): seq<Event> {
    ReadAfter(db.log, Cursor(db, token.consumer), size)
  }

  /** One batch, as a transaction: the database after it, or None if it rolled back. */
  function Batch(db: Database, token: Token, size: nat): Option<Database> {
    if !Holds(db, token) then None
    else
      var events := BatchEvents(db, token, size);
      match Fold(db.rows, events)
      case Err => None
      case Ok(rows) =>
        var after := if events == [] then Cursor(db, token.consumer) else events[|events| - 1].sequence;
        Some(db.(rows := rows, cursors := db.cursors[token.consumer := after]))
  }

  /** Resetting deletes all rows, and one consumer's cursor. */
  function ResetBy(db: Database, token: Token): Option<Database> {
    if !Holds(db, token) then None
    else Some(db.(rows := map[], cursors := db.cursors[token.consumer := 0]))
  }

  function Acquire(db: Database, consumer: string, owner: string): (r: Option<Database>)
    ensures r.Some? ==> consumer in r.value.leases && r.value.leases[consumer].owner == owner && r.value.leases[consumer].live
    ensures r.Some? ==> r.value == db.(leases := r.value.leases)
  {
    if consumer !in db.leases then Some(db.(leases := db.leases[consumer := Lease(owner, 1, true)]))
    else
      var current := db.leases[consumer];
      if current.live then if current.owner == owner then Some(db) else None
      else Some(db.(leases := db.leases[consumer := Lease(owner, current.fence + 1, true)]))
  }

  /** Taking the lease succeeds, with a fence a store hands out. */
  predicate Leased(db: Database, consumer: string, owner: string) {
    && Acquire(db, consumer, owner).Some?
    && Acquire(db, consumer, owner).value.leases[consumer].fence > 0
  }

  /** The rows are the fold of exactly the events up to a cursor. */
  ghost predicate RowsAreFoldUpTo(db: Database, cursor: nat) {
    Fold(map[], db.log[..Passed(db.log, cursor)]) == Ok(db.rows)
  }

  /** Folding on from a prefix: the step every batch takes. */
  lemma FoldOn(log: seq<Event>, rows: Rows, from: nat, to: nat)
    requires from <= to <= |log| && Fold(map[], log[..from]) == Ok(rows)
    ensures Fold(map[], log[..to]) == Fold(rows, log[from..to])
  {
    FoldConcat(map[], log[..from], log[from..to]);
    assert log[..from] + log[from..to] == log[..to];
  }

  /** A batch of the consumer whose cursor the rows are at keeps rows and cursor together. */
  lemma BatchKeepsFold(db: Database, token: Token, size: nat)
    requires Increasing(db.log) && RowsAreFoldUpTo(db, Cursor(db, token.consumer))
    requires Batch(db, token, size).Some?
    ensures var next := Batch(db, token, size).value;
            && next.log == db.log
            && RowsAreFoldUpTo(next, Cursor(next, token.consumer))
            && Passed(db.log, Cursor(next, token.consumer))
               == Min(Passed(db.log, Cursor(db, token.consumer)) + size, |db.log|)
  {
    hide Fold, Passed, Increasing;
    var k := Passed(db.log, Cursor(db, token.consumer));
    var m := Min(k + size, |db.log|);
    FoldOn(db.log, db.rows, k, m);
    if k < m { PassedAt(db.log, m); }
  }

  // ----- The runner -----

  class Runner {
    var db: Database
    const consumer: string
    const owner: string
    const batchSize: nat

    constructor (db: Database, consumer: string, owner: string, size: int)
      ensures this.db == db && this.consumer == consumer && this.owner == owner
      ensures this.batchSize == BoundedBatchSize(size)
    {
      this.db, this.consumer, this.owner, this.batchSize := db, consumer, owner, BoundedBatchSize(size);
    }

    /** The lease names this runner's consumer and this runner as its owner. */
    predicate Mine(token: Token) {
      token.consumer == consumer && token.owner == owner
    }

    /** Applies the events to a private copy of the rows; None on the first that fails. */
    method ApplyAll(rows: Rows, events: seq<Event>) returns (r: Option<Rows>, applied: nat, duplicates: nat)
      ensures r == (match Fold(rows, events) case Err => None case Ok(after) => Some(after))
      ensures r.Some? ==> applied + duplicates <= |events|
      ensures r.Some? ==> (applied, duplicates) == Outcomes(rows, events)
    {
      hide Apply;
      var table := new TaskTable();
      table.rows := rows;
      applied, duplicates := 0, 0;
      for i := 0 to |events|
        invariant fresh(table)
        invariant Fold(rows, events[..i]) == Ok(table.rows)
        invariant (applied, duplicates) == Outcomes(rows, events[..i])
        invariant applied + duplicates <= i
      {
        assert events[..i + 1][..i] == events[..i];
        if Apply(table.rows, events[i]).Ok? { AppliedOrDuplicate(table.rows, events[i]); }
        var outcome := table.ApplyEvent(events[i]);
        if outcome.Err? {
          FoldErrorsStick(rows, events, i + 1);
          return None, applied, duplicates;
        }
        if outcome.value.applied { applied := applied + 1; }
        if outcome.value.duplicate { duplicates := duplicates + 1; }
      }
      assert events[..|events|] == events;
      return Some(table.rows), applied, duplicates;
    }

    /** One leased batch: everything is written at commit, or nothing is.
        `crash` is the pre-commit hook failing. */
    method RunBatchWithLease(token: Token, crash: bool) returns (r: Option<BatchResult>)
      modifies this`db
      ensures !crash ==> r.Some? == (Mine(token) && Batch(old(db), token, batchSize).Some?)
      ensures r.Some? ==> !crash && Mine(token) && Some(db) == Batch(old(db), token, batchSize)
      ensures r.None? ==> db == old(db)
      ensures r.Some? ==> var events := BatchEvents(old(db), token, batchSize);
              && r.value.eventsRead == |events|
              && (r.value.applied, r.value.duplicates) == Outcomes(old(db).rows, events)
              && r.value.before == Cursor(old(db), consumer)
              && r.value.after == Cursor(db, consumer)
              && r.value.fence == token.fence
              && (r.value.hasMore <==> Passed(db.log, r.value.before) + batchSize < |db.log|)
    {
      if token.consumer != consumer || token.owner != owner { return None; }
      if !Holds(db, token) { return None; }
      var before := Cursor(db, consumer);
      var events := ReadAfter(db.log, before, batchSize + 1);
      var hasMore := false;
      if |events| > batchSize {
        hasMore := true;
        events := events[..batchSize];
      }
      assert events == BatchEvents(db, token, batchSize);
      var rows, applied, duplicates := ApplyAll(db.rows, events);
      if rows.None? { return None; }
      var after := before;
      if |events| > 0 {
        after := events[|events| - 1].sequence;
      }
      if crash { return None; }
      db := db.(rows := rows.value, cursors := db.cursors[consumer := after]);
      return Some(BatchResult(|events|, applied, duplicates, before, after, token.fence, hasMore));
    }

    /** One batch of a catch-up that has read `k` events so far. */
    method CatchUpOnce(token: Token, ghost k: nat) returns (r: Option<BatchResult>)
      requires Mine(token) && Increasing(db.log) && Holds(db, token)
      requires RowsAreFoldUpTo(db, Cursor(db, consumer)) && Passed(db.log, Cursor(db, consumer)) == k
      modifies this`db
      ensures db.log == old(db).log && Holds(db, token)
      ensures RowsAreFoldUpTo(db, Cursor(db, consumer))
      ensures r.None? ==> db == old(db) && Fold(map[], db.log).Err?
      ensures r.Some? ==> var m := Min(k + batchSize, |db.log|);
              && Passed(db.log, Cursor(db, consumer)) == m
              && r.value.eventsRead == m - k
              && r.value.after == Cursor(db, consumer)
              && (r.value.hasMore <==> k + batchSize < |db.log|)
              && Outcomes(map[], db.log[..m]) == (Outcomes(map[], db.log[..k]).0 + r.value.applied,
                                                 Outcomes(map[], db.log[..k]).1 + r.value.duplicates)
    {
      hide Fold, Passed, Outcomes, Increasing, Batch;
      ghost var before := db;
      ghost var m := Min(k + batchSize, |db.log|);
      r := RunBatchWithLease(token, false);
      HeldBatchFailsOnlyOnItsEvents(before, token, batchSize);
      FoldOn(before.log, before.rows, k, m);
      if r.None? {
        FoldErrorsStick(map[], before.log, m);
      } else {
        BatchKeepsFold(before, token, batchSize);
        AddOutcomes(before.log, before.rows, k, m);
      }
    }

    /** What a rebuild that reported success has left, and reported. */
    ghost predicate Rebuilt(log: seq<Event>, batches: nat, total: BatchResult)
      reads this`db
    {
      // one fold of the whole log, with the cursor at its end
      && Fold(map[], log) == Ok(db.rows)
      && Passed(log, Cursor(db, consumer)) == |log| && total.after == Cursor(db, consumer)
      // every event read once, in batches of the configured size
      && total.eventsRead == |log|
      && (total.applied, total.duplicates) == Outcomes(map[], log)
      && 0 < batches && (batches - 1) * batchSize <= |log| <= batches * batchSize
    }

    /** Takes the lease, resets, then catches up batch by batch. `held(i)` says whether the
        lease survived until the i-th batch. */
    method Rebuild(held: nat -> bool) returns (ok: bool, batches: nat, total: BatchResult)
      requires Increasing(db.log) && batchSize > 0
      modifies this`db
      ensures db.log == old(db).log
      // interrupted or not, rows and cursor stay together
      ensures Leased(old(db), consumer, owner) ==> RowsAreFoldUpTo(db, Cursor(db, consumer))
      ensures !Leased(old(db), consumer, owner) ==> !ok && db.rows == old(db).rows && db.cursors == old(db).cursors
      ensures ok ==> Rebuilt(db.log, batches, total)
      // and it fails only for a lost lease or an event that cannot be applied
      ensures Leased(old(db), consumer, owner) && (forall i :: held(i)) && Fold(map[], old(db).log).Ok? ==> ok
    {
      hide Fold, Passed, Outcomes, Increasing, RowsAreFoldUpTo, Rebuilt;
      var acquired := Acquire(db, consumer, owner);
      batches, total := 0, BatchResult(0, 0, 0, 0, 0, 0, true);
      if acquired.None? { return false, batches, total; }
      db := acquired.value;
      var token := Token(consumer, owner, db.leases[consumer].fence);
      if !Holds(db, token) { return false, batches, total; }
      ok, batches, total := ResetAndCatchUp(token, held);
    }

    method ResetAndCatchUp(token: Token, held: nat -> bool) returns (ok: bool, batches: nat, total: BatchResult)
      requires Increasing(db.log) && batchSize > 0 && Mine(token) && Holds(db, token)
      modifies this`db
      ensures db.log == old(db).log
      ensures RowsAreFoldUpTo(db, Cursor(db, consumer))
      ensures ok ==> Rebuilt(db.log, batches, total)
      ensures (forall i :: held(i)) && Fold(map[], db.log).Ok? ==> ok
    {
      hide Fold, Passed, Outcomes, Increasing, Batch;
      batches := 0;
      total := BatchResult(0, 0, 0, 0, 0, token.fence, true);
      db := db.(rows := map[], cursors := db.cursors[consumer := 0]);
      ghost var log := db.log;
      NothingPassedAtZero(log);
      while true
        invariant db.log == log && Holds(db, token)
        invariant RowsAreFoldUpTo(db, Cursor(db, consumer))
        invariant Passed(log, Cursor(db, consumer)) == total.eventsRead <= |log|
        invariant (total.applied, total.duplicates) == Outcomes(map[], log[..total.eventsRead])
        invariant total.eventsRead == batches * batchSize
        invariant batches > 0 ==> total.eventsRead < |log|
        decreases |log| - total.eventsRead, batches == 0
      {
        if !held(batches) { return false, batches, total; }
        var batch := CatchUpOnce(token, total.eventsRead);
        if batch.None? { return false, batches, total; }
        total := BatchResult(
          total.eventsRead + batch.value.eventsRead, total.applied + batch.value.applied,
          total.duplicates + batch.value.duplicates, 0, batch.value.after, token.fence, batch.value.hasMore);
        batches := batches + 1;
        if !batch.value.hasMore {
          assert log[..|log|] == log;
          return true, batches, total;
        }
      }
    }
  }

  lemma AddOutcomes(log: seq<Event>, rows: Rows, k: nat, m: nat)
    requires k <= m <= |log| && Fold(map[], log[..k]) == Ok(rows)
    ensures Outcomes(map[], log[..m]) ==
            (Outcomes(map[], log[..k]).0 + Outcomes(rows, log[k..m]).0,
             Outcomes(map[], log[..k]).1 + Outcomes(rows, log[k..m]).1)
  {
    hide Apply, Fold, Outcomes;
    assert log[..m] == log[..k] + log[k..m];
    OutcomesConcat(map[], log[..k], log[k..m]);
  }

  lemma NothingPassedAtZero(log: seq<Event>)
    requires Increasing(log)
    ensures Passed(log, 0) == 0
    ensures Fold(map[], log[..0]) == Ok(map[]) && Outcomes(map[], log[..0]) == (0, 0)
  {
    PassedSplitsLog(log, 0);
    if log != [] { assert log[0].sequence > 0; }
  }

  /** Under its lease, a batch rolls back only for an event that cannot be applied. */
  lemma HeldBatchFailsOnlyOnItsEvents(db: Database, token: Token, size: nat)
    requires Holds(db, token)
    ensures Batch(db, token, size).None? <==> Fold(db.rows, BatchEvents(db, token, size)).Err?
    ensures Batch(db, token, size).Some? ==> Holds(Batch(db, token, size).value, token)
  {
  }

  lemma {:induction false} FoldErrorsStick(rows: Rows, events: seq<Event>, i: nat)
    requires i <= |events| && Fold(rows, events[..i]).Err?
    ensures Fold(rows, events).Err?
    decreases |events| - i
  {
    if i == |events| {
      assert events[..i] == events;
    } else {
      assert events[..i + 1][..i] == events[..i];
      FoldErrorsStick(rows, events, i + 1);
    }
  }

  lemma AppliedOrDuplicate(rows: Rows, e: Event)
    requires Apply(rows, e).Ok?
    ensures !(Apply(rows, e).value.1.applied && Apply(rows, e).value.1.duplicate)
  {
  }

  /** How many events of a delivery were applied, and how many were duplicates. */
  function Outcomes(rows: Rows, events: seq<Event>): (nat, nat) {
    if events == [] then (0, 0)
    else
      var before := events[..|events| - 1];
      var counts := Outcomes(rows, before);
      match Fold(rows, before)
      case Err => counts
      case Ok(mid) => match Apply(mid, events[|events| - 1])
        case Err => counts
        case Ok(result) =>
          (counts.0 + if result.1.applied then 1 else 0, counts.1 + if result.1.duplicate then 1 else 0)
  }

  lemma {:induction false} OutcomesConcat(rows: Rows, a: seq<Event>, b: seq<Event>)
    requires Fold(rows, a).Ok?
    ensures Outcomes(rows, a + b) ==
            (Outcomes(rows, a).0 + Outcomes(Fold(rows, a).value, b).0, Outcomes(rows, a).1 + Outcomes(Fold(rows, a).value, b).1)
  {
    hide Apply;
    if b == [] {
      assert a + b == a;
    } else {
      OutcomesConcat(rows, a, b[..|b| - 1]);
      FoldConcat(rows, a, b[..|b| - 1]);
      assert (a + b)[..|a + b| - 1] == a + b[..|b| - 1];
    }
  }

  lemma OneMoreOutcome(before: seq<Event>, e: Event)
    requires Fold(map[], before + [e]).Ok?
    ensures Fold(map[], before).Ok? && Apply(Fold(map[], before).value, e).Ok?
    ensures var counts, last := Outcomes(map[], before), Apply(Fold(map[], before).value, e).value.1;
            Outcomes(map[], before + [e]) ==
            (counts.0 + if last.applied then 1 else 0, counts.1 + if last.duplicate then 1 else 0)
  {
    hide Apply;
    assert (before + [e])[..|before|] == before;
  }

  /** How many events carry a task status. */
  function StatusEvents(events: seq<Event>): nat {
    if events == [] then 0
    else StatusEvents(events[..|events| - 1]) + if EventStatus(events[|events| - 1].eventType).Some? then 1 else 0
  }

  /** Over a log read from its beginning nothing is a duplicate, and exactly the
      task events are applied. */
  lemma {:induction false} WholeLogHasNoDuplicates(log: seq<Event>)
    requires Increasing(log) && Fold(map[], log).Ok?
    ensures Outcomes(map[], log) == (StatusEvents(log), 0)
  {
    if log != [] {
      hide Apply, EventStatus, Outcomes, Fold;
      var before, e := log[..|log| - 1], log[|log| - 1];
      assert before + [e] == log;
      OneMoreOutcome(before, e);
      PrefixIsIncreasing(before, e);
      WholeLogHasNoDuplicates(before);
      NextEventCountsOnce(before, e, "");
    }
  }
}

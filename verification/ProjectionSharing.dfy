/** A rebuild on a table that another consumer also writes: exactly when a batch of the
    other one, slipped in before the rebuild has caught up, leaves the table whole. */
module ProjectionSharing {
  import opened Basics
  import opened Projection
  import opened ProjectionRuntime

  // ----- One task at a time -----

  function RowOf(rows: Rows, task: string): Option<TaskState> {
    if task in rows then Some(rows[task]) else None
  }

  function Alone(row: Option<TaskState>, task: string): Rows {
    if row.Some? then map[task := row.value] else map[]
  }

  /** What an event makes of one task's row. */
  function RowStep(row: Option<TaskState>, e: Event, task: string): Option<TaskState> {
    if !Concerns(e, task) then row
    else match Apply(Alone(row, task), e)
      case Err => row
      case Ok(next) => RowOf(next.0, task)
  }

  function RowFold(row: Option<TaskState>, events: seq<Event>, task: string): Option<TaskState> {
    if events == [] then row
    else RowStep(RowFold(row, events[..|events| - 1], task), events[|events| - 1], task)
  }

  /** The event can be applied where it has not been yet, and so everywhere. */
  predicate Appliable(e: Event) {
    Apply(map[], e).Ok?
  }

  ghost predicate AllAppliable(events: seq<Event>) {
    forall i :: 0 <= i < |events| ==> Appliable(events[i])
  }

  lemma AppliesEverywhere(rows: Rows, e: Event, task: string)
    requires Appliable(e)
    ensures Apply(rows, e).Ok?
    ensures RowOf(Apply(rows, e).value.0, task) == RowStep(RowOf(rows, task), e, task)
  {
    hide ReadDeltas, StatusText;
  }

  lemma {:induction false} FoldIsPerTask(rows: Rows, events: seq<Event>, task: string)
    requires AllAppliable(events)
    ensures Fold(rows, events).Ok?
    ensures RowOf(Fold(rows, events).value, task) == RowFold(RowOf(rows, task), events, task)
  {
    hide Apply, RowStep, RowOf, Appliable;
    if events != [] {
      var before, e := events[..|events| - 1], events[|events| - 1];
      assert forall i :: 0 <= i < |before| ==> before[i] == events[i];
      FoldIsPerTask(rows, before, task);
      AppliesEverywhere(Fold(rows, before).value, e, task);
    }
  }

  lemma FreshEventIsAppliable(before: seq<Event>, e: Event)
    requires Increasing(before + [e]) && Fold(map[], before + [e]).Ok?
    ensures Fold(map[], before).Ok? && Appliable(e)
  {
    hide ReadDeltas, StatusText, Increasing;
    assert (before + [e])[..|before|] == before;
    if EventStatus(e.eventType).Some? && e.task.Some? { NextEventIsNotSeen(before, e); }
  }

  lemma {:induction false} FoldedLogIsAppliable(log: seq<Event>)
    requires Increasing(log) && Fold(map[], log).Ok?
    ensures AllAppliable(log)
  {
    hide Apply, Appliable;
    if log != [] {
      var before, e := log[..|log| - 1], log[|log| - 1];
      assert before + [e] == log;
      FreshEventIsAppliable(before, e);
      FoldedLogIsAppliable(before);
      assert forall i :: 0 <= i < |before| ==> before[i] == log[i];
    }
  }

  lemma {:induction false} RowFoldConcat(row: Option<TaskState>, a: seq<Event>, b: seq<Event>, task: string)
    ensures RowFold(row, a + b, task) == RowFold(RowFold(row, a, task), b, task)
  {
    hide RowStep;
    if b == [] {
      assert a + b == a;
    } else {
      assert (a + b)[..|a + b| - 1] == a + b[..|b| - 1];
      RowFoldConcat(row, a, b[..|b| - 1], task);
    }
  }

  lemma {:induction false} NothingConcerned(row: Option<TaskState>, events: seq<Event>, task: string)
    requires TaskEvents(events, task) == 0
    ensures RowFold(row, events, task) == row
  {
    if events != [] { NothingConcerned(row, events[..|events| - 1], task); }
  }

  /** Events at or before a row's position leave it alone. */
  lemma {:induction false} SeenEventsChangeNothing(row: TaskState, events: seq<Event>, task: string)
    requires forall i :: 0 <= i < |events| ==> events[i].sequence <= row.lastSequence
    ensures RowFold(Some(row), events, task) == Some(row)
  {
    if events != [] {
      hide ReadDeltas, StatusText;
      SeenEventsChangeNothing(row, events[..|events| - 1], task);
    }
  }

  function Count(row: Option<TaskState>): nat {
    if row.Some? then row.value.applied else 0
  }

  /** Every event lies past the row's position. */
  ghost predicate Ahead(row: Option<TaskState>, events: seq<Event>) {
    row.Some? ==> forall i :: 0 <= i < |events| ==> row.value.lastSequence < events[i].sequence
  }

  lemma NewEventCounts(row: Option<TaskState>, e: Event, task: string)
    requires Appliable(e) && (row.Some? ==> row.value.lastSequence < e.sequence)
    ensures Count(RowStep(row, e, task)) == Count(row) + if Concerns(e, task) then 1 else 0
    ensures Concerns(e, task) ==> RowStep(row, e, task).Some? && RowStep(row, e, task).value.lastSequence == e.sequence
  {
    hide ReadDeltas, StatusText;
  }

  /** Events ahead of a row are all counted, and the row moves to the last of them. */
  lemma {:induction false} NewEventsCount(row: Option<TaskState>, events: seq<Event>, task: string)
    requires AllAppliable(events) && Increasing(events) && Ahead(row, events)
    ensures var after := RowFold(row, events, task);
            && Count(after) == Count(row) + TaskEvents(events, task)
            && (TaskEvents(events, task) == 0 ==> after == row)
            && (TaskEvents(events, task) > 0 ==>
                  after.Some? && events[0].sequence <= after.value.lastSequence <= events[|events| - 1].sequence)
  {
    if events != [] {
      hide Apply, RowStep, Appliable, Concerns;
      var before, e := events[..|events| - 1], events[|events| - 1];
      assert forall i :: 0 <= i < |before| ==> before[i] == events[i];
      NewEventsCount(row, before, task);
      NewEventCounts(RowFold(row, before, task), e, task);
      UnconcernedStep(RowFold(row, before, task), e, task);
    }
  }

  lemma UnconcernedStep(row: Option<TaskState>, e: Event, task: string)
    ensures !Concerns(e, task) ==> RowStep(row, e, task) == row
  {
  }

  // ----- The slipped-in batch -----

  ghost predicate Cut(log: seq<Event>, a: nat, k: nat, m: nat) {
    a <= k <= m <= |log| && Increasing(log) && AllAppliable(log)
  }

  lemma StretchIsLegal(log: seq<Event>, i: nat, j: nat)
    requires i <= j <= |log| && Increasing(log) && AllAppliable(log)
    ensures Increasing(log[i..j]) && AllAppliable(log[i..j])
  {
    hide Appliable;
    assert forall x :: 0 <= x < j - i ==> log[i..j][x] == log[i + x];
  }

  /** A row folded from a prefix lies before everything that follows. */
  lemma PrefixRowIsBehind(log: seq<Event>, i: nat, j: nat, k: nat, task: string)
    requires i <= j <= k <= |log| && Increasing(log) && AllAppliable(log)
    ensures Ahead(RowFold(None, log[..i], task), log[j..k])
  {
    hide RowFold;
    StretchIsLegal(log, 0, i);
    assert log[0..i] == log[..i];
    NewEventsCount(None, log[..i], task);
    NoEventsNoRow(log[..i], task);
  }

  lemma NoEventsNoRow(events: seq<Event>, task: string)
    ensures TaskEvents(events, task) == 0 ==> RowFold(None, events, task) == None
  {
    if TaskEvents(events, task) == 0 { NothingConcerned(None, events, task); }
  }

  /** The row a task ends with when log[k..m] is delivered after log[..a] and the rest follows. */
  function Mixed(log: seq<Event>, a: nat, k: nat, m: nat, task: string): Option<TaskState>
    requires a <= k <= m <= |log|
  {
    RowFold(RowFold(RowFold(None, log[..a], task), log[k..m], task), log[a..], task)
  }

  lemma RestIsThreeStretches(row: Option<TaskState>, log: seq<Event>, a: nat, k: nat, m: nat, task: string)
    requires a <= k <= m <= |log|
    ensures RowFold(row, log[a..], task) ==
            RowFold(RowFold(RowFold(row, log[a..k], task), log[k..m], task), log[m..], task)
  {
    assert log[a..] == log[a..k] + log[k..m] + log[m..];
    RowFoldConcat(row, log[a..k] + log[k..m], log[m..], task);
    RowFoldConcat(row, log[a..k], log[k..m], task);
  }

  lemma WholeIsPrefixAndRest(log: seq<Event>, a: nat, task: string)
    requires a <= |log|
    ensures RowFold(None, log, task) == RowFold(RowFold(None, log[..a], task), log[a..], task)
  {
    assert log == log[..a] + log[a..];
    RowFoldConcat(None, log[..a], log[a..], task);
  }

  /** With nothing of the task in log[a..k], or nothing in log[k..m], its row comes out whole. */
  lemma UntouchedTaskIsWhole(log: seq<Event>, a: nat, k: nat, m: nat, task: string)
    requires Cut(log, a, k, m)
    requires TaskEvents(log[a..k], task) == 0 || TaskEvents(log[k..m], task) == 0
    ensures Mixed(log, a, k, m, task) == RowFold(None, log, task)
  {
    hide RowFold, Appliable;
    var x := RowFold(None, log[..a], task);
    WholeIsPrefixAndRest(log, a, task);
    if TaskEvents(log[k..m], task) == 0 {
      NothingConcerned(x, log[k..m], task);
    } else {
      var y := RowFold(x, log[k..m], task);
      RestIsThreeStretches(x, log, a, k, m, task);
      RestIsThreeStretches(y, log, a, k, m, task);
      NothingConcerned(x, log[a..k], task);
      NothingConcerned(y, log[a..k], task);
      DeliveredTwice(log, a, k, m, task);
    }
  }

  lemma DeliveredTwice(log: seq<Event>, a: nat, k: nat, m: nat, task: string)
    requires Cut(log, a, k, m)
    ensures var y := RowFold(RowFold(None, log[..a], task), log[k..m], task);
            RowFold(y, log[k..m], task) == y
  {
    hide Appliable;
    var x := RowFold(None, log[..a], task);
    StretchIsLegal(log, k, m);
    PrefixRowIsBehind(log, a, k, m, task);
    FoldTwice(x, log[k..m], task);
  }

  lemma {:induction false} FoldTwice(row: Option<TaskState>, events: seq<Event>, task: string)
    requires AllAppliable(events) && Increasing(events) && Ahead(row, events)
    ensures RowFold(RowFold(row, events, task), events, task) == RowFold(row, events, task)
  {
    hide RowFold, Appliable;
    if TaskEvents(events, task) == 0 {
      NothingConcerned(row, events, task);
    } else {
      var n := LastConcerned(events, task);
      var upTo, rest := events[..n + 1], events[n + 1..];
      assert events == upTo + rest;
      RowFoldConcat(row, upTo, rest, task);
      NothingConcerned(RowFold(row, upTo, task), rest, task);
      var after := RowFold(row, events, task);
      LastConcernedIsThePosition(row, events, n, task);
      SeenEventsChangeNothing(after.value, upTo, task);
      RowFoldConcat(after, upTo, rest, task);
      NothingConcerned(after, rest, task);
    }
  }

  lemma {:induction false} LastConcerned(events: seq<Event>, task: string) returns (n: nat)
    requires TaskEvents(events, task) > 0
    ensures n < |events| && Concerns(events[n], task) && TaskEvents(events[n + 1..], task) == 0
  {
    var last := |events| - 1;
    if Concerns(events[last], task) {
      n := last;
    } else {
      n := LastConcerned(events[..last], task);
      assert events[n + 1..][..|events[n + 1..]| - 1] == events[..last][n + 1..];
    }
  }

  lemma LastConcernedIsThePosition(row: Option<TaskState>, events: seq<Event>, n: nat, task: string)
    requires AllAppliable(events) && Increasing(events) && Ahead(row, events)
    requires n < |events| && Concerns(events[n], task) && TaskEvents(events[n + 1..], task) == 0
    ensures var after := RowFold(row, events, task);
            && after.Some?
            && forall i :: 0 <= i <= n ==> events[i].sequence <= after.value.lastSequence
  {
    hide Appliable, Concerns, RowStep;
    var before := events[..n];
    assert events == events[..n + 1] + events[n + 1..];
    RowFoldConcat(row, events[..n + 1], events[n + 1..], task);
    NothingConcerned(RowFold(row, events[..n + 1], task), events[n + 1..], task);
    assert events[..n + 1][..n] == before && events[..n + 1][n] == events[n];
    StretchIsLegal(events, 0, n);
    assert events[0..n] == before;
    NewEventsCount(row, before, task);
    NewEventCounts(RowFold(row, before, task), events[n], task);
  }

  /** With events of the task in both stretches, those in log[a..k] are taken for duplicates
      and are missing from its row for good. */
  lemma TouchedTaskIsShort(log: seq<Event>, a: nat, k: nat, m: nat, task: string)
    requires Cut(log, a, k, m)
    requires TaskEvents(log[a..k], task) > 0 && TaskEvents(log[k..m], task) > 0
    ensures Count(Mixed(log, a, k, m, task)) < Count(RowFold(None, log, task))
  {
    hide RowFold, Appliable, Mixed, Increasing, AllAppliable, Ahead;
    CountOfTheWhole(log, a, k, m, task);
    CountOfTheMix(log, a, k, m, task);
  }

  lemma CountOfTheWhole(log: seq<Event>, a: nat, k: nat, m: nat, task: string)
    requires Cut(log, a, k, m)
    ensures Count(RowFold(None, log, task)) ==
            Count(RowFold(None, log[..a], task))
            + TaskEvents(log[a..k], task) + TaskEvents(log[k..m], task) + TaskEvents(log[m..], task)
  {
    hide RowFold, AllAppliable, TaskEvents, Ahead, Increasing;
    WholeIsPrefixAndRest(log, a, task);
    StretchIsLegal(log, a, |log|);
    assert log[a..|log|] == log[a..];
    PrefixRowIsBehind(log, a, a, |log|, task);
    NewEventsCount(RowFold(None, log[..a], task), log[a..], task);
    EventsOfThreeStretches(log, a, k, m, task);
  }

  lemma EventsOfThreeStretches(log: seq<Event>, a: nat, k: nat, m: nat, task: string)
    requires a <= k <= m <= |log|
    ensures TaskEvents(log[a..], task) ==
            TaskEvents(log[a..k], task) + TaskEvents(log[k..m], task) + TaskEvents(log[m..], task)
  {
    hide TaskEvents;
    TaskEventsAdd(log[a..k], log[k..m], task);
    TaskEventsAdd(log[a..k] + log[k..m], log[m..], task);
    assert log[a..] == log[a..k] + log[k..m] + log[m..];
  }

  lemma {:induction false} TaskEventsAdd(a: seq<Event>, b: seq<Event>, task: string)
    ensures TaskEvents(a + b, task) == TaskEvents(a, task) + TaskEvents(b, task)
  {
    hide Concerns;
    if b == [] {
      assert a + b == a;
    } else {
      assert (a + b)[..|a + b| - 1] == a + b[..|b| - 1];
      TaskEventsAdd(a, b[..|b| - 1], task);
    }
  }

  lemma CountOfTheMix(log: seq<Event>, a: nat, k: nat, m: nat, task: string)
    requires Cut(log, a, k, m)
    requires TaskEvents(log[a..k], task) > 0 && TaskEvents(log[k..m], task) > 0
    ensures Count(Mixed(log, a, k, m, task)) ==
            Count(RowFold(None, log[..a], task)) + TaskEvents(log[k..m], task) + TaskEvents(log[m..], task)
  {
    hide RowFold, Appliable;
    var x := RowFold(None, log[..a], task);
    var y := RowFold(x, log[k..m], task);
    StretchIsLegal(log, k, m);
    StretchIsLegal(log, m, |log|);
    assert log[m..|log|] == log[m..];
    PrefixRowIsBehind(log, a, k, m, task);
    NewEventsCount(x, log[k..m], task);
    RestIsThreeStretches(y, log, a, k, m, task);
    assert forall i :: 0 <= i < k - a ==> log[a..k][i] == log[a + i];
    assert log[k..m][0] == log[k] && log[k..m][m - k - 1] == log[m - 1];
    SeenEventsChangeNothing(y.value, log[a..k], task);
    DeliveredTwice(log, a, k, m, task);
    assert forall i :: 0 <= i < |log| - m ==> log[m..][i] == log[m + i];
    NewEventsCount(y, log[m..], task);
  }

  /** A rebuild has folded log[..a] when another consumer of the table commits a batch of
      log[k..m]; then the rebuild reads on to the end. It cannot fail, and it leaves the fold
      of the whole log exactly when no task has events both in log[a..k] and in log[k..m]. */
  lemma RebuildSurvivesForeignBatch(log: seq<Event>, a: nat, k: nat, m: nat)
    requires Increasing(log) && Fold(map[], log).Ok? && a <= k <= m <= |log|
    ensures Fold(map[], log[..a]).Ok?
    ensures Fold(Fold(map[], log[..a]).value, log[k..m]).Ok?
    ensures var mixed := Fold(Fold(Fold(map[], log[..a]).value, log[k..m]).value, log[a..]);
            && mixed.Ok?
            && (mixed == Fold(map[], log) <==>
                  forall task :: !(TaskEvents(log[a..k], task) > 0 && TaskEvents(log[k..m], task) > 0))
  {
    hide Fold, RowFold, Appliable, TaskEvents, Increasing, Mixed;
    FoldedLogIsAppliable(log);
    MixedRows(log, a, k, m, "");
    forall task
      ensures RowOf(Fold(Fold(Fold(map[], log[..a]).value, log[k..m]).value, log[a..]).value, task)
              == Mixed(log, a, k, m, task)
      ensures RowOf(Fold(map[], log).value, task) == RowFold(None, log, task)
    {
      MixedRows(log, a, k, m, task);
    }
    var mixed := Fold(Fold(Fold(map[], log[..a]).value, log[k..m]).value, log[a..]).value;
    var whole := Fold(map[], log).value;
    if forall task :: !(TaskEvents(log[a..k], task) > 0 && TaskEvents(log[k..m], task) > 0) {
      forall task ensures RowOf(mixed, task) == RowOf(whole, task) {
        UntouchedTaskIsWhole(log, a, k, m, task);
      }
      SameRowsSameTable(mixed, whole);
    } else {
      var task :| TaskEvents(log[a..k], task) > 0 && TaskEvents(log[k..m], task) > 0;
      TouchedTaskIsShort(log, a, k, m, task);
      assert RowOf(mixed, task) != RowOf(whole, task);
    }
  }

  lemma MixedRows(log: seq<Event>, a: nat, k: nat, m: nat, task: string)
    requires Increasing(log) && AllAppliable(log) && a <= k <= m <= |log|
    ensures Fold(map[], log[..a]).Ok? && Fold(Fold(map[], log[..a]).value, log[k..m]).Ok?
    ensures var mixed := Fold(Fold(Fold(map[], log[..a]).value, log[k..m]).value, log[a..]);
            mixed.Ok? && RowOf(mixed.value, task) == Mixed(log, a, k, m, task)
    ensures Fold(map[], log).Ok? && RowOf(Fold(map[], log).value, task) == RowFold(None, log, task)
  {
    hide Fold, RowFold, Appliable, Increasing;
    StretchIsLegal(log, 0, a);
    StretchIsLegal(log, k, m);
    StretchIsLegal(log, a, |log|);
    assert log[0..a] == log[..a] && log[a..|log|] == log[a..];
    FoldIsPerTask(map[], log[..a], task);
    FoldIsPerTask(Fold(map[], log[..a]).value, log[k..m], task);
    FoldIsPerTask(Fold(Fold(map[], log[..a]).value, log[k..m]).value, log[a..], task);
    FoldIsPerTask(map[], log, task);
  }

  lemma SameRowsSameTable(f: Rows, g: Rows)
    requires forall task :: RowOf(f, task) == RowOf(g, task)
    ensures f == g
  {
    forall task ensures task in f <==> task in g { assert RowOf(f, task) == RowOf(g, task); }
    forall task | task in f ensures f[task] == g[task] { assert RowOf(f, task) == RowOf(g, task); }
  }
}

/** The task-state projection (internal/projection/task.go): one event applied to
    the derived rows, the fold of a log, and what redelivery does to it. */
module Projection {
  import opened Basics

  datatype Status = PendingStatus | ClaimedStatus | DoneStatus | FailedStatus | DeadLetterStatus | CancelledStatus | ActiveStatus

  datatype EventType =
    | TaskCreated | TaskClaimed | TaskRetryScheduled | TaskCompleted | TaskFailed
    | TaskDeadLettered | TaskCancelled | TaskProgressed | TaskLeaseRenewed | OtherEvent

  /** A decoded JSON value; other shapes are carried as their canonical text. */
  datatype Json = Invalid | Null | Text(text: string) | Other(canonical: string)

  datatype DeltaPath = StatusOf(task: string) | ResultOf(task: string) | SessionOf(task: string) | Elsewhere

  datatype Delta = Delta(path: DeltaPath, isSet: bool, value: Json)

  /** An entity reference with the outcome of its kind and workspace checks. */
  datatype Ref = Ref(id: string, kindOk: bool, workspaceOk: bool)

  datatype Event = Event(
    sequence: nat, id: string, eventType: EventType,
    task: Option<Ref>, session: Option<Ref>, deltas: seq<Delta>)

  datatype TaskState = TaskState(
    status: Status, result: string, session: string, lastEvent: string, lastSequence: nat, applied: nat)

  type Rows = map<string, TaskState>

  datatype Outcome = Outcome(handled: bool, applied: bool, duplicate: bool)

  const IGNORED := Outcome(false, false, false)
  const ACKNOWLEDGED := Outcome(true, false, false)
  const DUPLICATE := Outcome(true, false, true)
  const APPLIED := Outcome(true, true, false)

  function EventStatus(t: EventType): Option<Status> {
    match t
    case TaskCreated => Some(PendingStatus)
    case TaskClaimed => Some(ClaimedStatus)
    case TaskRetryScheduled => Some(PendingStatus)
    case TaskCompleted => Some(DoneStatus)
    case TaskFailed => Some(FailedStatus)
    case TaskDeadLettered => Some(DeadLetterStatus)
    case TaskCancelled => Some(CancelledStatus)
    case TaskProgressed => Some(ActiveStatus)
    case TaskLeaseRenewed => None
    case OtherEvent => None
  }

  function StatusText(s: Status): string {
    match s
    case PendingStatus => "pending"
    case ClaimedStatus => "claimed"
    case DoneStatus => "done"
    case FailedStatus => "failed"
    case DeadLetterStatus => "deadletter"
    case CancelledStatus => "cancelled"
    case ActiveStatus => "in_progress"
  }

  /** What the deltas of one event say about its task. */
  datatype Change = Change(statusFound: bool, result: Option<string>, session: Option<string>)

  function Decode(value: Json): Result<string> {
    match value
    case Invalid => Err
    case Null => Ok("")
    case Text(text) => Ok(text)
    case Other(canonical) => Ok(canonical)
  }

  /** Deltas are read in order; a later value for the same path wins, and any bad
      delta for this task rejects the event. */
  function ReadDeltas(deltas: seq<Delta>, task: string, expected: string): Result<Change> {
    if deltas == [] then Ok(Change(false, None, None))
    else
      var before := ReadDeltas(deltas[..|deltas| - 1], task, expected);
      if before.Err? then Err else ReadDelta(before.value, deltas[|deltas| - 1], task, expected)
  }

  function ReadDelta(c: Change, d: Delta, task: string, expected: string): Result<Change> {
    if d.path != StatusOf(task) && d.path != ResultOf(task) && d.path != SessionOf(task) then Ok(c)
    else if !d.isSet then Err
    else if d.path == StatusOf(task) then
      if d.value == Text(expected) then Ok(c.(statusFound := true)) else Err
    else match Decode(d.value)
      case Err => Err
      case Ok(text) => Ok(if d.path == SessionOf(task) then c.(session := Some(text)) else c.(result := Some(text)))
  }

  /** The checks on an event that precede any look at the rows. */
  predicate WellReferenced(e: Event) {
    e.sequence > 0 && e.task.Some? && e.task.value.id != "" && e.task.value.kindOk && e.task.value.workspaceOk
  }

  function Apply(rows: Rows, e: Event): Result<(Rows, Outcome)> {
    if e.eventType == TaskLeaseRenewed then Ok((rows, ACKNOWLEDGED))
    else match EventStatus(e.eventType)
      case None => Ok((rows, IGNORED))
      case Some(status) =>
        if !WellReferenced(e) then Err
        else if Seen(rows, e) then Ok((rows, DUPLICATE))
        else match NewState(rows, e, status)
          case Err => Err
          case Ok(state) => Ok((rows[e.task.value.id := state], APPLIED))
  }

  predicate Seen(rows: Rows, e: Event)
    requires e.task.Some?
  {
    e.task.value.id in rows && rows[e.task.value.id].lastSequence >= e.sequence
  }

  function NewState(rows: Rows, e: Event, status: Status): Result<TaskState>
    requires e.task.Some?
  {
    var task := e.task.value.id;
    match ReadDeltas(e.deltas, task, StatusText(status))
    case Err => Err
    case Ok(change) =>
      if !change.statusFound then Err
      else if change.session.None? && e.session.Some? && !(e.session.value.kindOk && e.session.value.workspaceOk) then Err
      else
        var was := if task in rows then rows[task] else TaskState(status, "", "", "", 0, 0);
        Ok(TaskState(
          status,
          if change.result.Some? then change.result.value else was.result,
          if change.session.Some? then change.session.value else if e.session.Some? then e.session.value.id else was.session,
          e.id, e.sequence, was.applied + 1))
  }

  /** The derived view of a log: its events applied in order to no rows. */
  function Fold(rows: Rows, events: seq<Event>): Result<Rows> {
    if events == [] then Ok(rows)
    else match Fold(rows, events[..|events| - 1])
      case Err => Err
      case Ok(before) => match Apply(before, events[|events| - 1])
        case Err => Err
        case Ok(after) => Ok(after.0)
  }

  lemma {:induction false} FoldConcat(rows: Rows, a: seq<Event>, b: seq<Event>)
    ensures Fold(rows, a + b) == (match Fold(rows, a) case Err => Err case Ok(mid) => Fold(mid, b))
  {
    if b == [] {
      assert a + b == a;
    } else {
      FoldConcat(rows, a, b[..|b| - 1]);
      assert (a + b)[..|a + b| - 1] == a + b[..|b| - 1];
    }
  }

  ghost predicate Increasing(log: seq<Event>) {
    && (forall i :: 0 <= i < |log| ==> log[i].sequence > 0)
    && forall i, j :: 0 <= i < j < |log| ==> log[i].sequence < log[j].sequence
  }

  lemma PrefixIsIncreasing(before: seq<Event>, e: Event)
    requires Increasing(before + [e])
    ensures Increasing(before)
  {
    assert forall i :: 0 <= i < |before| ==> (before + [e])[i] == before[i];
  }

  /** A row for an event's task that already accounts for it. */
  predicate Covers(rows: Rows, e: Event) {
    EventStatus(e.eventType).Some? ==> WellReferenced(e) && Seen(rows, e)
  }

  lemma {:induction false} FoldCoversItsEvents(rows: Rows, events: seq<Event>, i: nat)
    requires Fold(rows, events).Ok? && i < |events|
    ensures Covers(Fold(rows, events).value, events[i])
  {
    var before := events[..|events| - 1];
    if i < |before| { FoldCoversItsEvents(rows, before, i); }
  }

  /** Redelivering an event already in the fold changes nothing and is never counted
      as applied; it cannot fail either, whatever its deltas say. */
  lemma RedeliveryIsHarmless(rows: Rows, events: seq<Event>, i: nat)
    requires Fold(rows, events).Ok? && i < |events|
    ensures Apply(Fold(rows, events).value, events[i]).Ok?
    ensures Apply(Fold(rows, events).value, events[i]).value.0 == Fold(rows, events).value
    ensures !Apply(Fold(rows, events).value, events[i]).value.1.applied
  {
    FoldCoversItsEvents(rows, events, i);
  }

  lemma {:induction false} RedeliveredBatchIsHarmless(rows: Rows, events: seq<Event>, from: nat, to: nat)
    requires Fold(rows, events).Ok? && from <= to <= |events|
    ensures Fold(Fold(rows, events).value, events[from..to]) == Fold(rows, events)
  {
    if from < to {
      RedeliveredBatchIsHarmless(rows, events, from, to - 1);
      RedeliveryIsHarmless(rows, events, to - 1);
      assert events[from..to][..to - 1 - from] == events[from..to - 1];
    }
  }

  /** No row is ahead of the log it was folded from. */
  lemma {:induction false} RowsStayBehind(events: seq<Event>, task: string)
    requires Increasing(events) && Fold(map[], events).Ok? && task in Fold(map[], events).value
    ensures events != []
    ensures Fold(map[], events).value[task].lastSequence <= events[|events| - 1].sequence
  {
    var before := events[..|events| - 1];
    if events != [] && task in Fold(map[], before).value { RowsStayBehind(before, task); }
  }

  /** The next event of the log is never mistaken for a duplicate. */
  lemma NextEventIsNotSeen(events: seq<Event>, e: Event)
    requires Increasing(events + [e]) && Fold(map[], events).Ok? && e.task.Some?
    ensures !Seen(Fold(map[], events).value, e)
  {
    assert (events + [e])[|events|] == e;
    assert forall i :: 0 <= i < |events| ==> (events + [e])[i] == events[i];
    if e.task.value.id in Fold(map[], events).value { RowsStayBehind(events, e.task.value.id); }
  }

  function TaskEvents(events: seq<Event>, task: string): nat {
    if events == [] then 0
    else TaskEvents(events[..|events| - 1], task) + if Concerns(events[|events| - 1], task) then 1 else 0
  }

  predicate Concerns(e: Event, task: string) {
    EventStatus(e.eventType).Some? && e.task.Some? && e.task.value.id == task
  }

  function AppliedTo(rows: Rows, task: string): nat {
    if task in rows then rows[task].applied else 0
  }

  /** The next event of a log is applied exactly when it has a status, is no duplicate, and counts in its row only. */
  lemma NextEventCountsOnce(before: seq<Event>, e: Event, task: string)
    requires Increasing(before + [e]) && Fold(map[], before).Ok?
    requires Apply(Fold(map[], before).value, e).Ok?
    ensures var next := Apply(Fold(map[], before).value, e).value;
            && (next.1.applied <==> EventStatus(e.eventType).Some?)
            && !next.1.duplicate
            && AppliedTo(next.0, task) == AppliedTo(Fold(map[], before).value, task) + if Concerns(e, task) then 1 else 0
  {
    hide Fold, ReadDeltas, StatusText, Increasing;
    if EventStatus(e.eventType).Some? && e.task.Some? { NextEventIsNotSeen(before, e); }
  }

  /** Every task event counts once in its row, however the log was batched. */
  lemma {:induction false} AppliedCountsEveryTaskEvent(events: seq<Event>, task: string)
    requires Increasing(events) && Fold(map[], events).Ok?
    ensures TaskEvents(events, task) == AppliedTo(Fold(map[], events).value, task)
  {
    hide Apply, Concerns, AppliedTo;
    if events == [] {
      NoRows(task);
    } else {
      var before, e := events[..|events| - 1], events[|events| - 1];
      assert before + [e] == events;
      AppliedCountsEveryTaskEvent(before, task);
      NextEventCountsOnce(before, e, task);
    }
  }

  lemma NoRows(task: string)
    ensures AppliedTo(map[], task) == 0
  {
  }

  // ----- The table as the source mutates it -----

  class TaskTable {
    var rows: Rows

    constructor ()
      ensures rows == map[]
    {
      rows := map[];
    }

    method ReadChange(e: Event, expected: string, task: string) returns (r: Result<Change>)
      ensures r == ReadDeltas(e.deltas, task, expected)
    {
      var change := Change(false, None, None);
      for i := 0 to |e.deltas|
        invariant ReadDeltas(e.deltas[..i], task, expected) == Ok(change)
      {
        var d := e.deltas[i];
        assert e.deltas[..i + 1][..i] == e.deltas[..i];
        if d.path != StatusOf(task) && d.path != ResultOf(task) && d.path != SessionOf(task) { continue; }
        if !d.isSet || (d.path == StatusOf(task) && d.value != Text(expected)) {
          DeltaErrorsStick(e.deltas, i + 1, task, expected);
          return Err;
        }
        if d.path == StatusOf(task) {
          change := change.(statusFound := true);
          continue;
        }
        var decoded := Decode(d.value);
        if decoded.Err? {
          DeltaErrorsStick(e.deltas, i + 1, task, expected);
          return Err;
        }
        if d.path == SessionOf(task) {
          change := change.(session := Some(decoded.value));
        } else {
          change := change.(result := Some(decoded.value));
        }
      }
      assert e.deltas[..|e.deltas|] == e.deltas;
      return Ok(change);
    }

    method ApplyEvent(e: Event) returns (r: Result<Outcome>)
      modifies this
      ensures Apply(old(rows), e).Err? ==> r.Err? && rows == old(rows)
      ensures Apply(old(rows), e).Ok? ==> rows == Apply(old(rows), e).value.0 && r == Ok(Apply(old(rows), e).value.1)
    {
      hide ReadDeltas, StatusText;
      if e.eventType == TaskLeaseRenewed { return Ok(ACKNOWLEDGED); }
      var status := EventStatus(e.eventType);
      if status.None? { return Ok(IGNORED); }
      if !WellReferenced(e) { return Err; }
      var task := e.task.value.id;
      var found := task in rows;
      if found && rows[task].lastSequence >= e.sequence { return Ok(DUPLICATE); }
      var change := ReadChange(e, StatusText(status.value), task);
      if change.Err? || !change.value.statusFound { return Err; }
      var current := TaskState(status.value, "", "", "", 0, 0);
      if found {
        current := rows[task].(status := status.value);
      }
      if change.value.result.Some? {
        current := current.(result := change.value.result.value);
      }
      if change.value.session.Some? {
        current := current.(session := change.value.session.value);
      } else if e.session.Some? {
        if !e.session.value.kindOk || !e.session.value.workspaceOk { return Err; }
        current := current.(session := e.session.value.id);
      }
      current := current.(lastEvent := e.id, lastSequence := e.sequence, applied := current.applied + 1);
      rows := rows[task := current];
      return Ok(APPLIED);
    }
  }

  lemma {:induction false} DeltaErrorsStick(deltas: seq<Delta>, i: nat, task: string, expected: string)
    requires i <= |deltas| && ReadDeltas(deltas[..i], task, expected).Err?
    ensures ReadDeltas(deltas, task, expected).Err?
    decreases |deltas| - i
  {
    if i == |deltas| {
      assert deltas[..i] == deltas;
    } else {
      assert deltas[..i + 1][..i] == deltas[..i];
      DeltaErrorsStick(deltas, i + 1, task, expected);
    }
  }
}

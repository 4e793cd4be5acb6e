/** What a task's row says, read off the deltas of the log's events themselves: which
    delta gives the result and which the session, which events are refused, and what
    status and word go with each event type. */
module ProjectionReading {
  import opened Basics
  import opened Projection

  /** The status an event type stands for, and the word its status delta must carry. */
  function Stands(t: EventType): Option<(Status, string)> {
    match t
    case TaskCreated => Some((PendingStatus, "pending"))
    case TaskRetryScheduled => Some((PendingStatus, "pending"))
    case TaskClaimed => Some((ClaimedStatus, "claimed"))
    case TaskProgressed => Some((ActiveStatus, "in_progress"))
    case TaskCompleted => Some((DoneStatus, "done"))
    case TaskFailed => Some((FailedStatus, "failed"))
    case TaskDeadLettered => Some((DeadLetterStatus, "deadletter"))
    case TaskCancelled => Some((CancelledStatus, "cancelled"))
    case TaskLeaseRenewed => None
    case OtherEvent => None
  }

  lemma EventsStandForTheirStatus(t: EventType)
    ensures Stands(t) == (match EventStatus(t) case None => None case Some(s) => Some((s, StatusText(s))))
  {
  }

  // ----- The deltas of one event -----

  /** A JSON value read as text: strings as they are, null as nothing, anything else canonically. */
  predicate Reads(value: Json, text: string) {
    value == Text(text) || value == Other(text) || (value == Null && text == "")
  }

  predicate Absent(deltas: seq<Delta>, path: DeltaPath) {
    forall j :: 0 <= j < |deltas| ==> deltas[j].path != path
  }

  predicate IsLast(deltas: seq<Delta>, path: DeltaPath, j: nat) {
    && j < |deltas| && deltas[j].path == path
    && forall k :: j < k < |deltas| ==> deltas[k].path != path
  }

  /** A delta that does not spoil an event of `task` whose status delta must carry `word`. */
  predicate Sound(d: Delta, task: string, word: string) {
    && (d.path in {StatusOf(task), ResultOf(task), SessionOf(task)} ==> d.isSet)
    && (d.path == StatusOf(task) ==> d.value == Text(word))
    && (d.path in {ResultOf(task), SessionOf(task)} ==> d.value != Invalid)
  }

  /** The value read for a path is that of its last delta, and none when there is no delta. */
  ghost predicate GivenBy(deltas: seq<Delta>, path: DeltaPath, value: Option<string>) {
    match value
    case None => Absent(deltas, path)
    case Some(text) => exists j: nat :: IsLast(deltas, path, j) && Reads(deltas[j].value, text)
  }

  lemma OtherPathKeeps(deltas: seq<Delta>, d: Delta, path: DeltaPath, value: Option<string>)
    requires GivenBy(deltas, path, value) && d.path != path
    ensures GivenBy(deltas + [d], path, value)
  {
    if value.Some? {
      var j: nat :| IsLast(deltas, path, j) && Reads(deltas[j].value, value.value);
      assert IsLast(deltas + [d], path, j);
    }
  }

  lemma SamePathGives(deltas: seq<Delta>, d: Delta, text: string)
    requires Reads(d.value, text)
    ensures GivenBy(deltas + [d], d.path, Some(text))
  {
    assert IsLast(deltas + [d], d.path, |deltas|);
  }

  /** Reading succeeds exactly on sound deltas; result and session come from the last delta
      on their own path, whatever lies between. */
  lemma {:induction false} ReadingTakesLastDeltas(deltas: seq<Delta>, task: string, word: string)
    ensures ReadDeltas(deltas, task, word).Ok? <==> forall j :: 0 <= j < |deltas| ==> Sound(deltas[j], task, word)
    ensures ReadDeltas(deltas, task, word).Ok? ==>
              var c := ReadDeltas(deltas, task, word).value;
              && (c.statusFound <==> !Absent(deltas, StatusOf(task)))
              && GivenBy(deltas, ResultOf(task), c.result)
              && GivenBy(deltas, SessionOf(task), c.session)
  {
    if deltas != [] {
      var before, d := deltas[..|deltas| - 1], deltas[|deltas| - 1];
      assert before + [d] == deltas;
      ReadingTakesLastDeltas(before, task, word);
      SoundnessExtends(before, d, task, word);
      if ReadDeltas(deltas, task, word).Ok? {
        var was, c := ReadDeltas(before, task, word).value, ReadDeltas(deltas, task, word).value;
        OneMoreDelta(before, d, task, word, was, c);
      }
    }
  }

  lemma SoundnessExtends(before: seq<Delta>, d: Delta, task: string, word: string)
    ensures (forall j :: 0 <= j < |before + [d]| ==> Sound((before + [d])[j], task, word)) <==>
            (forall j :: 0 <= j < |before| ==> Sound(before[j], task, word)) && Sound(d, task, word)
  {
    var deltas := before + [d];
    assert deltas[|before|] == d;
    assert forall j :: 0 <= j < |before| ==> deltas[j] == before[j];
  }

  lemma OneMoreDelta(before: seq<Delta>, d: Delta, task: string, word: string, was: Change, c: Change)
    requires ReadDelta(was, d, task, word) == Ok(c)
    requires was.statusFound <==> !Absent(before, StatusOf(task))
    requires GivenBy(before, ResultOf(task), was.result) && GivenBy(before, SessionOf(task), was.session)
    ensures c.statusFound <==> !Absent(before + [d], StatusOf(task))
    ensures GivenBy(before + [d], ResultOf(task), c.result) && GivenBy(before + [d], SessionOf(task), c.session)
  {
    var deltas := before + [d];
    assert deltas[|before|] == d;
    assert forall j :: 0 <= j < |before| ==> deltas[j] == before[j];
    hide Absent, GivenBy;
    AbsenceExtends(before, d, StatusOf(task));
    if d.path == ResultOf(task) { SamePathGives(before, d, c.result.value); }
    else { OtherPathKeeps(before, d, ResultOf(task), was.result); }
    if d.path == SessionOf(task) { SamePathGives(before, d, c.session.value); }
    else { OtherPathKeeps(before, d, SessionOf(task), was.session); }
  }

  lemma AbsenceExtends(before: seq<Delta>, d: Delta, path: DeltaPath)
    ensures Absent(before + [d], path) <==> Absent(before, path) && d.path != path
  {
    assert (before + [d])[|before|] == d;
    assert forall j :: 0 <= j < |before| ==> (before + [d])[j] == before[j];
  }

  // ----- One event -----

  /** The event names its task soundly. */
  predicate NamesTask(e: Event) {
    && e.sequence > 0 && e.task.Some? && e.task.value.id != ""
    && e.task.value.kindOk && e.task.value.workspaceOk
  }

  predicate PassedAlready(rows: Rows, e: Event)
    requires e.task.Some?
  {
    e.task.value.id in rows && e.sequence <= rows[e.task.value.id].lastSequence
  }

  /** The deltas hold no unsound one and a status, and the session is named soundly if no delta gives it. */
  predicate Readable(e: Event, word: string)
    requires e.task.Some?
  {
    && (forall j :: 0 <= j < |e.deltas| ==> Sound(e.deltas[j], e.task.value.id, word))
    && !Absent(e.deltas, StatusOf(e.task.value.id))
    && (Absent(e.deltas, SessionOf(e.task.value.id)) && e.session.Some? ==>
        e.session.value.kindOk && e.session.value.workspaceOk)
  }

  datatype Field = ResultField | SessionField

  function FieldOf(row: TaskState, f: Field): string {
    match f case ResultField => row.result case SessionField => row.session
  }

  function PathOf(task: string, f: Field): DeltaPath {
    match f case ResultField => ResultOf(task) case SessionField => SessionOf(task)
  }

  /** The event says something about the field: by a delta or, for the session, by its reference. */
  predicate Mentions(e: Event, task: string, f: Field) {
    !Absent(e.deltas, PathOf(task, f)) || (f == SessionField && e.session.Some?)
  }

  /** What it says is `text`: the last delta on the path, else the session reference. */
  ghost predicate Says(e: Event, task: string, f: Field, text: string) {
    if Absent(e.deltas, PathOf(task, f)) then f == SessionField && e.session.Some? && text == e.session.value.id
    else GivenBy(e.deltas, PathOf(task, f), Some(text))
  }

  function FieldBefore(rows: Rows, task: string, f: Field): string {
    if task in rows then FieldOf(rows[task], f) else ""
  }

  /** An event is refused exactly for a missing or foreign task, or, unless the row has passed
      it already, for unreadable deltas. */
  lemma RefusedExactly(rows: Rows, e: Event)
    ensures Apply(rows, e).Err? <==>
      && Stands(e.eventType).Some?
      && (!NamesTask(e) || (!PassedAlready(rows, e) && !Readable(e, Stands(e.eventType).value.1)))
  {
    EventsStandForTheirStatus(e.eventType);
    hide StatusText, Absent, Sound;
    if EventStatus(e.eventType).Some? && NamesTask(e) {
      ReadingTakesLastDeltas(e.deltas, e.task.value.id, Stands(e.eventType).value.1);
      GivenByIsDefinite(e.deltas, SessionOf(e.task.value.id));
    }
  }

  /** An applied event decides its task's row alone: status by its type, result and session by
      what it says of them, or as they were. */
  lemma AppliedEventDecidesItsRow(rows: Rows, e: Event, f: Field)
    requires Apply(rows, e).Ok? && Stands(e.eventType).Some? && !PassedAlready(rows, e)
    ensures var (after, outcome) := Apply(rows, e).value;
            var task := e.task.value.id;
            && outcome == APPLIED
            && after.Keys == rows.Keys + {task} && (forall t :: t in rows && t != task ==> after[t] == rows[t])
            && after[task].status == Stands(e.eventType).value.0
            && after[task].lastEvent == e.id && after[task].lastSequence == e.sequence
            && after[task].applied == (if task in rows then rows[task].applied else 0) + 1
            && (Mentions(e, task, f) ==> Says(e, task, f, FieldOf(after[task], f)))
            && (!Mentions(e, task, f) ==> FieldOf(after[task], f) == FieldBefore(rows, task, f))
  {
    EventsStandForTheirStatus(e.eventType);
    hide StatusText, Sound, IsLast;
    ReadingTakesLastDeltas(e.deltas, e.task.value.id, Stands(e.eventType).value.1);
    hide Absent;
    GivenByIsDefinite(e.deltas, PathOf(e.task.value.id, f));
  }

  lemma GivenByIsDefinite(deltas: seq<Delta>, path: DeltaPath)
    ensures GivenBy(deltas, path, None) <==> Absent(deltas, path)
    ensures forall text :: GivenBy(deltas, path, Some(text)) ==> !Absent(deltas, path)
  {
    forall text | GivenBy(deltas, path, Some(text)) ensures !Absent(deltas, path) {
      var j: nat :| IsLast(deltas, path, j) && Reads(deltas[j].value, text);
    }
  }

  /** Other events change no row. */
  lemma OthersChangeNoRow(rows: Rows, e: Event)
    requires Apply(rows, e).Ok? && (Stands(e.eventType).None? || PassedAlready(rows, e))
    ensures Apply(rows, e).value.0 == rows && !Apply(rows, e).value.1.applied
    ensures Apply(rows, e).value.1.handled <==> Stands(e.eventType).Some? || e.eventType == TaskLeaseRenewed
    ensures Apply(rows, e).value.1.duplicate <==> Stands(e.eventType).Some?
  {
    EventsStandForTheirStatus(e.eventType);
    hide StatusText;
  }

  // ----- The whole log -----

  predicate About(e: Event, task: string) {
    Stands(e.eventType).Some? && e.task.Some? && e.task.value.id == task
  }

  /** Event `i` is the task's last. */
  predicate LastAbout(log: seq<Event>, task: string, i: nat) {
    && i < |log| && About(log[i], task)
    && forall k :: i < k < |log| ==> !About(log[k], task)
  }

  /** `text` is what the task's last event to mention the field says of it, or nothing. */
  ghost predicate Told(log: seq<Event>, task: string, f: Field, text: string) {
    || (exists i: nat :: LastMention(log, task, f, i) && Says(log[i], task, f, text))
    || (text == "" && forall k :: 0 <= k < |log| && About(log[k], task) ==> !Mentions(log[k], task, f))
  }

  predicate LastMention(log: seq<Event>, task: string, f: Field, i: nat) {
    && i < |log| && About(log[i], task) && Mentions(log[i], task, f)
    && forall k :: i < k < |log| && About(log[k], task) ==> !Mentions(log[k], task, f)
  }

  ghost predicate RowTells(rows: Rows, log: seq<Event>, task: string, f: Field) {
    && (task in rows <==> exists i: nat :: LastAbout(log, task, i))
    && (forall i: nat :: LastAbout(log, task, i) ==>
          && Stands(log[i].eventType) == Some((rows[task].status, Stands(log[i].eventType).value.1))
          && rows[task].lastEvent == log[i].id && rows[task].lastSequence == log[i].sequence
          && Told(log, task, f, FieldOf(rows[task], f)))
    && (task !in rows ==> Told(log, task, f, ""))
  }

  lemma MentionStays(before: seq<Event>, e: Event, task: string, f: Field, text: string)
    requires Told(before, task, f, text)
    requires !(About(e, task) && Mentions(e, task, f))
    ensures Told(before + [e], task, f, text)
  {
    hide About, Mentions, Says;
    var log := before + [e];
    assert log[|before|] == e;
    assert forall k :: 0 <= k < |before| ==> log[k] == before[k];
    if i: nat :| LastMention(before, task, f, i) && Says(before[i], task, f, text) {
      assert LastMention(log, task, f, i);
    }
  }

  lemma MentionIsLast(before: seq<Event>, e: Event, task: string, f: Field, text: string)
    requires About(e, task) && Mentions(e, task, f) && Says(e, task, f, text)
    ensures Told(before + [e], task, f, text)
  {
    hide About, Mentions, Says;
    assert LastMention(before + [e], task, f, |before|);
  }

  lemma LastAboutExtends(before: seq<Event>, e: Event, task: string, i: nat)
    ensures LastAbout(before + [e], task, i) <==>
            if About(e, task) then i == |before| else LastAbout(before, task, i)
  {
    hide About;
    var log := before + [e];
    assert log[|before|] == e;
    assert forall k :: 0 <= k < |before| ==> log[k] == before[k];
  }

  /** What one more event of the log makes of the row of `task`. */
  ghost predicate RowFollows(rows: Rows, after: Rows, e: Event, task: string, f: Field) {
    if About(e, task) then
      && task in after
      && Stands(e.eventType) == Some((after[task].status, Stands(e.eventType).value.1))
      && after[task].lastEvent == e.id && after[task].lastSequence == e.sequence
      && (Mentions(e, task, f) ==> Says(e, task, f, FieldOf(after[task], f)))
      && (!Mentions(e, task, f) ==> FieldOf(after[task], f) == FieldBefore(rows, task, f))
    else
      && (task in after <==> task in rows)
      && (task in rows ==> after[task] == rows[task])
  }

  lemma AppliedRowFollows(rows: Rows, e: Event, task: string, f: Field)
    requires Apply(rows, e).Ok? && (e.task.Some? ==> !PassedAlready(rows, e))
    ensures RowFollows(rows, Apply(rows, e).value.0, e, task, f)
  {
    if Stands(e.eventType).Some? {
      RefusedExactly(rows, e);
      AppliedEventDecidesItsRow(rows, e, f);
      hide Apply, Says, Mentions, Stands, PassedAlready, FieldOf;
    } else {
      OthersChangeNoRow(rows, e);
    }
  }

  lemma RowTellsOneMore(rows: Rows, after: Rows, before: seq<Event>, e: Event, task: string, f: Field)
    requires RowTells(rows, before, task, f) && RowFollows(rows, after, e, task, f)
    ensures RowTells(after, before + [e], task, f)
  {
    hide Told, Says, Stands, LastAbout, Mentions, About, FieldOf;
    var log := before + [e];
    assert log[|before|] == e;
    assert forall k :: 0 <= k < |before| ==> log[k] == before[k];
    forall i: nat ensures LastAbout(log, task, i) <==> if About(e, task) then i == |before| else LastAbout(before, task, i) {
      LastAboutExtends(before, e, task, i);
    }
    forall i: nat ensures LastAbout(before, task, i) ==> i < |before| { LastAboutIsListed(before, task, i); }
    FieldWasTold(rows, before, task, f);
    if About(e, task) {
      assert LastAbout(log, task, |before|);
      if Mentions(e, task, f) { MentionIsLast(before, e, task, f, FieldOf(after[task], f)); }
      else { MentionStays(before, e, task, f, FieldBefore(rows, task, f)); }
    } else {
      MentionStays(before, e, task, f, FieldBefore(rows, task, f));
    }
  }

  lemma LastAboutIsListed(log: seq<Event>, task: string, i: nat)
    ensures LastAbout(log, task, i) ==> i < |log|
  {
  }

  lemma FieldWasTold(rows: Rows, log: seq<Event>, task: string, f: Field)
    requires RowTells(rows, log, task, f)
    ensures Told(log, task, f, FieldBefore(rows, task, f))
  {
    hide Told, LastAbout, Stands;
  }

  /** A task has a row exactly when the log has an event of it; the row's status and position
      are those of the last one, and its result and its session are each what the last event
      to mention it says: by its last delta on that path or, for the session, its reference. */
  lemma {:induction false} RowsTellTheLastEvents(log: seq<Event>, task: string, f: Field)
    requires Increasing(log) && Fold(map[], log).Ok?
    ensures RowTells(Fold(map[], log).value, log, task, f)
  {
    if log != [] {
      hide Apply, RowTells, Increasing, RowFollows;
      var before, e := log[..|log| - 1], log[|log| - 1];
      assert before + [e] == log;
      PrefixIsIncreasing(before, e);
      RowsTellTheLastEvents(before, task, f);
      if e.task.Some? { NextEventIsNotSeen(before, e); }
      AppliedRowFollows(Fold(map[], before).value, e, task, f);
      RowTellsOneMore(Fold(map[], before).value, Fold(map[], log).value, before, e, task, f);
    }
  }
}

/** The gateway as it runs: a ledger that admits each call once, the nested retry loops,
    and the buffering sink, all updating state in place. */
module GatewayCall {
  import opened Basics
  import opened Distinctness
  import opened Gateway

  datatype Status = InProgress | Concluded(outcome: Outcome)

  datatype Entry = Entry(hash: string, status: Status, attempts: nat)

  datatype Started = Fresh | Existing(entry: Entry) | Mismatch

  /** The durable call ledger (internal/store/model_calls.go); each method is one transaction. */
  class CallLedger {
    var entries: map<string, Entry>

    constructor ()
      ensures entries == map[]
    {
      entries := map[];
    }

    method Start(key: string, hash: string) returns (r: Started)
      modifies this
      ensures key !in old(entries) ==> r == Fresh && entries == old(entries)[key := Entry(hash, InProgress, 0)]
      ensures key in old(entries) ==> entries == old(entries)
      ensures key in old(entries) ==>
                r == if old(entries)[key].hash == hash then Existing(old(entries)[key]) else Mismatch
    {
      if key in entries {
        return if entries[key].hash == hash then Existing(entries[key]) else Mismatch;
      }
      entries := entries[key := Entry(hash, InProgress, 0)];
      r := Fresh;
    }

    method Attempt(key: string) returns (done: bool)
      modifies this
      ensures done == (key in old(entries) && old(entries)[key].status == InProgress)
      ensures entries == if done then old(entries)[key := old(entries)[key].(attempts := old(entries)[key].attempts + 1)]
                         else old(entries)
    {
      done := key in entries && entries[key].status == InProgress;
      if done {
        entries := entries[key := entries[key].(attempts := entries[key].attempts + 1)];
      }
    }

    method Finish(key: string, outcome: Outcome, attempts: nat) returns (done: bool)
      modifies this
      ensures key in old(entries) && old(entries)[key].status == InProgress ==>
                done && entries == old(entries)[key :=
                  Entry(old(entries)[key].hash, Concluded(outcome), Max(old(entries)[key].attempts, attempts))]
      ensures !(key in old(entries) && old(entries)[key].status == InProgress) ==> entries == old(entries)
    {
      if key !in entries { return false; }
      match entries[key].status
      case InProgress =>
        entries := entries[key := Entry(entries[key].hash, Concluded(outcome), Max(entries[key].attempts, attempts))];
        done := true;
      case Concluded(known) =>
        done := known.ReplyOutcome? == outcome.ReplyOutcome?;
    }
  }

  datatype Reported =
    | NotAdmitted | HashConflict | AlreadyRunning | Replayed(outcome: Outcome)
    | Performed(outcome: Outcome) | FinishLost

  lemma RefsSnoc(all: seq<Ref>, i: nat)
    requires i < |all|
    ensures ProviderRefs(all[..i + 1]) ==
            if all[i].provider == "" || all[i] in ProviderRefs(all[..i]) then ProviderRefs(all[..i])
            else ProviderRefs(all[..i]) + [all[i]]
  {
    hide Dedup;
    assert all[..i + 1][..i] == all[..i];
    DedupSnoc(Named(all[..i]), all[i]);
    if all[i].provider == "" { assert Named(all[..i + 1]) == Named(all[..i]); }
  }

  method CollectRefs(all: seq<Ref>) returns (refs: seq<Ref>)
    ensures refs == ProviderRefs(all)
  {
    assert Named(all[..0]) == [];
    refs := [];
    var seen: set<Ref> := {};
    var i := 0;
    while i < |all|
      invariant i <= |all| && refs == ProviderRefs(all[..i])
      invariant forall r :: r in seen <==> r in refs
    {
      hide ProviderRefs;
      RefsSnoc(all, i);
      if all[i].provider != "" && all[i] !in seen {
        seen := seen + {all[i]};
        refs := refs + [all[i]];
      }
      i := i + 1;
    }
    assert all[..i] == all;
  }

  /** The ledger after `n` more attempts of a call were recorded. */
  ghost function Counted(entries: map<string, Entry>, key: string, n: nat): map<string, Entry>
    requires key in entries
  {
    entries[key := entries[key].(attempts := entries[key].attempts + n)]
  }

  /** The trace of the attempts made so far followed by what is still to come. */
  ghost function Then(done: seq<Try>, rest: Trace): Trace {
    Trace(done + rest.tries, rest.end)
  }

  lemma ThenJoins(a: seq<Try>, b: seq<Try>, rest: Trace)
    ensures Then(a, Then(b, rest)) == Then(a + b, rest)
    ensures Then(a, Trace(b, rest.end)) == Trace(a + b, rest.end)
  {
  }

  /** How an attempt ends its provider's loop, if it does. */
  ghost function Closing(request: Request, t: Try, wait: Option<CallError>): Option<End> {
    match t.verdict
    case Accepted(reply) => Some(Answered(reply))
    case Rejected(error) =>
      var f := Normalized(error, t.emitted);
      if StopsRetrying(request, t, f) then Some(GaveUp(f))
      else if wait.Some? then Some(GaveUp(Normalized(wait.value, false)))
      else None
  }

  lemma TryRefUnfolds(request: Request, ref: Ref, attempt: nat, count: nat, script: Script)
    ensures var turn := script(count);
            var t := TryOnce(request, ref, attempt, turn.run);
            TryRef(request, ref, attempt, count, script) ==
            if turn.recorded.Some? then Trace([], Unrecorded(turn.recorded.value))
            else match Closing(request, t, turn.wait)
              case Some(end) => Trace([t], end)
              case None => Then([t], TryRef(request, ref, attempt + 1, count + 1, script))
  {
    hide Normalized;
  }

  class Caller {
    /** Everything this caller's sink has received. */
    var heard: seq<Event>

    constructor ()
      ensures heard == []
    {
      heard := [];
    }

    /** The attempt's sink: buffers until the first content event, then passes events on. */
    method Receive(limits: Limits, events: seq<Event>)
      returns (pending: seq<Event>, emitted: bool, over: bool, completed: bool)
      modifies this
      ensures var s := PushAll(limits, events);
              && pending == s.pending && emitted == s.emitted && over == s.over && completed == s.completed
              && heard == old(heard) + s.delivered
    {
      hide HasContent, ContentOf, Bytes, Exceeds, PushAll;
      NothingPushed(limits);
      pending, emitted, over, completed := [], false, false, false;
      var bytes: nat, runes: nat := 0, 0;
      ghost var delivered: seq<Event> := [];
      var i := 0;
      while i < |events|
        invariant i <= |events|
        invariant PushAll(limits, events[..i]) == Sink(pending, emitted, bytes, runes, over, completed, delivered)
        invariant heard == old(heard) + delivered
      {
        PushedOne(limits, events, i);
        var e := events[i];
        if !over {
          completed := completed || e.kind == Completion;
          if HasContent(e) {
            bytes, runes := bytes + Bytes(ContentOf(e)), runes + |ContentOf(e)|;
            if Exceeds(limits, bytes, runes) {
              over := true;
            } else {
              emitted := true;
              heard := heard + pending + [e];
              delivered := delivered + pending + [e];
              pending := [];
            }
          } else if !emitted {
            if |pending| < MAX_PENDING { pending := pending + [e]; }
          } else {
            heard := heard + [e];
            delivered := delivered + [e];
          }
        }
        i := i + 1;
      }
      assert events[..i] == events;
    }

    /** Calls a provider once and judges its answer. */
    method Attempt(request: Request, ref: Ref, attempt: nat, run: Run) returns (verdict: Verdict, emitted: bool)
      modifies this
      ensures var t := TryOnce(request, ref, attempt, run);
              verdict == t.verdict && emitted == t.emitted && heard == old(heard) + t.delivered
    {
      hide PushAll, Judge, Normalized, CompletionOf;
      SinkKeepsQuiet(request.limits, run.events);
      var pending: seq<Event>, over, completed := [], false, false;
      emitted := false;
      if request.streaming { pending, emitted, over, completed := Receive(request.limits, run.events); }
      verdict := Judge(request, over, run.answer);
      match verdict
      case Accepted(reply) =>
        if request.streaming {
          heard := heard + pending;
          if !completed { heard := heard + [CompletionOf(reply)]; }
        }
      case Rejected(error) =>
        if emitted { heard := heard + [Event(ErrorEvent, [], None, Some(Normalized(error, true)))]; }
    }

    /** Tries one provider up to the policy's limit. */
    method TryProvider(request: Request, ref: Ref, ledger: CallLedger, key: string, count: nat, script: Script)
      returns (end: End, attempts: nat, ghost done: seq<Try>)
      requires key in ledger.entries && ledger.entries[key].status == InProgress
      modifies this, ledger
      ensures Trace(done, end) == TryRef(request, ref, 1, count, script)
      ensures attempts == Attempts(Trace(done, end))
      ensures heard == old(heard) + Heard(done)
      ensures ledger.entries == Counted(old(ledger.entries), key, |done|)
    {
      hide TryOnce, Normalized, TryRef, Heard;
      attempts, done := 0, [];
      NothingHeard();
      var attempt := 1;
      while true
        invariant attempt == |done| + 1 && attempts == |done|
        invariant TryRef(request, ref, 1, count, script) ==
                  Then(done, TryRef(request, ref, attempt, count + |done|, script))
        invariant heard == old(heard) + Heard(done)
        invariant ledger.entries == Counted(old(ledger.entries), key, |done|)
        decreases request.maxAttempts - attempt
      {
        var turn := script(count + attempts);
        ghost var t := TryOnce(request, ref, attempt, turn.run);
        ghost var rest := TryRef(request, ref, attempt + 1, count + attempts + 1, script);
        TryRefUnfolds(request, ref, attempt, count + attempts, script);
        attempts := attempts + 1;
        if turn.recorded.Some? { return Unrecorded(turn.recorded.value), attempts, done; }
        var recorded := ledger.Attempt(key);
        var verdict, emitted := Attempt(request, ref, attempt, turn.run);
        HeardSnoc(done, t);
        ThenJoins(done, [t], rest);
        done := done + [t];
        if verdict.Accepted? { return Answered(verdict.reply), attempts, done; }
        var failure := Normalized(verdict.error, emitted);
        if emitted || !failure.retryable || failure.code !in request.retryableCodes || attempt >= request.maxAttempts {
          TryKeepsItsNumber(request, ref, attempt, turn.run);
          return GaveUp(failure), attempts, done;
        }
        TryKeepsItsNumber(request, ref, attempt, turn.run);
        if turn.wait.Some? { return GaveUp(Normalized(turn.wait.value, false)), attempts, done; }
        attempt := attempt + 1;
      }
    }

    /** One gateway call: admission through the ledger, retries and fallbacks, the terminal record. */
    method Execute(request: Request, primary: Ref, fallbacks: seq<Ref>, ledger: CallLedger, key: string, hash: string,
                   script: Script, finishWrites: bool) returns (r: Reported)
      modifies this, ledger
      ensures primary.provider !in request.registered ==>
                r == NotAdmitted && heard == old(heard) && ledger.entries == old(ledger.entries)
      ensures primary.provider in request.registered && key in old(ledger.entries) ==>
                && ledger.entries == old(ledger.entries)
                && var e := old(ledger.entries)[key];
                   if e.hash != hash then r == HashConflict && heard == old(heard)
                   else if e.status == InProgress then r == AlreadyRunning && heard == old(heard)
                   else
                     && r == Replayed(e.status.outcome)
                     && heard == old(heard) + if request.streaming && e.status.outcome.ReplyOutcome?
                                              then [CompletionOf(e.status.outcome.reply)] else []
      ensures primary.provider in request.registered && key !in old(ledger.entries) ==>
                var trace := Call(request, [primary] + fallbacks, script);
                && heard == old(heard) + Heard(trace.tries)
                && r == (if finishWrites then Performed(OutcomeOf(trace.end)) else FinishLost)
                && ledger.entries == old(ledger.entries)[key :=
                     if finishWrites then Entry(hash, Concluded(OutcomeOf(trace.end)), Attempts(trace))
                     else Entry(hash, InProgress, |trace.tries|)]
    {
      hide TryRef, TryOnce, Normalized;
      if primary.provider !in request.registered { return NotAdmitted; }
      var started := ledger.Start(key, hash);
      match started {
        case Mismatch => return HashConflict;
        case Existing(entry) =>
          match entry.status {
            case InProgress => return AlreadyRunning;
            case Concluded(outcome) =>
              if request.streaming && outcome.ReplyOutcome? { heard := heard + [CompletionOf(outcome.reply)]; }
              return Replayed(outcome);
          }
        case Fresh =>
      }
      var end, attempts := TryEach(request, [primary] + fallbacks, ledger, key, script);
      if !finishWrites { return FinishLost; }
      var outcome := OutcomeOf(end);
      var done := ledger.Finish(key, outcome, attempts);
      r := Performed(outcome);
    }

    /** The loop over providers. */
    method TryEach(request: Request, all: seq<Ref>, ledger: CallLedger, key: string, script: Script)
      returns (end: End, attempts: nat)
      requires key in ledger.entries && ledger.entries[key].status == InProgress
      modifies this, ledger
      ensures end == Call(request, all, script).end
      ensures attempts == Attempts(Call(request, all, script))
      ensures heard == old(heard) + Heard(Call(request, all, script).tries)
      ensures ledger.entries == Counted(old(ledger.entries), key, |Call(request, all, script).tries|)
    {
      hide TryRef, TryOnce, Normalized, ProviderRefs, TryRefs, Heard;
      var refs := CollectRefs(all);
      var last := UNREGISTERED;
      ghost var done: seq<Try> := [];
      NothingHeard();
      attempts := 0;
      var i := 0;
      assert refs[0..] == refs;
      while i < |refs|
        invariant i <= |refs| && attempts == |done|
        invariant Call(request, all, script) == Then(done, TryRefs(request, refs[i..], attempts, last, script))
        invariant heard == old(heard) + Heard(done)
        invariant ledger.entries == Counted(old(ledger.entries), key, |done|)
      {
        TryRefsUnfolds(request, refs, i, attempts, last, script);
        if refs[i].provider !in request.registered {
          last := UNREGISTERED;
        } else {
          var ended, made;
          ghost var more;
          ended, made, more := TryProvider(request, refs[i], ledger, key, attempts, script);
          HeardAdds(done, more);
          if ended.Answered? || ended.Unrecorded? || ended.failure.contentEmitted { return ended, attempts + made; }
          last := ended.failure;
          attempts := attempts + made;
          ThenJoins(done, more, TryRefs(request, refs[i + 1..], attempts, last, script));
          done := done + more;
        }
        i := i + 1;
      }
      TryRefsUnfolds(request, refs, i, attempts, last, script);
      ThenJoins(done, [], Trace([], GaveUp(last)));
      assert done + [] == done;
      end := GaveUp(last);
    }
  }

  lemma TryRefsUnfolds(request: Request, refs: seq<Ref>, i: nat, count: nat, last: Failure, script: Script)
    requires i <= |refs|
    ensures TryRefs(request, refs[i..], count, last, script) ==
            if i == |refs| then Trace([], GaveUp(last))
            else if refs[i].provider !in request.registered
            then TryRefs(request, refs[i + 1..], count, UNREGISTERED, script)
            else
              var first := TryRef(request, refs[i], 1, count, script);
              if first.end.GaveUp? && !first.end.failure.contentEmitted
              then Then(first.tries, TryRefs(request, refs[i + 1..], count + |first.tries|, first.end.failure, script))
              else first
  {
    hide TryRef;
    if i < |refs| { assert refs[i..][1..] == refs[i + 1..]; }
  }

  lemma NothingHeard()
    ensures Heard([]) == []
  {
  }

  lemma NothingPushed(limits: Limits)
    ensures PushAll(limits, []) == EMPTY_SINK
  {
  }

  lemma PushedOne(limits: Limits, events: seq<Event>, i: nat)
    requires i < |events|
    ensures PushAll(limits, events[..i + 1]) == Push(limits, PushAll(limits, events[..i]), events[i])
  {
    hide Push;
    assert events[..i + 1][..i] == events[..i];
  }

  lemma {:induction false} SinkKeepsQuiet(limits: Limits, events: seq<Event>)
    ensures !PushAll(limits, events).emitted ==> PushAll(limits, events).delivered == []
  {
    if events != [] { SinkKeepsQuiet(limits, events[..|events| - 1]); }
  }

  lemma TryKeepsItsNumber(request: Request, ref: Ref, attempt: nat, run: Run)
    ensures var t := TryOnce(request, ref, attempt, run);
            t.ref == ref && t.attempt == attempt && t.run == run
  {
  }

  lemma HeardSnoc(done: seq<Try>, t: Try)
    ensures Heard(done + [t]) == Heard(done) + t.delivered
  {
    assert (done + [t])[..|done|] == done;
  }

  lemma {:induction false} HeardAdds(a: seq<Try>, b: seq<Try>)
    ensures Heard(a + b) == Heard(a) + Heard(b)
  {
    if b == [] {
      assert a + b == a;
    } else {
      assert (a + b)[..|a + b| - 1] == a + b[..|b| - 1];
      HeardAdds(a, b[..|b| - 1]);
    }
  }
}

/** What the caller of one gateway call can rely on, whatever the providers do. */
module GatewayStream {
  import opened Basics
  import opened Distinctness
  import opened Gateway

  // ----- The stream of one attempt -----

  function ContentBytes(events: seq<Event>): nat {
    if events == [] then 0
    else ContentBytes(events[..|events| - 1]) +
         if HasContent(events[|events| - 1]) then Bytes(ContentOf(events[|events| - 1])) else 0
  }

  function ContentRunes(events: seq<Event>): nat {
    if events == [] then 0
    else ContentRunes(events[..|events| - 1]) +
         if HasContent(events[|events| - 1]) then |ContentOf(events[|events| - 1])| else 0
  }

  predicate Within(limits: Limits, events: seq<Event>) {
    !Exceeds(limits, ContentBytes(events), ContentRunes(events))
  }

  /** How many leading events fit the output limits; the first that does not ends the stream. */
  function Cut(limits: Limits, events: seq<Event>): (n: nat)
    ensures n <= |events|
  {
    if events == [] then 0
    else
      var n := Cut(limits, events[..|events| - 1]);
      if n == |events| - 1 && Within(limits, events) then |events| else n
  }

  /** The index of the first content event, or the length when there is none. */
  function FirstContent(events: seq<Event>): (f: nat)
    ensures f <= |events|
    ensures forall i :: 0 <= i < f ==> !HasContent(events[i])
    ensures f < |events| ==> HasContent(events[f])
  {
    if events == [] then 0 else if HasContent(events[0]) then 0 else 1 + FirstContent(events[1..])
  }

  function Buffered(events: seq<Event>): seq<Event> {
    if |events| <= MAX_PENDING then events else events[..MAX_PENDING]
  }

  /** The part of a stream the caller is shown while it runs: nothing before content, then
      the buffered head and everything up to the limit. */
  function Window(limits: Limits, events: seq<Event>): seq<Event> {
    var shown := events[..Cut(limits, events)];
    var f := FirstContent(shown);
    if f == |shown| then [] else Buffered(shown[..f]) + shown[f..]
  }

  lemma FirstContentIs(events: seq<Event>, f: nat)
    requires f <= |events| && (forall i :: 0 <= i < f ==> !HasContent(events[i]))
    requires f < |events| ==> HasContent(events[f])
    ensures FirstContent(events) == f
  {
  }

  lemma FirstContentSnoc(front: seq<Event>, last: Event)
    ensures FirstContent(front + [last]) ==
            if FirstContent(front) < |front| then FirstContent(front)
            else if HasContent(last) then |front| else |front| + 1
  {
    hide HasContent;
    var f := FirstContent(front);
    FirstContentIs(front + [last], if f < |front| then f else if HasContent(last) then |front| else |front| + 1);
  }

  /** The closure's state after a stream, told without the closure. */
  ghost predicate Mirrors(limits: Limits, events: seq<Event>, s: Sink) {
    var shown := events[..Cut(limits, events)];
    && s.over == (|shown| < |events|)
    && (!s.over ==> s.bytes == ContentBytes(events) && s.runes == ContentRunes(events))
    && s.emitted == (FirstContent(shown) < |shown|)
    && s.delivered == Window(limits, events)
    && s.pending == if s.emitted then [] else Buffered(shown)
  }

  /** The buffering closure, event by event, shows exactly the window of the whole stream. */
  lemma {:induction false} SinkShowsTheWindow(limits: Limits, events: seq<Event>)
    ensures Mirrors(limits, events, PushAll(limits, events))
  {
    if events == [] {
      FirstContentIs([], 0);
    } else {
      var front, last := events[..|events| - 1], events[|events| - 1];
      SinkShowsTheWindow(limits, front);
      assert events == front + [last];
      if Cut(limits, front) < |front| {
        SinkIsShut(limits, front, last);
      } else {
        SinkTakesOneMore(limits, front, last);
      }
    }
  }

  lemma SinkIsShut(limits: Limits, front: seq<Event>, last: Event)
    requires Cut(limits, front) < |front| && Mirrors(limits, front, PushAll(limits, front))
    ensures Mirrors(limits, front + [last], PushAll(limits, front + [last]))
  {
    hide HasContent, ContentOf, Bytes, Exceeds, FirstContent;
    var events := front + [last];
    assert events[..|events| - 1] == front;
    assert events[..Cut(limits, events)] == front[..Cut(limits, front)];
  }

  lemma WindowGrows(limits: Limits, front: seq<Event>, last: Event)
    requires Cut(limits, front) == |front|
    ensures var events := front + [last];
            var shown := events[..Cut(limits, events)];
            var f := FirstContent(front);
            && ContentBytes(events) == ContentBytes(front) + (if HasContent(last) then Bytes(ContentOf(last)) else 0)
            && ContentRunes(events) == ContentRunes(front) + (if HasContent(last) then |ContentOf(last)| else 0)
            && shown == (if Within(limits, events) then events else front)
            && FirstContent(shown) ==
               (if f < |front| || !Within(limits, events) then f else if HasContent(last) then |front| else |front| + 1)
            && Window(limits, events) ==
               if !Within(limits, events) then Window(limits, front)
               else if f < |front| then Window(limits, front) + [last]
               else if HasContent(last) then Buffered(front) + [last]
               else []
  {
    hide HasContent, ContentOf, Bytes, Exceeds, FirstContent;
    var events := front + [last];
    assert events[..|events| - 1] == front && front[..|front|] == front;
    FirstContentSnoc(front, last);
    var f := FirstContent(front);
    assert events[..f] == front[..f] && events[f..] == front[f..] + [last];
    assert events[..|events|] == events && events[..|front|] == front;
  }

  lemma SinkTakesOneMore(limits: Limits, front: seq<Event>, last: Event)
    requires Cut(limits, front) == |front| && Mirrors(limits, front, PushAll(limits, front))
    ensures Mirrors(limits, front + [last], PushAll(limits, front + [last]))
  {
    hide HasContent, ContentOf, Bytes, FirstContent, Window, Cut, ContentBytes, ContentRunes, Mirrors, Push;
    var events := front + [last];
    assert events[..|events| - 1] == front;
    WindowGrows(limits, front, last);
    if !Within(limits, events) {
      SinkOverflows(limits, front, last);
    } else if HasContent(last) {
      SinkPassesContent(limits, front, last);
    } else {
      SinkKeepsTheRest(limits, front, last);
    }
  }

  lemma SinkOverflows(limits: Limits, front: seq<Event>, last: Event)
    requires Cut(limits, front) == |front| && Mirrors(limits, front, PushAll(limits, front))
    requires !Within(limits, front + [last])
    ensures Mirrors(limits, front + [last], Push(limits, PushAll(limits, front), last))
  {
    hide ContentOf, Bytes, FirstContent, Window, Cut, ContentBytes, ContentRunes, HasContent;
    assert front[..|front|] == front;
    CutIsWithin(limits, front);
    WindowGrows(limits, front, last);
  }

  lemma SinkPassesContent(limits: Limits, front: seq<Event>, last: Event)
    requires Cut(limits, front) == |front| && Mirrors(limits, front, PushAll(limits, front))
    requires Within(limits, front + [last]) && HasContent(last)
    ensures Mirrors(limits, front + [last], Push(limits, PushAll(limits, front), last))
  {
    hide ContentOf, Bytes, FirstContent, Window, Cut, ContentBytes, ContentRunes, HasContent;
    assert front[..|front|] == front;
    WindowGrows(limits, front, last);
    QuietFrontWindow(limits, front);
  }

  lemma SinkKeepsTheRest(limits: Limits, front: seq<Event>, last: Event)
    requires Cut(limits, front) == |front| && Mirrors(limits, front, PushAll(limits, front))
    requires Within(limits, front + [last]) && !HasContent(last)
    ensures Mirrors(limits, front + [last], Push(limits, PushAll(limits, front), last))
  {
    hide ContentOf, Bytes, FirstContent, Window, Cut, ContentBytes, ContentRunes, HasContent;
    assert front[..|front|] == front;
    WindowGrows(limits, front, last);
    QuietFrontWindow(limits, front);
  }

  lemma QuietFrontWindow(limits: Limits, front: seq<Event>)
    requires Cut(limits, front) == |front|
    ensures FirstContent(front) == |front| ==> Window(limits, front) == []
  {
    assert front[..|front|] == front;
  }

  lemma {:induction false} ContentAdds(a: seq<Event>, b: seq<Event>)
    ensures ContentBytes(a + b) == ContentBytes(a) + ContentBytes(b)
    ensures ContentRunes(a + b) == ContentRunes(a) + ContentRunes(b)
  {
    hide HasContent, ContentOf, Bytes;
    if b == [] {
      assert a + b == a;
    } else {
      assert (a + b)[..|a + b| - 1] == a + b[..|b| - 1];
      ContentAdds(a, b[..|b| - 1]);
    }
  }

  lemma {:induction false} CutIsWithin(limits: Limits, events: seq<Event>)
    ensures Within(limits, events[..Cut(limits, events)])
  {
    hide HasContent, ContentOf, Bytes;
    if events != [] {
      var front := events[..|events| - 1];
      CutIsWithin(limits, front);
      if Cut(limits, events) < |events| {
        assert events[..Cut(limits, events)] == front[..Cut(limits, front)];
      } else {
        assert events[..Cut(limits, events)] == events;
      }
    }
  }

  lemma WindowIsWithin(limits: Limits, events: seq<Event>)
    ensures Within(limits, Window(limits, events))
  {
    hide HasContent, ContentOf, Bytes, FirstContent;
    CutIsWithin(limits, events);
    var shown := events[..Cut(limits, events)];
    var f := FirstContent(shown);
    if f < |shown| {
      assert shown == shown[..f] + shown[f..];
      assert shown[..f] == Buffered(shown[..f]) + shown[..f][|Buffered(shown[..f])|..];
      ContentAdds(shown[..f], shown[f..]);
      ContentAdds(Buffered(shown[..f]), shown[..f][|Buffered(shown[..f])|..]);
      ContentAdds(Buffered(shown[..f]), shown[f..]);
    }
  }

  // ----- Text deltas -----

  function Deltas(events: seq<Event>): Text {
    if events == [] then [] else Deltas(events[..|events| - 1]) + events[|events| - 1].delta
  }

  lemma {:induction false} BytesAdd(a: Text, b: Text)
    ensures Bytes(a + b) == Bytes(a) + Bytes(b)
  {
    if b == [] {
      assert a + b == a;
    } else {
      assert (a + b)[..|a + b| - 1] == a + b[..|b| - 1];
      BytesAdd(a, b[..|b| - 1]);
    }
  }

  lemma {:induction false} DeltasFitContent(events: seq<Event>)
    ensures Bytes(Deltas(events)) <= ContentBytes(events) && |Deltas(events)| <= ContentRunes(events)
  {
    if events != [] {
      DeltasFitContent(events[..|events| - 1]);
      BytesAdd(Deltas(events[..|events| - 1]), events[|events| - 1].delta);
    }
  }

  lemma {:induction false} DeltasAdd(a: seq<Event>, b: seq<Event>)
    ensures Deltas(a + b) == Deltas(a) + Deltas(b)
  {
    if b == [] {
      assert a + b == a;
    } else {
      assert (a + b)[..|a + b| - 1] == a + b[..|b| - 1];
      DeltasAdd(a, b[..|b| - 1]);
    }
  }

  lemma {:induction false} PendingHasNoDeltas(events: seq<Event>)
    requires forall i :: 0 <= i < |events| ==> !HasContent(events[i])
    ensures Deltas(events) == []
  {
    if events != [] { PendingHasNoDeltas(events[..|events| - 1]); }
  }

  lemma NoTextIsWithin(limits: Limits)
    ensures !Exceeds(limits, Bytes([]), 0)
  {
  }

  /** The text of one attempt, as delivered, is the window's and so respects the output limits. */
  lemma TryTextIsTheWindows(request: Request, ref: Ref, attempt: nat, run: Run)
    ensures Deltas(TryOnce(request, ref, attempt, run).delivered) ==
            if request.streaming then Deltas(Window(request.limits, run.events)) else []
    ensures !Exceeds(request.limits, Bytes(Deltas(TryOnce(request, ref, attempt, run).delivered)),
                     |Deltas(TryOnce(request, ref, attempt, run).delivered)|)
  {
    hide HasContent, ContentOf, Bytes, Judge, FirstContent, PushAll, Window;
    var t := TryOnce(request, ref, attempt, run);
    if request.streaming {
      SinkShowsTheWindow(request.limits, run.events);
      WindowIsWithin(request.limits, run.events);
      DeltasFitContent(Window(request.limits, run.events));
      TailHasNoText(request, ref, attempt, run);
    } else {
      assert t.delivered == [];
      NoTextIsWithin(request.limits);
    }
  }

  lemma TailHasNoText(request: Request, ref: Ref, attempt: nat, run: Run)
    requires request.streaming
    ensures Deltas(TryOnce(request, ref, attempt, run).delivered) == Deltas(PushAll(request.limits, run.events).delivered)
  {
    hide HasContent, ContentOf, Bytes, Judge, PushAll, Normalized;
    SinkShowsTheWindow(request.limits, run.events);
    var s := PushAll(request.limits, run.events);
    var shown := run.events[..Cut(request.limits, run.events)];
    PendingHasNoDeltas(s.pending);
    match TryOnce(request, ref, attempt, run).verdict
    case Accepted(reply) =>
      var tail := if s.completed then [] else [CompletionOf(reply)];
      DeltasAdd(s.delivered + s.pending, tail);
      DeltasAdd(s.delivered, s.pending);
      assert Deltas(tail) == [];
    case Rejected(error) =>
      if s.emitted {
        DeltasAdd(s.delivered, [Event(ErrorEvent, [], None, Some(Normalized(error, true)))]);
      } else {
        assert s.delivered == [];
      }
  }

  // ----- Retries and fallbacks -----

  ghost predicate Genuine(request: Request, t: Try) {
    t == TryOnce(request, t.ref, t.attempt, t.run)
  }

  /** The failure an attempt is filed under; an accepted one has none. */
  function FailureOf(t: Try): Failure {
    match t.verdict
    case Accepted(_) => UNREGISTERED
    case Rejected(error) => Normalized(error, t.emitted)
  }

  /** What allows `next` to follow `t`: nothing was shown, and either the same provider is
      retried as the policy permits or the next provider starts over. */
  ghost predicate MayFollow(request: Request, t: Try, next: Try) {
    && t.verdict.Rejected? && !t.emitted && t.delivered == []
    && if next.ref == t.ref
       then next.attempt == t.attempt + 1 && FailureOf(t).retryable && FailureOf(t).code in request.retryableCodes
       else next.attempt == 1
  }

  ghost predicate LegalTries(request: Request, tries: seq<Try>) {
    && (forall i :: 0 <= i < |tries| ==>
          Genuine(request, tries[i]) && 1 <= tries[i].attempt <= Max(1, request.maxAttempts))
    && (forall i :: 0 <= i < |tries| - 1 ==> MayFollow(request, tries[i], tries[i + 1]))
  }

  /** How a call's end follows from its last attempt. */
  ghost predicate EndsWith(tries: seq<Try>, end: End) {
    match end
    case Answered(reply) => tries != [] && tries[|tries| - 1].verdict == Accepted(reply)
    case Unrecorded(_) => tries == [] || (tries[|tries| - 1].verdict.Rejected? && !tries[|tries| - 1].emitted)
    case GaveUp(f) =>
      tries != [] ==>
        && tries[|tries| - 1].verdict.Rejected?
        && (tries[|tries| - 1].emitted ==> f == FailureOf(tries[|tries| - 1]) && f.contentEmitted)
  }

  lemma QuietWithoutContent(request: Request, t: Try)
    requires Genuine(request, t) && t.verdict.Rejected? && !t.emitted
    ensures t.delivered == []
  {
  }

  /** What holds of the trace over one provider, from a given attempt on. */
  ghost predicate LegalRetries(request: Request, ref: Ref, attempt: nat, r: Trace) {
    && LegalTries(request, r.tries)
    && EndsWith(r.tries, r.end)
    && (r.tries == [] ==> r.end.Unrecorded?)
    && (r.tries != [] ==> r.tries[0].attempt == attempt)
    && (forall i :: 0 <= i < |r.tries| ==> r.tries[i].ref == ref)
    && |r.tries| <= Max(1, request.maxAttempts) + 1 - attempt
  }

  lemma OneTryIsLegal(request: Request, t: Try, end: End)
    requires Genuine(request, t) && 1 <= t.attempt <= Max(1, request.maxAttempts) && !end.Unrecorded?
    requires EndsWith([t], end)
    ensures LegalRetries(request, t.ref, t.attempt, Trace([t], end))
  {
    hide TryOnce;
  }

  lemma RetryJoins(request: Request, t: Try, rest: Trace)
    requires Genuine(request, t) && 1 <= t.attempt < request.maxAttempts
    requires t.verdict.Rejected? && !t.emitted && t.delivered == []
    requires FailureOf(t).retryable && FailureOf(t).code in request.retryableCodes
    requires LegalRetries(request, t.ref, t.attempt + 1, rest)
    ensures LegalRetries(request, t.ref, t.attempt, Trace([t] + rest.tries, rest.end))
  {
    hide TryOnce, FailureOf, Genuine;
    var all := [t] + rest.tries;
    forall i | 0 <= i < |all| - 1 ensures MayFollow(request, all[i], all[i + 1]) {
      if i > 0 { assert MayFollow(request, rest.tries[i - 1], rest.tries[i]); }
    }
    assert rest.tries == [] ==> all == [t];
    assert EndsWith(all, rest.end);
  }

  lemma {:induction false} OneProviderIsLegal(request: Request, ref: Ref, attempt: nat, count: nat, script: Script)
    requires attempt >= 1 && (attempt == 1 || attempt <= request.maxAttempts)
    ensures LegalRetries(request, ref, attempt, TryRef(request, ref, attempt, count, script))
    decreases request.maxAttempts - attempt
  {
    hide TryOnce, Normalized, LegalRetries, FailureOf, Genuine;
    var turn := script(count);
    if turn.recorded.Some? {
      NoRetriesAreLegal(request, ref, attempt, turn.recorded.value);
    } else {
      var t := TryOnce(request, ref, attempt, turn.run);
      TryKnowsItself(request, ref, attempt, turn.run);
      if t.verdict.Rejected? && !StopsRetrying(request, t, Normalized(t.verdict.error, t.emitted)) && turn.wait.None? {
        QuietWithoutContent(request, t);
        OneProviderIsLegal(request, ref, attempt + 1, count + 1, script);
        RetryJoins(request, t, TryRef(request, ref, attempt + 1, count + 1, script));
      } else {
        OneTryIsLegal(request, t, TryRef(request, ref, attempt, count, script).end);
      }
    }
  }

  lemma NoRetriesAreLegal(request: Request, ref: Ref, attempt: nat, error: CallError)
    requires attempt >= 1 && (attempt == 1 || attempt <= request.maxAttempts)
    ensures LegalRetries(request, ref, attempt, Trace([], Unrecorded(error)))
  {
  }

  lemma TryKnowsItself(request: Request, ref: Ref, attempt: nat, run: Run)
    ensures var t := TryOnce(request, ref, attempt, run);
            && Genuine(request, t) && t.ref == ref && t.attempt == attempt && t.run == run
            && (t.verdict.Rejected? ==> Normalized(t.verdict.error, t.emitted) == FailureOf(t))
            && (t.emitted && t.verdict.Rejected? ==> FailureOf(t).contentEmitted)
  {
  }

  lemma LegalJoin(request: Request, a: seq<Try>, b: seq<Try>)
    requires LegalTries(request, a) && LegalTries(request, b)
    requires a != [] ==> a[|a| - 1].verdict.Rejected? && !a[|a| - 1].emitted && a[|a| - 1].delivered == []
    requires a != [] && b != [] ==> b[0].ref != a[|a| - 1].ref && b[0].attempt == 1
    ensures LegalTries(request, a + b)
  {
    hide Genuine, FailureOf;
    var all := a + b;
    forall i | 0 <= i < |all| - 1 ensures MayFollow(request, all[i], all[i + 1]) {
      if i + 1 < |a| {
        assert MayFollow(request, a[i], a[i + 1]);
      } else if i >= |a| {
        assert MayFollow(request, b[i - |a|], b[i - |a| + 1]);
      }
    }
  }

  /** Attempts come in the order in which the references are listed. */
  ghost predicate InListOrder(refs: seq<Ref>, tries: seq<Try>) {
    forall i, j, p, q :: (0 <= i < j < |tries| && 0 <= p < |refs| && 0 <= q < |refs|
                          && refs[p] == tries[i].ref && refs[q] == tries[j].ref) ==> p <= q
  }

  /** What holds of the trace over a list of providers. */
  ghost predicate LegalTrace(request: Request, refs: seq<Ref>, r: Trace) {
    && LegalTries(request, r.tries)
    && EndsWith(r.tries, r.end)
    && (r.tries != [] ==> r.tries[0].attempt == 1)
    && (forall i :: 0 <= i < |r.tries| ==> r.tries[i].ref in refs)
    && InListOrder(refs, r.tries)
    && |r.tries| <= |refs| * Max(1, request.maxAttempts)
  }

  lemma OrdersJoin(refs: seq<Ref>, first: seq<Try>, rest: seq<Try>)
    requires refs != [] && Distinct(refs) && InListOrder(refs[1..], rest)
    requires forall i :: 0 <= i < |first| ==> first[i].ref == refs[0]
    requires forall i :: 0 <= i < |rest| ==> rest[i].ref in refs[1..]
    ensures InListOrder(refs, first + rest)
  {
    var all := first + rest;
    forall i, j, p, q | 0 <= i < j < |all| && 0 <= p < |refs| && 0 <= q < |refs|
      && refs[p] == all[i].ref && refs[q] == all[j].ref
      ensures p <= q
    {
      if i >= |first| {
        assert all[i] == rest[i - |first|] && all[j] == rest[j - |first|];
        assert p > 0 && q > 0;
        assert refs[1..][p - 1] == rest[i - |first|].ref && refs[1..][q - 1] == rest[j - |first|].ref;
      } else {
        assert all[i] == first[i];
      }
    }
  }

  lemma TracesJoin(request: Request, refs: seq<Ref>, first: Trace, rest: Trace)
    requires refs != [] && Distinct(refs)
    requires LegalRetries(request, refs[0], 1, first) && LegalTrace(request, refs[1..], rest)
    requires first.end.GaveUp? && !first.end.failure.contentEmitted
    ensures LegalTrace(request, refs, Trace(first.tries + rest.tries, rest.end))
  {
    hide LegalTries, EndsWith, InListOrder;
    BoundGrows(|refs| - 1, Max(1, request.maxAttempts));
    LastIsQuiet(request, first);
    HeadIsElsewhere(refs);
    LegalJoin(request, first.tries, rest.tries);
    EndsJoin(first, rest);
    OrdersJoin(refs, first.tries, rest.tries);
  }

  lemma HeadIsElsewhere(refs: seq<Ref>)
    requires refs != [] && Distinct(refs)
    ensures refs[0] !in refs[1..] && Distinct(refs[1..])
  {
    assert forall i :: 0 <= i < |refs[1..]| ==> refs[1..][i] == refs[i + 1];
  }

  lemma OneProviderTrace(request: Request, refs: seq<Ref>, first: Trace)
    requires refs != [] && Distinct(refs) && LegalRetries(request, refs[0], 1, first)
    ensures LegalTrace(request, refs, first)
  {
    hide LegalTries, EndsWith;
    BoundGrows(|refs| - 1, Max(1, request.maxAttempts));
  }

  lemma SkippedProviderTrace(request: Request, refs: seq<Ref>, rest: Trace)
    requires refs != [] && Distinct(refs) && LegalTrace(request, refs[1..], rest)
    ensures LegalTrace(request, refs, rest)
  {
    hide LegalTries, EndsWith;
    BoundGrows(|refs| - 1, Max(1, request.maxAttempts));
    OrdersJoin(refs, [], rest.tries);
    assert [] + rest.tries == rest.tries;
  }

  lemma EndsJoin(first: Trace, rest: Trace)
    requires EndsWith(first.tries, first.end) && EndsWith(rest.tries, rest.end) && first.tries != []
    requires first.end.GaveUp? && !first.end.failure.contentEmitted
    ensures EndsWith(first.tries + rest.tries, rest.end)
  {
    if rest.tries == [] { assert first.tries + rest.tries == first.tries; }
  }

  lemma {:induction false} AllProvidersAreLegal(
      request: Request, refs: seq<Ref>, count: nat, last: Failure, script: Script)
    requires Distinct(refs)
    ensures LegalTrace(request, refs, TryRefs(request, refs, count, last, script))
    decreases |refs|, 1
  {
    if refs == [] {
      NoTriesAreLegal(request, last);
    } else if refs[0].provider !in request.registered {
      hide LegalTrace, Distinct;
      HeadIsElsewhere(refs);
      AllProvidersAreLegal(request, refs[1..], count, UNREGISTERED, script);
      SkippedProviderTrace(request, refs, TryRefs(request, refs[1..], count, UNREGISTERED, script));
    } else {
      RegisteredFirstIsLegal(request, refs, count, last, script);
    }
  }

  lemma {:induction false} RegisteredFirstIsLegal(
      request: Request, refs: seq<Ref>, count: nat, last: Failure, script: Script)
    requires Distinct(refs) && refs != [] && refs[0].provider in request.registered
    ensures LegalTrace(request, refs, TryRefs(request, refs, count, last, script))
    decreases |refs|, 0
  {
    hide TryRef, LegalTrace, LegalRetries, Distinct;
    HeadIsElsewhere(refs);
    var first := TryRef(request, refs[0], 1, count, script);
    OneProviderIsLegal(request, refs[0], 1, count, script);
    if first.end.GaveUp? && !first.end.failure.contentEmitted {
      var rest := TryRefs(request, refs[1..], count + |first.tries|, first.end.failure, script);
      AllProvidersAreLegal(request, refs[1..], count + |first.tries|, first.end.failure, script);
      TracesJoin(request, refs, first, rest);
    } else {
      OneProviderTrace(request, refs, first);
    }
  }

  lemma NoTriesAreLegal(request: Request, last: Failure)
    ensures LegalTrace(request, [], Trace([], GaveUp(last)))
  {
  }

  lemma BoundGrows(n: nat, m: nat)
    ensures (n + 1) * m == n * m + m
  {
  }

  lemma LastIsQuiet(request: Request, r: Trace)
    requires LegalTries(request, r.tries) && EndsWith(r.tries, r.end) && r.tries != []
    requires r.end.GaveUp? && !r.end.failure.contentEmitted
    ensures var t := r.tries[|r.tries| - 1];
            t.verdict.Rejected? && !t.emitted && t.delivered == []
  {
    hide TryOnce;
    assert Genuine(request, r.tries[|r.tries| - 1]);
    QuietWithoutContent(request, r.tries[|r.tries| - 1]);
  }

  // ----- Whole calls -----

  lemma {:induction false} NamedKeepsNames(all: seq<Ref>)
    ensures forall r :: r in Named(all) <==> r in all && r.provider != ""
  {
    if all != [] {
      NamedKeepsNames(all[..|all| - 1]);
      assert all == all[..|all| - 1] + [all[|all| - 1]];
    }
  }

  /** The references tried are the named ones, each once, in the order of first mention. */
  lemma RefsAreDistinctAndComplete(all: seq<Ref>)
    ensures Distinct(ProviderRefs(all))
    ensures forall r :: r in ProviderRefs(all) <==> r in all && r.provider != ""
    ensures forall i, j :: 0 <= i < j < |ProviderRefs(all)| ==>
              FirstAt(Named(all), ProviderRefs(all)[i]) < FirstAt(Named(all), ProviderRefs(all)[j])
  {
    NamedKeepsNames(all);
    DedupKeepsElements(Named(all));
    forall i, j | 0 <= i < j < |ProviderRefs(all)|
      ensures FirstAt(Named(all), ProviderRefs(all)[i]) < FirstAt(Named(all), ProviderRefs(all)[j])
    {
      DedupKeepsOrder(Named(all), i, j);
    }
  }

  /** Whatever providers, ledger and waits do, a call's attempts follow one another as the
      policy allows, its end follows from the last one, and their number is bounded. */
  lemma EveryCallIsLegal(request: Request, all: seq<Ref>, script: Script)
    ensures var r := Call(request, all, script);
            && LegalTries(request, r.tries)
            && EndsWith(r.tries, r.end)
            && (forall i :: 0 <= i < |r.tries| ==> r.tries[i].ref in all)
            && InListOrder(ProviderRefs(all), r.tries)
            && |r.tries| <= |ProviderRefs(all)| * Max(1, request.maxAttempts)
  {
    hide TryRefs, LegalTries, EndsWith, InListOrder, ProviderRefs;
    RefsAreDistinctAndComplete(all);
    AllProvidersAreLegal(request, ProviderRefs(all), 0, UNREGISTERED, script);
  }

  lemma {:induction false} QuietTriesAreUnheard(tries: seq<Try>)
    requires forall i :: 0 <= i < |tries| ==> tries[i].delivered == []
    ensures Heard(tries) == []
  {
    if tries != [] { QuietTriesAreUnheard(tries[..|tries| - 1]); }
  }

  /** The caller's sink hears the last attempt only, as if the ones before had not been made;
      no attempt follows one that showed content; the text stays within the output limits. */
  lemma CallerHearsOneAttempt(request: Request, all: seq<Ref>, script: Script)
    ensures var r := Call(request, all, script);
            && (forall i :: 0 <= i < |r.tries| - 1 ==> !r.tries[i].emitted && r.tries[i].delivered == [])
            && Heard(r.tries) == (if r.tries == [] then [] else r.tries[|r.tries| - 1].delivered)
            && Deltas(Heard(r.tries)) ==
               (if r.tries == [] || !request.streaming then []
                else Deltas(Window(request.limits, r.tries[|r.tries| - 1].run.events)))
            && !Exceeds(request.limits, Bytes(Deltas(Heard(r.tries))), |Deltas(Heard(r.tries))|)
  {
    hide Call, TryOnce, Window, Bytes, FailureOf;
    var r := Call(request, all, script);
    EveryCallIsLegal(request, all, script);
    forall i | 0 <= i < |r.tries| - 1 ensures !r.tries[i].emitted && r.tries[i].delivered == [] {
      assert MayFollow(request, r.tries[i], r.tries[i + 1]);
    }
    if r.tries == [] {
      NoTextIsWithin(request.limits);
    } else {
      var last := r.tries[|r.tries| - 1];
      QuietTriesAreUnheard(r.tries[..|r.tries| - 1]);
      assert Genuine(request, last);
      TryTextIsTheWindows(request, last.ref, last.attempt, last.run);
    }
  }

  /** Content the caller saw is never disowned: the call ends with that attempt's reply or
      with a failure flagged as having emitted content. */
  lemma ShownContentIsReported(request: Request, all: seq<Ref>, script: Script, i: nat)
    requires i < |Call(request, all, script).tries| && Call(request, all, script).tries[i].emitted
    ensures var r := Call(request, all, script);
            && i == |r.tries| - 1
            && match OutcomeOf(r.end)
               case ReplyOutcome(reply) => r.tries[i].verdict == Accepted(reply)
               case FailureOutcome(f) => f == FailureOf(r.tries[i]) && f.contentEmitted
  {
    hide Call, TryOnce, FailureOf, Heard, LegalTries, Window, Deltas, Bytes, Exceeds;
    EveryCallIsLegal(request, all, script);
    CallerHearsOneAttempt(request, all, script);
  }

  /** A failure without content means that every registered reference was tried. */
  lemma {:induction false} NoProviderIsSkipped(
      request: Request, refs: seq<Ref>, count: nat, last: Failure, script: Script, ref: Ref)
    requires ref in refs && ref.provider in request.registered
    requires var r := TryRefs(request, refs, count, last, script);
             r.end.GaveUp? && !r.end.failure.contentEmitted
    ensures exists i :: 0 <= i < |TryRefs(request, refs, count, last, script).tries|
                        && TryRefs(request, refs, count, last, script).tries[i].ref == ref
  {
    hide TryRef;
    var r := TryRefs(request, refs, count, last, script);
    if refs[0].provider !in request.registered {
      NoProviderIsSkipped(request, refs[1..], count, UNREGISTERED, script, ref);
    } else {
      var first := TryRef(request, refs[0], 1, count, script);
      OneProviderIsLegal(request, refs[0], 1, count, script);
      if ref == refs[0] {
        assert first.tries != [];
        assert r.tries[0] == first.tries[0];
      } else if first.end.GaveUp? && !first.end.failure.contentEmitted {
        NoProviderIsSkipped(request, refs[1..], count + |first.tries|, first.end.failure, script, ref);
        var rest := TryRefs(request, refs[1..], count + |first.tries|, first.end.failure, script);
        var i :| 0 <= i < |rest.tries| && rest.tries[i].ref == ref;
        assert r.tries[|first.tries| + i].ref == ref;
      }
    }
  }

  // ----- Accepted replies -----

  /** Within every limit of the request, with usage filled in: no total below its parts,
      and content never counted as no output. */
  predicate FitsRequest(request: Request, reply: Reply) {
    && Bytes(reply.content) <= request.limits.maxOutputBytes
    && reply.outputTokens <= request.limits.maxOutputTokens
    && (request.limits.maxTotalTokens > 0 ==> reply.totalTokens <= request.limits.maxTotalTokens)
    && (request.limits.maxCost > 0.0 ==> reply.cost <= request.limits.maxCost)
    && reply.inputTokens + reply.outputTokens <= reply.totalTokens
    && (reply.content != [] ==> reply.outputTokens > 0)
    && (reply.inputTokens > 0 || request.estimatedInput == 0)
  }

  lemma AcceptedReplyFits(request: Request, over: bool, answer: Answer)
    requires Judge(request, over, answer).Accepted?
    ensures !over && answer.Replied? && !Unusable(answer.reply)
    ensures FitsRequest(request, Judge(request, over, answer).reply)
    ensures Judge(request, over, answer).reply.content == answer.reply.content
  {
    hide Bytes, Unusable;
  }

  /** A call that answers gives a reply its last provider sent, within the request's limits,
      and only from a stream that never exceeded them. */
  lemma AnswersFitTheRequest(request: Request, all: seq<Ref>, script: Script)
    requires Call(request, all, script).end.Answered?
    ensures var r := Call(request, all, script);
            && r.tries != []
            && FitsRequest(request, r.end.reply)
            && var run := r.tries[|r.tries| - 1].run;
               && run.answer.Replied? && run.answer.reply.content == r.end.reply.content
               && (request.streaming ==> Cut(request.limits, run.events) == |run.events|)
  {
    hide Call, LegalTries, Judge, FitsRequest, PushAll, Mirrors, Cut;
    EveryCallIsLegal(request, all, script);
    var r := Call(request, all, script);
    LegalTriesAreGenuine(request, r.tries);
    var t := r.tries[|r.tries| - 1];
    SinkEnd(request.limits, t.run.events);
    AcceptedReplyFits(request, request.streaming && PushAll(request.limits, t.run.events).over, t.run.answer);
  }

  lemma LegalTriesAreGenuine(request: Request, tries: seq<Try>)
    requires LegalTries(request, tries)
    ensures forall i :: 0 <= i < |tries| ==> Genuine(request, tries[i])
  {
  }

  lemma SinkEnd(limits: Limits, events: seq<Event>)
    ensures PushAll(limits, events).over <==> Cut(limits, events) < |events|
  {
    SinkShowsTheWindow(limits, events);
  }
}

/** How hard a gateway call tries before it gives up, and with what failure it does: read off
    the attempts it made and the script of providers, ledger writes and waits around them. */
module GatewayPersistence {
  import opened Basics
  import opened Distinctness
  import opened Gateway
  import opened GatewayStream

  // ----- Classifying failures and judging replies -----

  /** A failure is retryable when its error says so or is a passed deadline, and carries
      content when its error says so or the caller was shown some. */
  predicate Classified(error: CallError, shown: bool, f: Failure) {
    && (f.retryable <==> error == DeadlinePassed || (error.Typed? && error.failure.retryable))
    && (f.contentEmitted <==> shown || (error.Typed? && error.failure.contentEmitted))
    && (error.Typed? ==> f.code == error.failure.code)
    && (error == ContextCancelled ==> f.code == CancelledFault)
    && (error == DeadlinePassed ==> f.code == TimeoutFault)
    && (error == Untyped ==> f.code == ProviderFault)
  }

  lemma FailuresAreClassified(error: CallError, shown: bool, f: Failure)
    ensures Normalized(error, shown) == f <==> Classified(error, shown, f)
  {
  }

  /** The reply with its usage filled in: what the provider left out is estimated, and the
      total is at least its parts. */
  predicate Fills(request: Request, sent: Reply, kept: Reply) {
    && kept.inputTokens == (if sent.inputTokens > 0 then sent.inputTokens else request.estimatedInput)
    && kept.outputTokens == (if sent.outputTokens > 0 then sent.outputTokens else (|sent.content| + 3) / 4)
    && kept.totalTokens == Max(sent.totalTokens, kept.inputTokens + kept.outputTokens)
    && kept == sent.(inputTokens := kept.inputTokens, outputTokens := kept.outputTokens, totalTokens := kept.totalTokens)
  }

  /** A reply with something in it: a rune that is no space, a tool call, or an end in tools. */
  predicate HasSubstance(reply: Reply) {
    reply.toolCalls > 0 || reply.finishedWithTools || exists i :: 0 <= i < |reply.content| && !Space(reply.content[i])
  }

  predicate Affordable(limits: Limits, reply: Reply) {
    && Bytes(reply.content) <= limits.maxOutputBytes && reply.outputTokens <= limits.maxOutputTokens
    && (limits.maxTotalTokens == 0 || reply.totalTokens <= limits.maxTotalTokens)
    && (limits.maxCost <= 0.0 || reply.cost <= limits.maxCost)
  }

  /** An answer is accepted exactly when the stream stayed within its limits and a well-formed
      reply with substance still fits the request once its usage is filled in; a refused
      reply is never retryable. */
  lemma AnswersAreJudgedExactly(request: Request, over: bool, answer: Answer, kept: Reply)
    ensures Judge(request, over, answer) == Accepted(kept) <==>
              && answer.Replied? && !over && answer.reply.wellFormed && HasSubstance(answer.reply)
              && (answer.reply.totalTokens == 0
                  || answer.reply.totalTokens >= answer.reply.inputTokens + answer.reply.outputTokens)
              && Fills(request, answer.reply, kept) && Affordable(request.limits, kept)
    ensures answer.Broke? ==> Judge(request, over, answer) == Rejected(answer.error)
    ensures answer.Replied? && Judge(request, over, answer).Rejected? ==>
              var error := Judge(request, over, answer).error;
              && error.Typed? && !error.failure.retryable && !error.failure.contentEmitted
              && error.failure.code in {BudgetFault, EmptyResponseFault}
              && (over ==> error.failure.code == BudgetFault)
  {
    hide Bytes;
    var text := if answer.Replied? then answer.reply.content else [];
    assert (|text| + 3) / 4 == 0 <==> text == [];
  }

  // ----- What one attempt delivers -----

  predicate HasText(e: Event) {
    e.delta != [] || (e.reply.Some? && (e.reply.value.content != [] || e.reply.value.finishedWithTools))
  }

  /** What is held back of a stream without text: its first 256 events. */
  function HeldBack(events: seq<Event>): seq<Event> {
    events[..Min(256, |events|)]
  }

  ghost predicate ShowsText(limits: Limits, events: seq<Event>) {
    exists i :: 0 <= i < Cut(limits, events) && HasText(events[i])
  }

  /** What the sink has shown, holds back and has seen when a stream ends. */
  lemma SinkAtTheEnd(limits: Limits, events: seq<Event>)
    ensures var s := PushAll(limits, events);
            && (s.emitted <==> ShowsText(limits, events))
            && s.delivered == Window(limits, events) && (!s.emitted ==> s.delivered == [])
            && (!s.over ==> Cut(limits, events) == |events|)
            && (!s.over ==> s.pending == if s.emitted then [] else HeldBack(events))
            && (!s.over ==> (s.completed <==> exists e :: e in events && e.kind == Completion))
  {
    hide Cut, ContentBytes, ContentRunes, HasText, PushAll, HasContent;
    SinkShowsTheWindow(limits, events);
    var shown := events[..Cut(limits, events)];
    ContentIsShown(shown);
    if i :| 0 <= i < |shown| && HasText(shown[i]) { assert HasText(events[i]); }
    if i :| 0 <= i < |shown| && HasText(events[i]) { assert HasText(shown[i]); }
    if !PushAll(limits, events).over {
      assert shown == events;
      CompletionIsNoticed(limits, events);
    }
  }

  /** The caller is shown the attempt's window as it streams. An accepted answer adds what was
      still held back and a completion if the stream had none; a rejected one adds its failure
      if anything was shown, and shows nothing otherwise. */
  lemma AttemptDeliversExactly(request: Request, ref: Ref, attempt: nat, run: Run)
    ensures var t, limits := TryOnce(request, ref, attempt, run), request.limits;
            && (t.emitted <==> request.streaming && ShowsText(limits, run.events))
            && (!request.streaming ==> t.delivered == [])
            && (request.streaming && t.verdict.Accepted? ==>
                  && Cut(limits, run.events) == |run.events|
                  && t.delivered == (if t.emitted then Window(limits, run.events) else HeldBack(run.events)) +
                       (if exists e :: e in run.events && e.kind == Completion then []
                        else [Event(Completion, [], Some(t.verdict.reply), None)]))
            && (request.streaming && t.verdict.Rejected? ==>
                  t.delivered == if t.emitted
                                 then Window(limits, run.events) + [Event(ErrorEvent, [], None, Some(FailureOf(t)))]
                                 else [])
  {
    hide Judge, Normalized, PushAll, Cut, Window, ShowsText, HeldBack;
    var t := TryOnce(request, ref, attempt, run);
    SinkAtTheEnd(request.limits, run.events);
    if request.streaming && t.verdict.Accepted? { AcceptedMeansWithin(request, run); }
  }

  lemma ContentIsShown(shown: seq<Event>)
    ensures FirstContent(shown) < |shown| <==> exists i :: 0 <= i < |shown| && HasText(shown[i])
  {
    assert forall e: Event :: HasContent(e) <==> HasText(e);
  }

  lemma AcceptedMeansWithin(request: Request, run: Run)
    requires Judge(request, PushAll(request.limits, run.events).over, run.answer).Accepted?
    ensures !PushAll(request.limits, run.events).over
  {
    hide PushAll, Validated, Unusable;
  }

  lemma {:induction false} CompletionIsNoticed(limits: Limits, events: seq<Event>)
    requires !PushAll(limits, events).over
    ensures PushAll(limits, events).completed <==> exists e :: e in events && e.kind == Completion
  {
    if events != [] {
      var front, last := events[..|events| - 1], events[|events| - 1];
      assert events == front + [last];
      CompletionIsPassedOn(limits, PushAll(limits, front), last);
      CompletionIsNoticed(limits, front);
      hide PushAll, Push;
      if e :| e in front && e.kind == Completion { assert e in events; }
      if e :| e in events && e.kind == Completion { assert e == last || e in front; }
    }
  }

  lemma CompletionIsPassedOn(limits: Limits, s: Sink, e: Event)
    requires !Push(limits, s, e).over
    ensures !s.over && (Push(limits, s, e).completed <==> s.completed || e.kind == Completion)
  {
    hide Bytes, HasContent, ContentOf, Exceeds;
  }

  // ----- Going on -----

  /** A failure the policy allows to be tried again on the same provider. */
  predicate WorthRetrying(request: Request, t: Try) {
    && t.verdict.Rejected? && !t.emitted
    && FailureOf(t).retryable && FailureOf(t).code in request.retryableCodes
    && t.attempt < request.maxAttempts
  }

  /** The next attempt is the next on the same provider, unless its ledger write failed the call. */
  ghost predicate GoesOn(r: Trace, i: nat)
    requires i < |r.tries|
  {
    if i + 1 == |r.tries| then r.end.Unrecorded?
    else r.tries[i + 1].ref == r.tries[i].ref && r.tries[i + 1].attempt == r.tries[i].attempt + 1
  }

  /** Each attempt is what the script says of its turn, and a failure worth retrying is
      retried whenever the wait before that succeeds. */
  ghost predicate Persists(request: Request, count: nat, script: Script, r: Trace) {
    && (forall i :: 0 <= i < |r.tries| ==> FollowsScript(script(count + i), r.tries[i]))
    && (r.end.Unrecorded? ==> script(count + |r.tries|).recorded == Some(r.end.error))
    && (forall i :: 0 <= i < |r.tries| && WorthRetrying(request, r.tries[i]) && script(count + i).wait.None? ==> GoesOn(r, i))
  }

  predicate FollowsScript(turn: Turn, t: Try) {
    turn.recorded.None? && t.run == turn.run
  }

  lemma TryFollowsTurn(request: Request, ref: Ref, attempt: nat, run: Run)
    ensures var t := TryOnce(request, ref, attempt, run);
            && t.ref == ref && t.attempt == attempt && t.run == run
            && (t.verdict.Rejected? ==> Normalized(t.verdict.error, t.emitted) == FailureOf(t))
  {
  }

  lemma {:induction false} OneProviderPersists(request: Request, ref: Ref, attempt: nat, count: nat, script: Script)
    ensures var r := TryRef(request, ref, attempt, count, script);
            && Persists(request, count, script, r)
            && (r.tries != [] ==> r.tries[0].ref == ref && r.tries[0].attempt == attempt)
    decreases request.maxAttempts - attempt
  {
    hide TryOnce, Normalized, FailureOf;
    var turn := script(count);
    if turn.recorded.None? {
      var t := TryOnce(request, ref, attempt, turn.run);
      TryFollowsTurn(request, ref, attempt, turn.run);
      if t.verdict.Rejected? && !StopsRetrying(request, t, FailureOf(t)) && turn.wait.None? {
        OneProviderPersists(request, ref, attempt + 1, count + 1, script);
        PersistsOneMore(request, count, script, t, TryRef(request, ref, attempt + 1, count + 1, script));
      } else {
        var r := TryRef(request, ref, attempt, count, script);
        assert r.tries == [t];
        assert WorthRetrying(request, t) ==> turn.wait.Some?;
      }
    }
  }

  lemma PersistsOneMore(request: Request, count: nat, script: Script, t: Try, rest: Trace)
    requires Persists(request, count + 1, script, rest) && FollowsScript(script(count), t)
    requires rest.tries == [] ==> rest.end.Unrecorded?
    requires rest.tries != [] ==> rest.tries[0].ref == t.ref && rest.tries[0].attempt == t.attempt + 1
    ensures Persists(request, count, script, Trace([t] + rest.tries, rest.end))
  {
    hide WorthRetrying, FollowsScript;
    var r := Trace([t] + rest.tries, rest.end);
    forall i | 0 <= i < |r.tries| ensures FollowsScript(script(count + i), r.tries[i]) {
      if i > 0 { assert FollowsScript(script(count + 1 + (i - 1)), rest.tries[i - 1]); }
    }
    forall i | 0 <= i < |r.tries| && WorthRetrying(request, r.tries[i]) && script(count + i).wait.None? ensures GoesOn(r, i) {
      if i > 0 {
        assert script(count + 1 + (i - 1)).wait.None? && GoesOn(rest, i - 1);
      }
    }
  }

  lemma PersistsJoins(request: Request, count: nat, script: Script, first: Trace, rest: Trace)
    requires Persists(request, count, script, first) && !first.end.Unrecorded?
    requires Persists(request, count + |first.tries|, script, rest)
    ensures Persists(request, count, script, Trace(first.tries + rest.tries, rest.end))
  {
    hide WorthRetrying, FollowsScript;
    var n := |first.tries|;
    var r := Trace(first.tries + rest.tries, rest.end);
    forall i | 0 <= i < |r.tries| ensures FollowsScript(script(count + i), r.tries[i]) {
      if i >= n { assert FollowsScript(script(count + n + (i - n)), rest.tries[i - n]); }
    }
    forall i | 0 <= i < |r.tries| && WorthRetrying(request, r.tries[i]) && script(count + i).wait.None? ensures GoesOn(r, i) {
      if i >= n {
        assert script(count + n + (i - n)).wait.None? && GoesOn(rest, i - n);
      } else {
        assert GoesOn(first, i);
      }
    }
  }

  lemma {:induction false} AllProvidersPersist(request: Request, refs: seq<Ref>, count: nat, last: Failure, script: Script)
    ensures Persists(request, count, script, TryRefs(request, refs, count, last, script))
  {
    hide Persists, TryRef;
    if refs == [] {
      NothingPersists(request, count, script, last);
    } else if refs[0].provider !in request.registered {
      AllProvidersPersist(request, refs[1..], count, UNREGISTERED, script);
    } else {
      var first := TryRef(request, refs[0], 1, count, script);
      OneProviderPersists(request, refs[0], 1, count, script);
      if first.end.GaveUp? && !first.end.failure.contentEmitted {
        AllProvidersPersist(request, refs[1..], count + |first.tries|, first.end.failure, script);
        PersistsJoins(request, count, script, first,
                      TryRefs(request, refs[1..], count + |first.tries|, first.end.failure, script));
      }
    }
  }

  lemma NothingPersists(request: Request, count: nat, script: Script, last: Failure)
    ensures Persists(request, count, script, Trace([], GaveUp(last)))
  {
  }

  /** Over every call: a failure worth retrying is followed by the next attempt on the same
      provider whenever the wait succeeds, unless that attempt's ledger write fails the call. */
  lemma RetryableFailuresAreRetried(request: Request, all: seq<Ref>, script: Script, i: nat)
    requires i < |Call(request, all, script).tries|
    requires WorthRetrying(request, Call(request, all, script).tries[i]) && script(i).wait.None?
    ensures var r := Call(request, all, script);
            if i + 1 == |r.tries| then r.end.Unrecorded? && script(i + 1).recorded == Some(r.end.error)
            else r.tries[i + 1].ref == r.tries[i].ref && r.tries[i + 1].attempt == r.tries[i].attempt + 1
  {
    hide TryRefs, ProviderRefs, WorthRetrying;
    AllProvidersPersist(request, ProviderRefs(all), 0, UNREGISTERED, script);
    assert script(0 + i).wait.None? && GoesOn(Call(request, all, script), i);
  }

  /** The attempts on a provider are consecutive and numbered from one. */
  lemma {:induction false} AttemptsCountFromOne(request: Request, tries: seq<Try>, i: nat, k: nat)
    requires LegalTries(request, tries) && (tries != [] ==> tries[0].attempt == 1)
    requires i < |tries| && k < tries[i].attempt
    ensures i >= k && tries[i - k].ref == tries[i].ref && tries[i - k].attempt == tries[i].attempt - k
  {
    if k > 0 {
      AttemptsCountFromOne(request, tries, i, k - 1);
      var j := i - (k - 1);
      assert tries[j].attempt > 1 && j > 0;
      assert MayFollow(request, tries[j - 1], tries[j]);
    }
  }

  /** A call that leaves a provider, or ends on it, with a failure that is retryable and
      admitted and whose wait succeeded has made MaxAttempts attempts on it, in a row. */
  lemma GivingUpTakesAllAttempts(request: Request, all: seq<Ref>, script: Script, i: nat)
    requires var r := Call(request, all, script);
             && i < |r.tries| && !r.end.Unrecorded?
             && (i + 1 < |r.tries| ==> r.tries[i + 1].ref != r.tries[i].ref)
             && r.tries[i].verdict.Rejected? && !r.tries[i].emitted
             && FailureOf(r.tries[i]).retryable && FailureOf(r.tries[i]).code in request.retryableCodes
             && script(i).wait.None?
    ensures var r := Call(request, all, script);
            var n := Max(1, request.maxAttempts);
            && r.tries[i].attempt == n && i + 1 >= n
            && forall j :: i - n < j <= i ==> r.tries[j].ref == r.tries[i].ref && r.tries[j].attempt == n - (i - j)
  {
    hide Call, FailureOf, LegalTries, EndsWith, InListOrder;
    var r := Call(request, all, script);
    if r.tries[i].attempt < request.maxAttempts { RetryableFailuresAreRetried(request, all, script, i); }
    EveryCallIsLegal(request, all, script);
    FirstAttemptIsOne(request, all, script);
    LegalAttempts(request, r.tries, i);
    var n := r.tries[i].attempt;
    AttemptsCountFromOne(request, r.tries, i, n - 1);
    forall j | i - n < j <= i ensures r.tries[j].ref == r.tries[i].ref && r.tries[j].attempt == n - (i - j) {
      AttemptsCountFromOne(request, r.tries, i, i - j);
    }
  }

  lemma LegalAttempts(request: Request, tries: seq<Try>, i: nat)
    requires LegalTries(request, tries) && i < |tries|
    ensures 1 <= tries[i].attempt <= Max(1, request.maxAttempts)
  {
  }

  lemma FirstAttemptIsOne(request: Request, all: seq<Ref>, script: Script)
    ensures var r := Call(request, all, script); r.tries != [] ==> r.tries[0].attempt == 1
  {
    hide TryRefs, ProviderRefs, LegalTries, EndsWith, InListOrder;
    RefsAreDistinctAndComplete(all);
    AllProvidersAreLegal(request, ProviderRefs(all), 0, UNREGISTERED, script);
  }

  // ----- No provider is passed over -----

  /** Whoever is tried, every registered reference listed before it was tried before. */
  lemma {:induction false} NoneIsPassedOver(
      request: Request, refs: seq<Ref>, count: nat, last: Failure, script: Script, p: nat, j: nat) returns (i: nat)
    requires Distinct(refs) && p < |refs| && refs[p].provider in request.registered
    requires j < |TryRefs(request, refs, count, last, script).tries|
    requires TryRefs(request, refs, count, last, script).tries[j].ref in refs[p..]
    ensures i <= j && TryRefs(request, refs, count, last, script).tries[i].ref == refs[p]
    decreases |refs|
  {
    hide TryRef, LegalRetries;
    var r := TryRefs(request, refs, count, last, script);
    if refs[0].provider !in request.registered {
      TailIsDistinct(refs, p);
      i := NoneIsPassedOver(request, refs[1..], count, UNREGISTERED, script, p - 1, j);
    } else {
      var first := TryRef(request, refs[0], 1, count, script);
      OneProviderIsLegal(request, refs[0], 1, count, script);
      OneProviderStays(request, refs[0], first);
      if p == 0 {
        FirstTryComesFirst(request, refs, count, last, script);
        i := 0;
      } else {
        TailIsDistinct(refs, p);
        assert j >= |first.tries|;
        i := NoneIsPassedOver(request, refs[1..], count + |first.tries|, first.end.failure, script, p - 1, j - |first.tries|);
        i := i + |first.tries|;
      }
    }
  }

  lemma FirstTryComesFirst(request: Request, refs: seq<Ref>, count: nat, last: Failure, script: Script)
    requires refs != [] && refs[0].provider in request.registered
    requires TryRefs(request, refs, count, last, script).tries != []
    ensures TryRefs(request, refs, count, last, script).tries[0].ref == refs[0]
  {
    hide TryRef;
    OneProviderIsLegal(request, refs[0], 1, count, script);
    OneProviderStays(request, refs[0], TryRef(request, refs[0], 1, count, script));
  }

  lemma OneProviderStays(request: Request, ref: Ref, r: Trace)
    requires LegalRetries(request, ref, 1, r)
    ensures forall i :: 0 <= i < |r.tries| ==> r.tries[i].ref == ref
    ensures r.tries == [] ==> r.end.Unrecorded?
  {
  }

  lemma TailIsDistinct(refs: seq<Ref>, p: nat)
    requires Distinct(refs) && 0 < p < |refs|
    ensures Distinct(refs[1..]) && refs[1..][p - 1] == refs[p] && refs[1..][p - 1..] == refs[p..]
    ensures refs[0] !in refs[p..]
  {
    assert forall i :: 0 <= i < |refs[1..]| ==> refs[1..][i] == refs[i + 1];
  }

  // ----- The failure a call ends with -----

  /** What the last attempt of a provider leaves behind: its own failure, or that of the wait
      for an attempt that was worth making. */
  function LeftBy(request: Request, t: Try, turn: Turn): Failure {
    if WorthRetrying(request, t) && turn.wait.Some? then Normalized(turn.wait.value, false) else FailureOf(t)
  }

  lemma {:induction false} OneProviderLeaves(request: Request, ref: Ref, attempt: nat, count: nat, script: Script)
    requires TryRef(request, ref, attempt, count, script).end.GaveUp?
    ensures var r := TryRef(request, ref, attempt, count, script);
            && r.tries != []
            && r.end.failure == LeftBy(request, r.tries[|r.tries| - 1], script(count + |r.tries| - 1))
    decreases request.maxAttempts - attempt
  {
    hide TryOnce, Normalized, FailureOf;
    var turn := script(count);
    var t := TryOnce(request, ref, attempt, turn.run);
    TryFollowsTurn(request, ref, attempt, turn.run);
    if t.verdict.Rejected? && !StopsRetrying(request, t, FailureOf(t)) && turn.wait.None? {
      OneProviderLeaves(request, ref, attempt + 1, count + 1, script);
      var rest := TryRef(request, ref, attempt + 1, count + 1, script);
      assert ([t] + rest.tries)[|rest.tries|] == rest.tries[|rest.tries| - 1];
    }
  }

  /** A call that gives up reports what its last attempt left behind, unless that carried no
      content and the last reference listed is not registered, which is then reported. */
  ghost predicate Reports(request: Request, refs: seq<Ref>, count: nat, last: Failure, script: Script, r: Trace) {
    r.end.GaveUp? ==>
      var own := if r.tries == [] then last else LeftBy(request, r.tries[|r.tries| - 1], script(count + |r.tries| - 1));
      r.end.failure ==
        if refs == [] || refs[|refs| - 1].provider in request.registered || (r.tries != [] && own.contentEmitted)
        then own else Failure(ProviderFault, false, false)
  }

  lemma {:induction false} LastFailureIsReported(
      request: Request, refs: seq<Ref>, count: nat, last: Failure, script: Script)
    ensures Reports(request, refs, count, last, script, TryRefs(request, refs, count, last, script))
    ensures var r := TryRefs(request, refs, count, last, script);
            r.end.GaveUp? && r.tries == [] && refs != [] ==> refs[|refs| - 1].provider !in request.registered
  {
    hide LeftBy, TryRef;
    var r := TryRefs(request, refs, count, last, script);
    if refs != [] && r.end.GaveUp? {
      var tail := refs[1..];
      assert tail != [] ==> tail[|tail| - 1] == refs[|refs| - 1];
      if refs[0].provider !in request.registered {
        LastFailureIsReported(request, tail, count, UNREGISTERED, script);
      } else {
        var first := TryRef(request, refs[0], 1, count, script);
        if first.end.GaveUp? {
          OneProviderLeaves(request, refs[0], 1, count, script);
          if !first.end.failure.contentEmitted {
            var rest := TryRefs(request, tail, count + |first.tries|, first.end.failure, script);
            LastFailureIsReported(request, tail, count + |first.tries|, first.end.failure, script);
            assert r.tries == first.tries + rest.tries;
            if rest.tries != [] { assert r.tries[|r.tries| - 1] == rest.tries[|rest.tries| - 1]; }
          }
        }
      }
    }
  }

  /** Over every call that gives up: the failure reported is the last attempt's own, or that of
      the wait after it, or that the last reference listed names no registered provider. */
  lemma CallsReportTheirLastFailure(request: Request, all: seq<Ref>, script: Script)
    requires Call(request, all, script).end.GaveUp?
    ensures var r, refs := Call(request, all, script), ProviderRefs(all);
            var n := |r.tries|;
            var unregistered := Failure(ProviderFault, false, false);
            if n == 0 then r.end.failure == unregistered
            else
              var own := LeftBy(request, r.tries[n - 1], script(n - 1));
              && r.tries[n - 1].verdict.Rejected?
              && (WorthRetrying(request, r.tries[n - 1]) ==> script(n - 1).wait.Some?)
              && r.end.failure ==
                   if own.contentEmitted || refs[|refs| - 1].provider in request.registered then own else unregistered
  {
    hide TryRefs, ProviderRefs, LeftBy, LegalTries, WorthRetrying, InListOrder;
    var r, refs := Call(request, all, script), ProviderRefs(all);
    EveryCallIsLegal(request, all, script);
    LastFailureIsReported(request, refs, 0, UNREGISTERED, script);
    if |r.tries| > 0 && WorthRetrying(request, r.tries[|r.tries| - 1]) && script(|r.tries| - 1).wait.None? {
      RetryableFailuresAreRetried(request, all, script, |r.tries| - 1);
    }
    if |r.tries| > 0 { assert r.tries[0].ref in refs by { TriedIsListed(request, all, script); } }
  }

  lemma TriedIsListed(request: Request, all: seq<Ref>, script: Script)
    ensures forall i :: 0 <= i < |Call(request, all, script).tries| ==> Call(request, all, script).tries[i].ref in ProviderRefs(all)
  {
    hide TryRefs, ProviderRefs, LegalTries, EndsWith, InListOrder;
    RefsAreDistinctAndComplete(all);
    AllProvidersAreLegal(request, ProviderRefs(all), 0, UNREGISTERED, script);
  }

  /** The caller is told the reply, the failure the call gave up with, or that of the ledger
      write that failed it, which shows no content. */
  lemma CallersAreToldTheEnd(request: Request, all: seq<Ref>, script: Script)
    ensures var r := Call(request, all, script);
            match OutcomeOf(r.end)
            case ReplyOutcome(reply) => r.tries != [] && r.tries[|r.tries| - 1].verdict == Accepted(reply)
            case FailureOutcome(f) =>
              || (r.end.GaveUp? && f == r.end.failure)
              || (&& r.end.Unrecorded? && script(|r.tries|).recorded.Some?
                  && Classified(script(|r.tries|).recorded.value, false, f))
  {
    hide TryRefs, ProviderRefs, LegalTries, InListOrder, WorthRetrying;
    EveryCallIsLegal(request, all, script);
    AllProvidersPersist(request, ProviderRefs(all), 0, UNREGISTERED, script);
    var r := Call(request, all, script);
    if r.end.Unrecorded? { FailuresAreClassified(r.end.error, false, Normalized(r.end.error, false)); }
  }

  // ----- What counts against the limits -----

  /** The runes of a text in a range of code points. */
  function Between(text: Text, least: nat): multiset<nat> {
    if text == [] then multiset{}
    else
      Between(text[..|text| - 1], least) +
      if least <= text[|text| - 1] < 0x110000 then multiset{text[|text| - 1]} else multiset{}
  }

  /** A rune takes one byte, and one more from each of U+0080, U+0800 and U+10000 on. */
  lemma {:induction false} BytesPerRune(text: Text)
    ensures Bytes(text) == |text| + |Between(text, 0x80)| + |Between(text, 0x800)| + |Between(text, 0x10000)|
  {
    if text != [] { BytesPerRune(text[..|text| - 1]); }
  }

  /** An event counts its delta or, if that is empty, the reply it carries. */
  lemma OneEventCounts(e: Event)
    ensures var text := if e.delta != [] then e.delta else if e.reply.Some? then e.reply.value.content else [];
            ContentBytes([e]) == Bytes(text) && ContentRunes([e]) == |text|
  {
    assert [e][..0] == [];
  }

  /** The counted bytes, and the counted runes at four to a token, are within the request's limits. */
  predicate Fit(limits: Limits, events: seq<Event>) {
    ContentBytes(events) <= limits.maxOutputBytes && (ContentRunes(events) + 3) / 4 <= limits.maxOutputTokens
  }

  /** A stream is cut at its first event that brings what was counted over a limit, and nowhere else. */
  lemma {:induction false} StreamsAreCutAtTheLimit(limits: Limits, events: seq<Event>, n: nat)
    requires n <= |events|
    ensures n <= Cut(limits, events) <==> forall m :: 0 < m <= n ==> Fit(limits, events[..m])
  {
    hide ContentBytes, ContentRunes;
    if events != [] {
      var front := events[..|events| - 1];
      forall m | 0 <= m <= |front| ensures front[..m] == events[..m] {}
      assert events[..|events|] == events;
      if n < |events| {
        StreamsAreCutAtTheLimit(limits, front, n);
      } else {
        StreamsAreCutAtTheLimit(limits, front, n - 1);
      }
    }
  }

  /** Whatever a call's caller hears of its reply as it streams is within the limits. */
  lemma HeardTextFits(request: Request, all: seq<Ref>, script: Script)
    ensures var text := Deltas(Heard(Call(request, all, script).tries));
            Bytes(text) <= request.limits.maxOutputBytes && (|text| + 3) / 4 <= request.limits.maxOutputTokens
  {
    hide Call, Bytes, Deltas, Heard;
    CallerHearsOneAttempt(request, all, script);
  }
}

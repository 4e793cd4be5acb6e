/** The model gateway (internal/model/gateway.go): one call tries the primary provider and
    its fallbacks, each up to the retry policy's limit, and buffers a stream until its
    first content event. Providers, ledger writes and retry waits answer as a script says. */
module Gateway {
  import opened Basics
  import opened Distinctness

  /** A string, rune by rune; numbers past the last code point are undecodable bytes. */
  type Text = seq<nat>

  function Width(rune: nat): (w: nat)
    ensures 1 <= w <= 4
  {
    if rune < 0x80 then 1 else if rune < 0x800 then 2 else if rune < 0x10000 then 3
    else if rune < 0x110000 then 4 else 1
  }

  /** The length in bytes of the UTF-8 encoding. */
  function Bytes(text: Text): (n: nat)
    ensures |text| <= n <= 4 * |text|
  {
    if text == [] then 0 else Bytes(text[..|text| - 1]) + Width(text[|text| - 1])
  }

  /** Four runes to a token, rounded up. */
  function EstimatedTokens(runes: nat): nat {
    (runes + 3) / 4
  }

  predicate Space(rune: nat) {
    9 <= rune <= 13 || rune in {0x20, 0x85, 0xA0, 0x1680, 0x2028, 0x2029, 0x202F, 0x205F, 0x3000}
    || 0x2000 <= rune <= 0x200A
  }

  datatype FailCode =
    | ProviderFault | BudgetFault | EmptyResponseFault | CancelledFault | TimeoutFault | OtherFault(name: string)

  datatype Failure = Failure(code: FailCode, retryable: bool, contentEmitted: bool)

  /** An error as a call site sees it. A typed one is already normalizable. */
  datatype CallError = Typed(failure: Failure) | ContextCancelled | DeadlinePassed | Untyped

  datatype Reply = Reply(
    content: Text, toolCalls: nat, finishedWithTools: bool, wellFormed: bool,
    inputTokens: nat, outputTokens: nat, totalTokens: nat, cost: real)

  datatype EventKind = TextDelta | UsageEvent | Completion | ErrorEvent

  datatype Event = Event(kind: EventKind, delta: Text, reply: Option<Reply>, failure: Option<Failure>)

  datatype Limits = Limits(maxOutputBytes: nat, maxOutputTokens: nat, maxTotalTokens: nat, maxCost: real)

  datatype Ref = Ref(provider: string, endpoint: string, model: string)

  datatype Request = Request(
    limits: Limits, maxAttempts: nat, retryableCodes: set<FailCode>, estimatedInput: nat,
    registered: set<string>, streaming: bool)

  const MAX_PENDING := 256

  // ----- One attempt's stream -----

  predicate HasContent(e: Event) {
    e.delta != [] || (e.reply.Some? && (e.reply.value.content != [] || e.reply.value.finishedWithTools))
  }

  function ContentOf(e: Event): Text {
    if e.delta == [] && e.reply.Some? then e.reply.value.content else e.delta
  }

  datatype Sink = Sink(
    pending: seq<Event>, emitted: bool, bytes: nat, runes: nat, over: bool, completed: bool,
    delivered: seq<Event>)

  const EMPTY_SINK := Sink([], false, 0, 0, false, false, [])

  predicate Exceeds(limits: Limits, bytes: nat, runes: nat) {
    bytes > limits.maxOutputBytes || EstimatedTokens(runes) > limits.maxOutputTokens
  }

  function Push(limits: Limits, s: Sink, e: Event): Sink {
    if s.over then s
    else
      var completed := s.completed || e.kind == Completion;
      if HasContent(e) then
        var bytes, runes := s.bytes + Bytes(ContentOf(e)), s.runes + |ContentOf(e)|;
        if Exceeds(limits, bytes, runes)
        then s.(bytes := bytes, runes := runes, over := true, completed := completed)
        else Sink([], true, bytes, runes, false, completed, s.delivered + s.pending + [e])
      else if !s.emitted then
        s.(pending := if |s.pending| < MAX_PENDING then s.pending + [e] else s.pending, completed := completed)
      else s.(delivered := s.delivered + [e], completed := completed)
  }

  function PushAll(limits: Limits, events: seq<Event>): Sink {
    if events == [] then EMPTY_SINK
    else Push(limits, PushAll(limits, events[..|events| - 1]), events[|events| - 1])
  }

  // ----- One attempt -----

  datatype Answer = Replied(reply: Reply) | Broke(error: CallError)

  /** What a provider does when called: the events it sends, then its answer. */
  datatype Run = Run(events: seq<Event>, answer: Answer)

  function Normalized(error: CallError, contentEmitted: bool): Failure {
    match error
    case Typed(f) => f.(contentEmitted := f.contentEmitted || contentEmitted)
    case ContextCancelled => Failure(CancelledFault, false, contentEmitted)
    case DeadlinePassed => Failure(TimeoutFault, true, contentEmitted)
    case Untyped => Failure(ProviderFault, false, contentEmitted)
  }

  function BudgetError(): CallError {
    Typed(Failure(BudgetFault, false, false))
  }

  /** Fills in missing usage and holds the reply to the request's limits. */
  function Validated(request: Request, reply: Reply): Result<Reply> {
    var input := if reply.inputTokens == 0 then request.estimatedInput else reply.inputTokens;
    var output :=
      if reply.outputTokens == 0 && reply.content != [] then EstimatedTokens(|reply.content|) else reply.outputTokens;
    var total := if reply.totalTokens < input + output then input + output else reply.totalTokens;
    if Bytes(reply.content) > request.limits.maxOutputBytes || output > request.limits.maxOutputTokens
       || (request.limits.maxTotalTokens > 0 && total > request.limits.maxTotalTokens)
       || (request.limits.maxCost > 0.0 && reply.cost > request.limits.maxCost)
    then Err
    else Ok(reply.(inputTokens := input, outputTokens := output, totalTokens := total))
  }

  /** A reply that does not normalize: bad fields, an impossible total, or no content at all. */
  predicate Unusable(reply: Reply) {
    || !reply.wellFormed
    || (reply.totalTokens != 0 && reply.totalTokens < reply.inputTokens + reply.outputTokens)
    || ((forall i :: 0 <= i < |reply.content| ==> Space(reply.content[i])) && reply.toolCalls == 0 && !reply.finishedWithTools)
  }

  function Judge(request: Request, over: bool, answer: Answer): Verdict {
    match answer
    case Broke(error) => Rejected(error)
    case Replied(reply) =>
      if over then Rejected(BudgetError())
      else if Unusable(reply) then Rejected(Typed(Failure(EmptyResponseFault, false, false)))
      else match Validated(request, reply)
        case Err => Rejected(BudgetError())
        case Ok(valid) => Accepted(valid)
  }

  datatype Verdict = Accepted(reply: Reply) | Rejected(error: CallError)

  /** One attempt, and what the caller's sink received from it. */
  datatype Try = Try(ref: Ref, attempt: nat, run: Run, delivered: seq<Event>, emitted: bool, verdict: Verdict)

  function CompletionOf(reply: Reply): Event {
    Event(Completion, [], Some(reply), None)
  }

  function TryOnce(request: Request, ref: Ref, attempt: nat, run: Run): Try {
    var s := if request.streaming then PushAll(request.limits, run.events) else EMPTY_SINK;
    var verdict := Judge(request, s.over, run.answer);
    var delivered :=
      match verdict
      case Accepted(reply) =>
        if !request.streaming then []
        else s.delivered + s.pending + (if s.completed then [] else [CompletionOf(reply)])
      case Rejected(error) =>
        if s.emitted then s.delivered + [Event(ErrorEvent, [], None, Some(Normalized(error, true)))] else [];
    Try(ref, attempt, run, delivered, s.emitted, verdict)
  }

  // ----- Retries and fallbacks -----

  /** What surrounds one attempt: the ledger's attempt write, the provider, the wait before a retry. */
  datatype Turn = Turn(recorded: Option<CallError>, run: Run, wait: Option<CallError>)

  type Script = nat -> Turn

  datatype End = Answered(reply: Reply) | Unrecorded(error: CallError) | GaveUp(failure: Failure)

  datatype Trace = Trace(tries: seq<Try>, end: End)

  predicate StopsRetrying(request: Request, t: Try, f: Failure) {
    t.emitted || !f.retryable || f.code !in request.retryableCodes || t.attempt >= request.maxAttempts
  }

  function TryRef(request: Request, ref: Ref, attempt: nat, count: nat, script: Script): Trace
    decreases request.maxAttempts - attempt
  {
    var turn := script(count);
    if turn.recorded.Some? then Trace([], Unrecorded(turn.recorded.value))
    else
      var t := TryOnce(request, ref, attempt, turn.run);
      match t.verdict
      case Accepted(reply) => Trace([t], Answered(reply))
      case Rejected(error) =>
        var f := Normalized(error, t.emitted);
        if StopsRetrying(request, t, f) then Trace([t], GaveUp(f))
        else if turn.wait.Some? then Trace([t], GaveUp(Normalized(turn.wait.value, false)))
        else
          var rest := TryRef(request, ref, attempt + 1, count + 1, script);
          Trace([t] + rest.tries, rest.end)
  }

  const UNREGISTERED := Failure(ProviderFault, false, false)

  function TryRefs(request: Request, refs: seq<Ref>, count: nat, last: Failure, script: Script): Trace {
    if refs == [] then Trace([], GaveUp(last))
    else if refs[0].provider !in request.registered then TryRefs(request, refs[1..], count, UNREGISTERED, script)
    else
      var first := TryRef(request, refs[0], 1, count, script);
      if !first.end.GaveUp? || first.end.failure.contentEmitted then first
      else
        var rest := TryRefs(request, refs[1..], count + |first.tries|, first.end.failure, script);
        Trace(first.tries + rest.tries, rest.end)
  }

  function Named(all: seq<Ref>): seq<Ref> {
    if all == [] then []
    else Named(all[..|all| - 1]) + if all[|all| - 1].provider == "" then [] else [all[|all| - 1]]
  }

  /** The references to try: blanks skipped, repetitions dropped. */
  function ProviderRefs(all: seq<Ref>): seq<Ref> {
    Dedup(Named(all))
  }

  function Call(request: Request, all: seq<Ref>, script: Script): Trace {
    TryRefs(request, ProviderRefs(all), 0, UNREGISTERED, script)
  }

  // ----- What the ledger and the caller are told -----

  datatype Outcome = ReplyOutcome(reply: Reply) | FailureOutcome(failure: Failure)

  function OutcomeOf(end: End): Outcome {
    match end
    case Answered(reply) => ReplyOutcome(reply)
    case Unrecorded(error) => FailureOutcome(Normalized(error, false))
    case GaveUp(f) => FailureOutcome(f)
  }

  /** The attempt count of the terminal record: an attempt whose ledger write failed is counted too. */
  function Attempts(trace: Trace): nat {
    |trace.tries| + if trace.end.Unrecorded? then 1 else 0
  }

  /** Everything the caller's sink receives, in order. */
  function Heard(tries: seq<Try>): seq<Event> {
    if tries == [] then [] else Heard(tries[..|tries| - 1]) + tries[|tries| - 1].delivered
  }
}

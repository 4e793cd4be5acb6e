/** The transition function of the agent loop (internal/agentloop/loop.go): what one
    worker that has read `run` proposes to commit, for every answer its
    environment may give. Nothing here touches the store. */
module AgentLoop {
  import opened Basics
  import opened AgentTypes

  /** What a worker process is wired with. `historyBytes` is the size of the JSON encoding. */
  datatype Config = Config(
    hasRetriever: bool, hasApprovals: bool, registered: set<string>,
    historyBytes: seq<Message> -> nat, catalogBytes: nat)

  datatype ContextPack = ContextPack(
    workspaceMatches: bool, contentHash: string, totalBytes: int, items: nat, rendered: string)

  datatype ModelReply = ModelReply(
    content: string, calls: seq<ToolCall>,
    inputTokens: int, outputTokens: int, totalTokens: int, costUsd: real)

  /** A typed provider failure carries its classification; any other error does not. */
  datatype ModelAnswer =
    | Replied(reply: ModelReply)
    | ProviderFailure(code: string, message: string, retryable: bool, contentEmitted: bool)
    | UntypedError

  datatype ToolAnswer =
    | ToolDone(content: string)
    | ToolNeedsApproval(message: string, approvalId: string)
    | ToolInProgress
    | ToolFailure(code: string, message: string, retryable: bool)
    | ToolUnusable

  datatype ApprovalAnswer = Unreadable | StillPending | Denied | Expired | Approved | OtherStatus

  /** One invocation's adversarial answers. */
  datatype Env = Env(
    now: int, leaseValid: bool, context: Result<ContextPack>,
    model: ModelAnswer, tool: ToolAnswer, approval: ApprovalAnswer)

  datatype Action = Advanced | Waiting | Terminal

  datatype Proposal =
    | Refuse                                  // an error, nothing to commit
    | Hold(action: Action)                    // a decision over the run as read
    | Write(next: AgentRun, action: Action)   // one compare-and-swap

  datatype Operation =
    | Advance
    | Cancel(reason: string)
    | WaitExternal(reason: string)
    | CompleteExternal(output: string)
    | RunPreamble
    | RunOutOfPhases

  function Propose(op: Operation, cfg: Config, run: AgentRun, env: Env): Proposal {
    match op
    case Advance => ProposeAdvance(cfg, run, env)
    case Cancel(reason) => ProposeCancel(run, env, reason)
    case WaitExternal(reason) => ProposeWait(run, env, reason)
    case CompleteExternal(output) => ProposeComplete(run, env, output)
    case RunPreamble => ProposePreamble(run, env)
    case RunOutOfPhases => ProposeOutOfPhases(run)
  }

  function ProposeAdvance(cfg: Config, run: AgentRun, env: Env): Proposal {
    if IsTerminal(run.state) then Hold(Terminal)
    else if !env.leaseValid then Refuse
    else if WallClockExceeded(run, env.now) then
      Fail(run, LoopFailure(BudgetCode, LoopBudgetExceeded, run.phase, false, false, 0), BudgetExceeded)
    else if run.state == AwaitingExternal then Hold(Waiting)
    else if run.state == AwaitingApproval then AfterApproval(cfg, run, env)
    else if run.state == AwaitingRetry then
      if run.nextRetryAt.Some? && run.nextRetryAt.value > env.now then Hold(Waiting)
      else Write(run.(state := Running, lastFailure := None, nextRetryAt := None), Advanced)
    else if run.pending != [] then ToolStep(cfg, run, env)
    else ModelStep(cfg, run, env)
  }

  predicate WallClockExceeded(run: AgentRun, now: int) {
    run.createdAt.Some? && now > run.createdAt.value + run.budget.maxWallTimeMs
  }

  function ProposePreamble(run: AgentRun, env: Env): Proposal {
    if WallClockExceeded(run, env.now) && !IsTerminal(run.state) then
      Fail(run, LoopFailure(BudgetCode, WallClockBudgetExceeded, run.phase, false, false, 0), BudgetExceeded)
    else Hold(Advanced)
  }

  /** What Run commits when its phase bound is spent, which other workers advancing the run can bring about. */
  function ProposeOutOfPhases(run: AgentRun): Proposal {
    if IsTerminal(run.state) then Hold(Terminal)
    else Fail(run, LoopFailure(BudgetCode, PhaseBudgetExceeded, run.phase, false, false, 0), BudgetExceeded)
  }

  function Fail(run: AgentRun, failure: LoopFailure, termination: Termination): Proposal {
    FailWithAttempt(run, failure, termination, failure.attempt)
  }

  function FailWithAttempt(run: AgentRun, failure: LoopFailure, termination: Termination, attempt: int): Proposal {
    Write(run.(state := Failed, termination := termination, lastFailure := Some(failure), pending := [],
               modelAttempts := Max(run.modelAttempts, attempt)), Terminal)
  }

  function ModelStep(cfg: Config, run: AgentRun, env: Env): Proposal {
    if cfg.hasRetriever && run.contextHash == "" then CompileContext(run, env.context)
    else match AdmitModel(cfg, run)
      case Some(refusal) => refusal
      case None => AfterModel(cfg, run, env.now, env.model)
  }

  function CompileContext(run: AgentRun, answer: Result<ContextPack>): Proposal {
    match answer
    case Err =>
      Fail(run, LoopFailure(AbstainedCode, ContextFailed, ModelPhase, false, false, 0), Abstained)
    case Ok(pack) =>
      if !pack.workspaceMatches || pack.contentHash == "" then
        Fail(run, LoopFailure(WorkspaceCode, ContextInvalid, ModelPhase, false, false, 0), Abstained)
      else
        Write(run.(contextHash := pack.contentHash, contextBytes := pack.totalBytes,
                   history := if pack.items > 0 then run.history + [System(pack.rendered)] else run.history),
              Advanced)
  }

  function InputBytes(cfg: Config, run: AgentRun): nat {
    cfg.historyBytes(run.history) + cfg.catalogBytes
  }

  /** The budget checks before a model call is issued; None admits the call. */
  function AdmitModel(cfg: Config, run: AgentRun): Option<Proposal> {
    if run.turn >= run.budget.maxTurns || run.modelAttempts >= run.budget.maxModelSteps then
      Some(Fail(run, LoopFailure(BudgetCode, TurnOrStepBudget, ModelPhase, false, false, 0),
                BudgetExceeded))
    else if InputBytes(cfg, run) > run.budget.maxContextBytes then
      Some(Fail(run, LoopFailure(BudgetCode, ContextByteBudget, ModelPhase, false, false, 0), Abstained))
    else if Min(MAX_MODEL_OUTPUT_TOKENS, run.budget.maxOutputTokens - run.outputTokens) < 1 then
      Some(Fail(run, LoopFailure(BudgetCode, OutputTokensExhausted, ModelPhase, false, false, 0),
                BudgetExceeded))
    else None
  }

  predicate OverBudget(run: AgentRun, r: ModelReply) {
    || r.outputTokens > run.budget.maxOutputTokens - run.outputTokens
    || r.totalTokens + run.totalTokens > run.budget.maxOutputTokens + run.inputTokens
    || run.costUsd + r.costUsd > run.budget.maxCostUsd
  }

  function AfterModel(cfg: Config, run: AgentRun, now: int, answer: ModelAnswer): Proposal {
    var attempt := run.modelAttempts + 1;
    match answer
    case Replied(r) => AfterReply(cfg, run, r)
    case ProviderFailure(code, message, retryable, contentEmitted) =>
      var failure := LoopFailure(ProviderCode(code), Said(message), run.phase, retryable, contentEmitted, attempt);
      if retryable && !contentEmitted && attempt < run.budget.maxModelSteps then
        Write(run.(state := AwaitingRetry, modelAttempts := attempt, lastFailure := Some(failure),
                   nextRetryAt := Some(now + RetryDelay(attempt))), Waiting)
      else FailWithAttempt(run, failure, ModelFailed, attempt)
    case UntypedError =>
      FailWithAttempt(run, LoopFailure(ModelCode, ModelExecutionFailed, run.phase, false, false, attempt),
                      ModelFailed, attempt)
  }

  function AfterReply(cfg: Config, run: AgentRun, r: ModelReply): Proposal {
    var attempt := run.modelAttempts + 1;
    if OverBudget(run, r) then
      FailWithAttempt(run, LoopFailure(BudgetCode, CumulativeBudget, ModelPhase, false, false, attempt),
                      BudgetExceeded, attempt)
    else
      var answered := run.(
        state := Running, phase := ModelPhase, turn := run.turn + 1, step := run.step + 1,
        modelAttempts := attempt, modelCalls := run.modelCalls + 1,
        inputTokens := run.inputTokens + r.inputTokens,
        outputTokens := run.outputTokens + r.outputTokens,
        totalTokens := run.totalTokens + r.totalTokens,
        contextBytes := InputBytes(cfg, run),
        costUsd := run.costUsd + r.costUsd,
        lastFailure := None, nextRetryAt := None,
        history := run.history + [Assistant(r.content, r.calls)]);
      if r.calls == [] then
        Write(answered.(state := Succeeded, termination := Completed, lastOutput := r.content), Terminal)
      else if run.toolCalls + |r.calls| > run.budget.maxToolCalls || |r.calls| > MAX_PENDING_TOOLS then
        FailWithAttempt(run, LoopFailure(BudgetCode, ToolCallBudget, ToolPhase, false, false, attempt),
                        BudgetExceeded, attempt)
      else
        Write(answered.(phase := ToolPhase, pending := FreshPending(r.calls), toolCalls := run.toolCalls + |r.calls|),
              Advanced)
  }

  function FreshPending(calls: seq<ToolCall>): (ps: seq<PendingCall>)
    ensures |ps| == |calls|
    ensures forall i :: 0 <= i < |ps| ==> ps[i] == PendingCall(calls[i], 0, "", None)
  {
    seq(|calls|, i requires 0 <= i < |calls| => PendingCall(calls[i], 0, "", None))
  }

  function ToolStep(cfg: Config, run: AgentRun, env: Env): Proposal
    requires run.pending != []
  {
    var head := run.pending[0];
    if head.call.toolId !in cfg.registered then
      Fail(run, LoopFailure(ToolCode, UnregisteredTool, ToolPhase, false, false, 0), ToolFailed)
    else if head.attempt >= run.budget.maxToolAttempts then
      Fail(run, LoopFailure(ToolCode, ToolRetriesExhausted, ToolPhase, false, false, head.attempt), ToolFailed)
    else if head.call.arguments.Malformed? || head.call.arguments.argv == [] then
      Fail(run, LoopFailure(ToolCode, BadToolArguments, ToolPhase, false, false, 0), ToolFailed)
    else AfterTool(run, env.now, env.tool)
  }

  function AfterTool(run: AgentRun, now: int, answer: ToolAnswer): Proposal
    requires run.pending != []
  {
    var head := run.pending[0];
    var attempt := head.attempt + 1;
    match answer
    case ToolUnusable => Refuse
    case ToolInProgress => Refuse
    case ToolNeedsApproval(message, approvalId) =>
      Write(run.(state := AwaitingApproval, phase := ToolPhase,
                 pending := run.pending[0 := head.(approvalId := approvalId)],
                 lastFailure := Some(LoopFailure(ApprovalCode, Said(message), ToolPhase, false, false, 0))), Waiting)
    case ToolFailure(code, message, retryable) =>
      var failure := LoopFailure(ToolRuntimeCode(code), Said(message), ToolPhase, retryable, false, attempt);
      if retryable && attempt < run.budget.maxToolAttempts then
        Write(run.(state := AwaitingRetry, lastFailure := Some(failure),
                   pending := run.pending[0 := head.(attempt := attempt, lastFailure := Some(failure))],
                   nextRetryAt := Some(now + RetryDelay(attempt))), Waiting)
      else
        Write(run.(state := Failed, termination := ToolFailed, phase := ToolPhase,
                   lastFailure := Some(failure), pending := []), Terminal)
    case ToolDone(content) =>
      Write(run.(state := Running, phase := ModelPhase, lastFailure := None, nextRetryAt := None,
                 pending := run.pending[1..], history := run.history + [Tool(head.call.id, content)]), Advanced)
  }

  function AfterApproval(cfg: Config, run: AgentRun, env: Env): Proposal {
    if run.pending == [] then
      Fail(run, LoopFailure(ApprovalCode, NoPendingTool, ToolPhase, false, false, 0), Abstained)
    else if run.pending[0].approvalId == "" || !cfg.hasApprovals then Hold(Waiting)
    else match env.approval
      case Denied | Expired =>
        Fail(run, LoopFailure(ApprovalCode, ApprovalNotGranted, ToolPhase, false, false, 0), ToolFailed)
      case Approved => ToolStep(cfg, run, env)
      case Unreadable | StillPending | OtherStatus => Hold(Waiting)
  }

  function ProposeCancel(run: AgentRun, env: Env, reason: string): Proposal {
    if IsTerminal(run.state) then Hold(Terminal)
    else if !env.leaseValid then Refuse
    else
      var message := if reason == "" then RunCancelled else Said(reason);
      Write(run.(state := Cancelled, phase := ModelPhase, termination := ByCaller, pending := [],
                 lastFailure := Some(LoopFailure(CancelledCode, message, run.phase, false, false, 0))), Terminal)
  }

  function ProposeWait(run: AgentRun, env: Env, reason: string): Proposal {
    if IsTerminal(run.state) then Hold(Terminal)
    else if !env.leaseValid then Refuse
    else
      var message := if reason == "" then ExternalRequired else Said(reason);
      Write(run.(state := AwaitingExternal, nextRetryAt := None,
                 lastFailure := Some(LoopFailure(ExternalCode, message, run.phase, false, false, 0))), Waiting)
  }

  function ProposeComplete(run: AgentRun, env: Env, output: string): Proposal {
    if IsTerminal(run.state) then Hold(Terminal)
    else if run.state != AwaitingExternal || !env.leaseValid || output == "" then Refuse
    else if EstimateTokens(output) > run.budget.maxOutputTokens - run.outputTokens || Utf8Length(output) > run.budget.maxContextBytes then
      Fail(run, LoopFailure(BudgetCode, ExternalOverBudget, run.phase, false, false, 0), BudgetExceeded)
    else
      Write(run.(state := Succeeded, phase := ModelPhase, termination := Completed,
                 lastFailure := None, nextRetryAt := None, lastOutput := output,
                 turn := run.turn + 1, step := run.step + 1,
                 outputTokens := run.outputTokens + EstimateTokens(output),
                 totalTokens := run.totalTokens + EstimateTokens(output),
                 history := run.history + [Assistant(output, [])]), Terminal)
  }

  function EstimateTokens(text: string): nat { (|text| + 3) / 4 }

  function Utf8Length(text: string): nat {
    if text == "" then 0 else
    var c := text[0] as int;
    (if c < 0x80 then 1 else if c < 0x800 then 2 else if c < 0x1_0000 then 3 else 4) + Utf8Length(text[1..])
  }

  /** The retry schedule: doubling from 100 ms, capped at ten seconds. */
  function RetryDelay(attempt: int): int {
    if attempt <= 1 then 100 else Min(10_000, 2 * RetryDelay(attempt - 1))
  }

  /** True when this invocation of Advance issues a model request. */
  predicate IssuesModelCall(cfg: Config, run: AgentRun, env: Env) {
    && !IsTerminal(run.state) && env.leaseValid && !WallClockExceeded(run, env.now)
    && (run.state == Pending || run.state == Running)
    && run.pending == []
    && !(cfg.hasRetriever && run.contextHash == "")
    && AdmitModel(cfg, run).None?
  }

  /** The gateway idempotency key of the next model request. */
  datatype ModelKey = ModelKey(runId: string, turn: int, step: int, attempt: int)

  function NextModelKey(run: AgentRun): ModelKey {
    ModelKey(run.id, run.turn + 1, run.step + 1, run.modelAttempts + 1)
  }

  /** The checks of the store's commit that do not involve other writers. */
  predicate Storable(run: AgentRun) {
    |run.history| <= MAX_HISTORY_MESSAGES && |run.pending| <= MAX_PENDING_TOOLS && BudgetInBounds(run.budget)
  }

  /** AgentRunStore.Commit as a versioned cell: compare, check, swap. */
  function CommitTo(row: AgentRun, current: AgentRun, next: AgentRun): (r: Result<AgentRun>) {
    if IsTerminal(current.state) && current.state != next.state then Err
    else if !Storable(next) || row.version != current.version then Err
    else Ok(next.(version := current.version + 1))
  }
}

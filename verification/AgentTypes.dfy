/** The durable records of the bounded agent loop (internal/contracts/agent.go):
    budgets, messages, pending tool calls and the run record itself. */
module AgentTypes {
  import opened Basics

  datatype RunState =
    | Pending | Running | AwaitingApproval | AwaitingRetry | AwaitingExternal
    | Succeeded | Failed | Cancelled | DeadLetter

  datatype Phase = ModelPhase | ToolPhase

  datatype Termination =
    | NotTerminated | Completed | BudgetExceeded | ByCaller | ModelFailed | ToolFailed | Abstained

  /** Failure codes the loop itself writes; provider and tool codes are carried as they came. */
  datatype Code =
    | BudgetCode | ModelCode | ToolCode | ApprovalCode | CancelledCode
    | WorkspaceCode | AbstainedCode | ExternalCode
    | ProviderCode(name: string) | ToolRuntimeCode(name: string)

  /** The loop's own fixed messages, one constructor each; other texts are carried as they came. */
  datatype Reason =
    | Said(text: string)
    | LoopBudgetExceeded | WallClockBudgetExceeded | PhaseBudgetExceeded | ContextFailed | ContextInvalid
    | TurnOrStepBudget | ContextByteBudget | OutputTokensExhausted | ModelExecutionFailed
    | CumulativeBudget | ToolCallBudget | UnregisteredTool | ToolRetriesExhausted | BadToolArguments
    | NoPendingTool | ApprovalNotGranted | RunCancelled | ExternalRequired | ExternalOverBudget

  datatype LoopFailure = LoopFailure(
    code: Code, message: Reason, phase: Phase, retryable: bool, contentEmitted: bool, attempt: int)

  /** A tool call's JSON arguments, already decoded at the boundary. */
  datatype Arguments = Malformed | Argv(argv: seq<string>)

  datatype ToolCall = ToolCall(id: string, toolId: string, arguments: Arguments)

  datatype PendingCall = PendingCall(
    call: ToolCall, attempt: int, approvalId: string, lastFailure: Option<LoopFailure>)

  datatype Message =
    | User(content: string)
    | System(content: string)
    | Assistant(content: string, calls: seq<ToolCall>)
    | Tool(callId: string, content: string)

  datatype Budget = Budget(
    maxTurns: int, maxModelSteps: int, maxToolCalls: int, maxContextBytes: int,
    maxOutputTokens: int, maxWallTimeMs: int, maxCostUsd: real, maxToolAttempts: int)

  /** What AgentBudget.Normalize admits, after defaults have been filled in. */
  predicate BudgetInBounds(b: Budget) {
    && 1 <= b.maxTurns <= 100
    && 1 <= b.maxModelSteps <= 500
    && 1 <= b.maxToolCalls <= 1000
    && 1 <= b.maxContextBytes <= 0x40_0000
    && 1 <= b.maxOutputTokens <= 0x10_0000
    && 1 <= b.maxWallTimeMs <= 86_400_000
    && 0.0 <= b.maxCostUsd <= 1_000_000.0
    && 1 <= b.maxToolAttempts <= 10
  }

  function OrDefault(value: int, default: int): int {
    if value == 0 then default else value
  }

  function WithDefaults(b: Budget): Budget {
    Budget(
      OrDefault(b.maxTurns, 8), OrDefault(b.maxModelSteps, 32), OrDefault(b.maxToolCalls, 64),
      OrDefault(b.maxContextBytes, 0x40_0000), OrDefault(b.maxOutputTokens, 32_768),
      OrDefault(b.maxWallTimeMs, 1_800_000),
      if b.maxCostUsd == 0.0 then 10.0 else b.maxCostUsd,
      OrDefault(b.maxToolAttempts, 3))
  }

  function NormalizeBudget(b: Budget): Result<Budget> {
    var filled := WithDefaults(b);
    if BudgetInBounds(filled) then Ok(filled) else Err
  }

  datatype AgentRun = AgentRun(
    id: string,
    budget: Budget,
    createdAt: Option<int>,
    contextHash: string,
    state: RunState,
    phase: Phase,
    turn: int,
    step: int,
    modelAttempts: int,
    modelCalls: int,
    toolCalls: int,
    inputTokens: int,
    outputTokens: int,
    totalTokens: int,
    contextBytes: int,
    costUsd: real,
    history: seq<Message>,
    pending: seq<PendingCall>,
    lastOutput: string,
    lastFailure: Option<LoopFailure>,
    termination: Termination,
    nextRetryAt: Option<int>,
    version: int)

  predicate IsTerminal(s: RunState) {
    s == Succeeded || s == Failed || s == Cancelled || s == DeadLetter
  }

  const MAX_HISTORY_MESSAGES := 256
  const MAX_PENDING_TOOLS := 64
  const MAX_MODEL_OUTPUT_TOKENS := 8192

  /** The record AgentRunStore.Reserve inserts for an admitted request. */
  function Reserved(id: string, goal: string, budget: Budget, createdAt: int): AgentRun {
    AgentRun(id, budget, Some(createdAt), "", Pending, ModelPhase, 0, 0, 0, 0, 0, 0, 0, 0, 0, 0.0,
             [User(goal)], [], "", None, NotTerminated, None, 1)
  }
}

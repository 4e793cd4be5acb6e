/** The orchestrator as the source writes it: methods that read a run from the
    store, copy it to `next`, assign its fields and commit. Each is proved to do
    exactly what AgentLoop proposes, and Run is proved to stop by itself. */
module AgentOrchestrator {
  import opened Basics
  import opened AgentTypes
  import opened AgentLoop
  import opened AgentInvariants

  datatype Decision = Decision(action: Action, run: AgentRun)

  /** The durable row behind the store's compare-and-swap. */
  class RunStore {
    var row: AgentRun

    constructor (run: AgentRun)
      ensures row == run
    {
      row := run;
    }

    method Get() returns (run: AgentRun)
      ensures run == row
    {
      run := row;
    }

    method Commit(current: AgentRun, next: AgentRun) returns (r: Result<AgentRun>)
      modifies this
      ensures r == CommitTo(old(row), current, next)
      ensures row == if r.Ok? then r.value else old(row)
    {
      if IsTerminal(current.state) && current.state != next.state {
        return Err;
      }
      if !Storable(next) {
        return Err;
      }
      if row.version != current.version {
        return Err;
      }
      row := next.(version := current.version + 1);
      return Ok(row);
    }
  }

  /** What a proposal comes to when nobody else writes between read and commit. */
  function Settle(row: AgentRun, p: Proposal): (Result<Decision>, AgentRun) {
    match p
    case Refuse => (Err, row)
    case Hold(action) => (Ok(Decision(action, row)), row)
    case Write(next, action) =>
      match CommitTo(row, row, next)
      case Err => (Err, row)
      case Ok(committed) => (Ok(Decision(action, committed)), committed)
  }

  /** How one call of Run ended. */
  datatype Exit = ByDecision | ByError | ByWallClock | ByPhaseBudget

  class Orchestrator {
    const runs: RunStore
    const cfg: Config

    constructor (runs: RunStore, cfg: Config)
      ensures this.runs == runs && this.cfg == cfg
    {
      this.runs, this.cfg := runs, cfg;
    }

    method Fail(run: AgentRun, failure: LoopFailure, termination: Termination, attempt: int)
      returns (d: Result<Decision>)
      requires run == runs.row
      modifies runs
      ensures (d, runs.row) == Settle(old(runs.row), FailWithAttempt(run, failure, termination, attempt))
    {
      var next := run;
      next := next.(state := Failed, termination := termination, lastFailure := Some(failure), pending := []);
      next := next.(modelAttempts := Max(next.modelAttempts, attempt));
      var committed := runs.Commit(run, next);
      if committed.Err? { return Err; }
      return Ok(Decision(Terminal, committed.value));
    }

    method CommitAs(run: AgentRun, next: AgentRun, action: Action) returns (d: Result<Decision>)
      requires run == runs.row
      modifies runs
      ensures (d, runs.row) == Settle(old(runs.row), Write(next, action))
    {
      var committed := runs.Commit(run, next);
      if committed.Err? { return Err; }
      return Ok(Decision(action, committed.value));
    }

    method Advance(env: Env) returns (d: Result<Decision>)
      modifies runs
      ensures (d, runs.row) == Settle(old(runs.row), ProposeAdvance(cfg, old(runs.row), env))
    {
      var run := runs.Get();
      if IsTerminal(run.state) { return Ok(Decision(Terminal, run)); }
      if !env.leaseValid { return Err; }
      if WallClockExceeded(run, env.now) {
        d := Fail(run, LoopFailure(BudgetCode, LoopBudgetExceeded, run.phase, false, false, 0), BudgetExceeded, 0);
        return;
      }
      if run.state == AwaitingExternal { return Ok(Decision(Waiting, run)); }
      if run.state == AwaitingApproval {
        d := AdvanceApproval(run, env);
        return;
      }
      if run.state == AwaitingRetry {
        if run.nextRetryAt.Some? && run.nextRetryAt.value > env.now {
          return Ok(Decision(Waiting, run));
        }
        var next := run;
        next := next.(state := Running, lastFailure := None, nextRetryAt := None);
        d := CommitAs(run, next, Advanced);
        return;
      }
      if |run.pending| > 0 {
        d := AdvanceTool(run, env);
      } else {
        d := AdvanceModel(run, env);
      }
    }

    method AdvanceModel(run: AgentRun, env: Env) returns (d: Result<Decision>)
      requires run == runs.row
      modifies runs
      ensures (d, runs.row) == Settle(old(runs.row), ModelStep(cfg, run, env))
    {
      if cfg.hasRetriever && run.contextHash == "" {
        d := RecordContext(run, env.context);
        return;
      }
      if run.turn >= run.budget.maxTurns || run.modelAttempts >= run.budget.maxModelSteps {
        d := Fail(run, LoopFailure(BudgetCode, TurnOrStepBudget, ModelPhase, false, false, 0), BudgetExceeded, 0);
        return;
      }
      if InputBytes(cfg, run) > run.budget.maxContextBytes {
        d := Fail(run, LoopFailure(BudgetCode, ContextByteBudget, ModelPhase, false, false, 0), Abstained, 0);
        return;
      }
      var outputTokens := run.budget.maxOutputTokens - run.outputTokens;
      if outputTokens > MAX_MODEL_OUTPUT_TOKENS { outputTokens := MAX_MODEL_OUTPUT_TOKENS; }
      if outputTokens < 1 {
        d := Fail(run, LoopFailure(BudgetCode, OutputTokensExhausted, ModelPhase, false, false, 0), BudgetExceeded, 0);
        return;
      }
      var attempt := run.modelAttempts + 1;
      var next := run;
      match env.model {
        case Replied(r) =>
          d := RecordReply(run, r);
        case ProviderFailure(code, message, retryable, contentEmitted) =>
          var failure := LoopFailure(ProviderCode(code), Said(message), run.phase, retryable, contentEmitted, attempt);
          next := next.(modelAttempts := attempt, lastFailure := Some(failure));
          if retryable && !contentEmitted && attempt < run.budget.maxModelSteps {
            var delay := ComputeRetryDelay(attempt);
            next := next.(state := AwaitingRetry, nextRetryAt := Some(env.now + delay));
            d := CommitAs(run, next, Waiting);
          } else {
            d := Fail(run, failure, ModelFailed, attempt);
          }
        case UntypedError =>
          d := Fail(run, LoopFailure(ModelCode, ModelExecutionFailed, run.phase, false, false, attempt),
                    ModelFailed, attempt);
      }
    }

    method RecordContext(run: AgentRun, answer: Result<ContextPack>) returns (d: Result<Decision>)
      requires run == runs.row
      modifies runs
      ensures (d, runs.row) == Settle(old(runs.row), CompileContext(run, answer))
    {
      if answer.Err? {
        d := Fail(run, LoopFailure(AbstainedCode, ContextFailed, ModelPhase, false, false, 0), Abstained, 0);
        return;
      }
      var pack := answer.value;
      if !pack.workspaceMatches || pack.contentHash == "" {
        d := Fail(run, LoopFailure(WorkspaceCode, ContextInvalid, ModelPhase, false, false, 0), Abstained, 0);
        return;
      }
      var next := run;
      next := next.(contextHash := pack.contentHash, contextBytes := pack.totalBytes);
      if pack.items > 0 {
        next := next.(history := run.history + [System(pack.rendered)]);
      }
      d := CommitAs(run, next, Advanced);
    }

    method RecordReply(run: AgentRun, r: ModelReply) returns (d: Result<Decision>)
      requires run == runs.row
      modifies runs
      ensures (d, runs.row) == Settle(old(runs.row), AfterReply(cfg, run, r))
    {
      var attempt := run.modelAttempts + 1;
      if OverBudget(run, r) {
        d := Fail(run, LoopFailure(BudgetCode, CumulativeBudget, ModelPhase, false, false, attempt), BudgetExceeded, attempt);
        return;
      }
      var next := run;
      next := next.(
        state := Running, phase := ModelPhase, turn := run.turn + 1, step := run.step + 1,
        modelAttempts := attempt, modelCalls := run.modelCalls + 1,
        inputTokens := next.inputTokens + r.inputTokens,
        outputTokens := next.outputTokens + r.outputTokens,
        totalTokens := next.totalTokens + r.totalTokens,
        contextBytes := InputBytes(cfg, run),
        costUsd := run.costUsd + r.costUsd,
        lastFailure := None, nextRetryAt := None,
        history := run.history + [Assistant(r.content, r.calls)]);
      if |r.calls| > 0 {
        if run.toolCalls + |r.calls| > run.budget.maxToolCalls || |r.calls| > MAX_PENDING_TOOLS {
          d := Fail(run, LoopFailure(BudgetCode, ToolCallBudget, ToolPhase, false, false, attempt), BudgetExceeded, attempt);
          return;
        }
        var queue := QueueCalls(r.calls);
        next := next.(phase := ToolPhase, pending := queue, toolCalls := run.toolCalls + |r.calls|);
        d := CommitAs(run, next, Advanced);
        return;
      }
      next := next.(state := Succeeded, termination := Completed, lastOutput := r.content);
      d := CommitAs(run, next, Terminal);
    }

    method QueueCalls(calls: seq<ToolCall>) returns (queue: seq<PendingCall>)
      ensures queue == FreshPending(calls)
    {
      queue := [];
      for i := 0 to |calls|
        invariant queue == FreshPending(calls)[..i]
      {
        queue := queue + [PendingCall(calls[i], 0, "", None)];
      }
    }

    method AdvanceTool(run: AgentRun, env: Env) returns (d: Result<Decision>)
      requires run == runs.row && run.pending != []
      modifies runs
      ensures (d, runs.row) == Settle(old(runs.row), ToolStep(cfg, run, env))
    {
      hide CommitTo;
      var head := run.pending[0];
      if head.call.toolId !in cfg.registered {
        d := Fail(run, LoopFailure(ToolCode, UnregisteredTool, ToolPhase, false, false, 0), ToolFailed, 0);
        return;
      }
      if head.attempt >= run.budget.maxToolAttempts {
        d := Fail(run, LoopFailure(ToolCode, ToolRetriesExhausted, ToolPhase, false, false, head.attempt), ToolFailed, head.attempt);
        return;
      }
      if head.call.arguments.Malformed? || |head.call.arguments.argv| == 0 {
        d := Fail(run, LoopFailure(ToolCode, BadToolArguments, ToolPhase, false, false, 0), ToolFailed, 0);
        return;
      }
      var attempt := head.attempt + 1;
      var next := run;
      match env.tool {
        case ToolUnusable => return Err;
        case ToolInProgress => return Err;
        case ToolNeedsApproval(message, approvalId) =>
          next := next.(state := AwaitingApproval, phase := ToolPhase);
          next := next.(pending := next.pending[0 := head.(approvalId := approvalId)]);
          next := next.(lastFailure := Some(LoopFailure(ApprovalCode, Said(message), ToolPhase, false, false, 0)));
          d := CommitAs(run, next, Waiting);
        case ToolFailure(code, message, retryable) =>
          var failure := LoopFailure(ToolRuntimeCode(code), Said(message), ToolPhase, retryable, false, attempt);
          next := next.(lastFailure := Some(failure));
          next := next.(pending := next.pending[0 := head.(attempt := attempt, lastFailure := Some(failure))]);
          if retryable && attempt < run.budget.maxToolAttempts {
            var delay := ComputeRetryDelay(attempt);
            next := next.(state := AwaitingRetry, nextRetryAt := Some(env.now + delay));
            d := CommitAs(run, next, Waiting);
          } else {
            next := run;
            next := next.(state := Failed, termination := ToolFailed, phase := ToolPhase,
                          lastFailure := Some(failure), pending := []);
            d := CommitAs(run, next, Terminal);
          }
        case ToolDone(content) =>
          next := next.(state := Running, phase := ModelPhase, lastFailure := None, nextRetryAt := None);
          next := next.(pending := run.pending[1..], history := run.history + [Tool(head.call.id, content)]);
          d := CommitAs(run, next, Advanced);
      }
    }

    method AdvanceApproval(run: AgentRun, env: Env) returns (d: Result<Decision>)
      requires run == runs.row
      modifies runs
      ensures (d, runs.row) == Settle(old(runs.row), AfterApproval(cfg, run, env))
    {
      if |run.pending| == 0 {
        d := Fail(run, LoopFailure(ApprovalCode, NoPendingTool, ToolPhase, false, false, 0), Abstained, 0);
        return;
      }
      if run.pending[0].approvalId == "" || !cfg.hasApprovals {
        return Ok(Decision(Waiting, run));
      }
      match env.approval {
        case Denied | Expired =>
          d := Fail(run, LoopFailure(ApprovalCode, ApprovalNotGranted, ToolPhase, false, false, 0), ToolFailed, 0);
        case Approved =>
          d := AdvanceTool(run, env);
        case Unreadable | StillPending | OtherStatus =>
          return Ok(Decision(Waiting, run));
      }
    }

    method Cancel(env: Env, reason: string) returns (d: Result<Decision>)
      modifies runs
      ensures (d, runs.row) == Settle(old(runs.row), ProposeCancel(old(runs.row), env, reason))
    {
      var run := runs.Get();
      if IsTerminal(run.state) { return Ok(Decision(Terminal, run)); }
      if !env.leaseValid { return Err; }
      var next := run;
      next := next.(state := AgentTypes.Cancelled, phase := ModelPhase, termination := ByCaller);
      next := next.(pending := []);
      next := next.(lastFailure := Some(LoopFailure(CancelledCode, Said(reason), run.phase, false, false, 0)));
      if reason == "" {
        next := next.(lastFailure := Some(LoopFailure(CancelledCode, RunCancelled, run.phase, false, false, 0)));
      }
      d := CommitAs(run, next, Terminal);
    }

    method WaitExternal(env: Env, reason: string) returns (d: Result<Decision>)
      modifies runs
      ensures (d, runs.row) == Settle(old(runs.row), ProposeWait(old(runs.row), env, reason))
    {
      var run := runs.Get();
      if IsTerminal(run.state) { return Ok(Decision(Terminal, run)); }
      if !env.leaseValid { return Err; }
      var message := Said(reason);
      if reason == "" {
        message := ExternalRequired;
      }
      var next := run;
      next := next.(state := AwaitingExternal, nextRetryAt := None,
                    lastFailure := Some(LoopFailure(ExternalCode, message, run.phase, false, false, 0)));
      d := CommitAs(run, next, Waiting);
    }

    method CompleteExternal(env: Env, output: string) returns (d: Result<Decision>)
      modifies runs
      ensures (d, runs.row) == Settle(old(runs.row), ProposeComplete(old(runs.row), env, output))
    {
      var run := runs.Get();
      if IsTerminal(run.state) { return Ok(Decision(Terminal, run)); }
      if run.state != AwaitingExternal { return Err; }
      if !env.leaseValid { return Err; }
      if output == "" { return Err; }
      if EstimateTokens(output) > run.budget.maxOutputTokens - run.outputTokens || Utf8Length(output) > run.budget.maxContextBytes {
        d := Fail(run, LoopFailure(BudgetCode, ExternalOverBudget, run.phase, false, false, 0), BudgetExceeded, 0);
        return;
      }
      var next := run;
      next := next.(
        state := Succeeded, phase := ModelPhase, termination := Completed,
        lastFailure := None, nextRetryAt := None, lastOutput := output,
        turn := run.turn + 1, step := run.step + 1,
        outputTokens := next.outputTokens + EstimateTokens(output),
        totalTokens := next.totalTokens + EstimateTokens(output));
      next := next.(history := run.history + [Assistant(output, [])]);
      d := CommitAs(run, next, Terminal);
    }

    /** The backoff loop, against the doubling-with-cap schedule. */
    method ComputeRetryDelay(attempt: int) returns (delay: int)
      ensures delay == RetryDelay(attempt)
    {
      delay := 100;
      var i := 1;
      while i < attempt
        invariant 1 <= i <= Max(1, attempt)
        invariant 100 <= delay < 20_000
        invariant Min(10_000, delay) == RetryDelay(i)
      {
        if delay >= 10_000 {
          DelayStaysCapped(i, attempt);
          return 10_000;
        }
        delay := delay * 2;
        i := i + 1;
      }
      if delay > 10_000 {
        return 10_000;
      }
    }

    /** Advances until a waiting or terminal decision. `environment` supplies the
        answers of the i-th Advance. The phase-budget exit is never taken. */
    method Run(environment: nat -> Env) returns (d: Result<Decision>, exit: Exit)
      requires Inv(runs.row)
      modifies runs
      ensures Inv(runs.row)
      ensures exit != ByPhaseBudget
      ensures exit == ByDecision ==> d.Ok? && d.value.action != Advanced && d.value.run == runs.row
      ensures exit == ByError ==> d.Err?
      ensures exit == ByWallClock ==> IsTerminal(old(runs.row).state) == false
      ensures IsTerminal(old(runs.row).state) ==> runs.row == old(runs.row) && exit == ByDecision
    {
      hide Inv, Measure, ProposeAdvance, Settle;
      var run := runs.Get();
      var start := environment(0);
      if WallClockExceeded(run, start.now) && !IsTerminal(run.state) {
        PreambleSettles(cfg, run, start);
        d := Fail(run, LoopFailure(BudgetCode, WallClockBudgetExceeded, run.phase, false, false, 0), BudgetExceeded, 0);
        return d, ByWallClock;
      }
      var maxPhases := run.budget.maxModelSteps + run.budget.maxToolCalls + run.budget.maxTurns + 4;
      if maxPhases < 4 {
        maxPhases := 4;
      }
      MeasureFitsPhases(run);
      var i := 0;
      while i < maxPhases
        invariant 0 <= i <= maxPhases
        invariant Inv(runs.row)
        invariant i == 0 ==> runs.row == run
        invariant i > 0 ==> !IsTerminal(run.state) && !IsTerminal(runs.row.state)
        invariant !IsTerminal(run.state) ==> Measure(runs.row) + i <= Measure(run)
      {
        var env := environment(i);
        AdvanceSettles(cfg, runs.row, env);
        d := Advance(env);
        if d.Err? { return d, ByError; }
        if d.value.action != Advanced { return d, ByDecision; }
        i := i + 1;
      }
      MeasureFitsPhases(runs.row);
      assert false;
      return Err, ByPhaseBudget;
    }
  }

  lemma PreambleSettles(cfg: Config, run: AgentRun, env: Env)
    requires Inv(run)
    ensures Inv(Settle(run, ProposePreamble(run, env)).1)
  {
    if ProposePreamble(run, env).Write? { ProposedWritesAreLegal(RunPreamble, cfg, run, env); }
  }

  /** One Advance of a legal row leaves a legal row; a terminal one stays as it is, and
      whoever is told to go on has moved closer to the end. */
  lemma AdvanceSettles(cfg: Config, run: AgentRun, env: Env)
    requires Inv(run)
    ensures var (d, row) := Settle(run, ProposeAdvance(cfg, run, env));
            && Inv(row)
            && (d.Ok? ==> d.value.run == row)
            && (IsTerminal(run.state) ==> d.Ok? && d.value.action != Advanced && row == run)
            && (d.Ok? && d.value.action == Advanced ==>
                  !IsTerminal(run.state) && !IsTerminal(row.state) && Measure(row) < Measure(run))
  {
    var proposal := ProposeAdvance(cfg, run, env);
    OnlyWritesAdvance(cfg, run, env);
    if proposal.Write? {
      AdvanceWritesAreLegal(cfg, run, env);
      if proposal.action == Advanced { AdvancingLowersMeasure(cfg, run, env); }
      VersionIsImmaterial(proposal.next, run.version + 1);
    }
  }

  lemma VersionIsImmaterial(run: AgentRun, version: int)
    ensures Inv(run.(version := version)) == Inv(run)
    ensures Measure(run.(version := version)) == Measure(run)
  {
  }

  lemma DelayStaysCapped(i: int, attempt: int)
    requires 1 <= i <= attempt && RetryDelay(i) == 10_000
    ensures RetryDelay(attempt) == 10_000
    decreases attempt - i
  {
    if i < attempt { DelayStaysCapped(i + 1, attempt); }
  }

  /** A decision to advance always comes from a committed write. */
  lemma OnlyWritesAdvance(cfg: Config, run: AgentRun, env: Env)
    ensures ProposeAdvance(cfg, run, env).Hold? ==> ProposeAdvance(cfg, run, env).action != Advanced
  {
  }
}

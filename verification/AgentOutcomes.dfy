/** What a step of the agent loop makes of every answer it is given, read off the
    proposed row and the answer alone: which answers are asked for, which decide,
    and what they leave as it was. */
module AgentOutcomes {
  import opened Basics
  import opened AgentTypes
  import opened AgentLoop
  import opened AgentInvariants

  /** A run that a worker may take further now. */
  predicate Actionable(run: AgentRun, env: Env) {
    && run.state !in {Succeeded, Failed, Cancelled, DeadLetter}
    && env.leaseValid
    && (run.createdAt.Some? ==> env.now <= run.createdAt.value + run.budget.maxWallTimeMs)
  }

  /** The run ends failed for the reason given, and nothing else about it changes. */
  predicate EndsFailed(run: AgentRun, p: Proposal, termination: Termination, code: Code, attempts: int) {
    && p.Write? && p.action == Terminal
    && p.next.lastFailure.Some? && p.next.lastFailure.value.code == code
    && p.next == run.(state := Failed, termination := termination, pending := [], modelAttempts := attempts,
                      lastFailure := p.next.lastFailure)
  }

  // ----- Before anything is asked -----

  /** Terminal runs are reported, a lost lease is an error, a spent wall clock ends the run,
      and a paused run stays as it is until its time has come. */
  lemma PausedRunsAreLeftAlone(cfg: Config, run: AgentRun, env: Env)
    requires 0 <= run.modelAttempts
    ensures var p := ProposeAdvance(cfg, run, env);
            && (p == Hold(Terminal) <==> run.state in {Succeeded, Failed, Cancelled, DeadLetter})
            && (run.state !in {Succeeded, Failed, Cancelled, DeadLetter} && !env.leaseValid ==> p == Refuse)
            && (run.state !in {Succeeded, Failed, Cancelled, DeadLetter} && env.leaseValid && !Actionable(run, env) ==>
                EndsFailed(run, p, BudgetExceeded, BudgetCode, run.modelAttempts))
            && (Actionable(run, env) && run.state == AwaitingExternal ==> p == Hold(Waiting))
            && (Actionable(run, env) && run.state == AwaitingRetry ==>
                if run.nextRetryAt.Some? && env.now < run.nextRetryAt.value then p == Hold(Waiting)
                else p == Write(run.(state := Running, lastFailure := None, nextRetryAt := None), Advanced))
  {
  }

  // ----- Approvals -----

  /** What each approval status does. Only an approved call is taken further, and it is
      taken exactly as that of a running run is. */
  lemma ApprovalDecides(cfg: Config, run: AgentRun, env: Env)
    requires 0 <= run.modelAttempts && Actionable(run, env) && run.state == AwaitingApproval
    ensures var p := ProposeAdvance(cfg, run, env);
            if run.pending == [] then
              EndsFailed(run, p, Abstained, ApprovalCode, run.modelAttempts)
            else if run.pending[0].approvalId == "" || !cfg.hasApprovals then
              p == Hold(Waiting)
            else match env.approval
              case Denied => EndsFailed(run, p, ToolFailed, ApprovalCode, run.modelAttempts)
              case Expired => EndsFailed(run, p, ToolFailed, ApprovalCode, run.modelAttempts)
              case Approved => p == ProposeAdvance(cfg, run.(state := Running), env)
              case StillPending => p == Hold(Waiting)
              case Unreadable => p == Hold(Waiting)
              case OtherStatus => p == Hold(Waiting)
  {
  }

  /** The head tool call gets further: it is answered, or another attempt is counted. */
  predicate ToolProgress(run: AgentRun, next: AgentRun) {
    || (exists k :: |run.history| <= k < |next.history| && next.history[k].Tool?)
    || (run.pending != [] && next.pending != [] && next.pending[0].attempt > run.pending[0].attempt)
  }

  lemma NoToolProgressWithoutApproval(cfg: Config, run: AgentRun, env: Env)
    requires run.state == AwaitingApproval
    requires ProposeAdvance(cfg, run, env).Write? && ToolProgress(run, ProposeAdvance(cfg, run, env).next)
    ensures env.approval == Approved && cfg.hasApprovals
    ensures run.pending != [] && run.pending[0].approvalId != ""
  {
  }

  // ----- Tool calls -----

  /** This invocation puts the head call to its tool. */
  predicate AsksTool(cfg: Config, run: AgentRun, env: Env) {
    && Actionable(run, env)
    && run.pending != []
    && (|| run.state == Pending || run.state == Running
        || (&& run.state == AwaitingApproval && run.pending[0].approvalId != ""
            && cfg.hasApprovals && env.approval == Approved))
    && run.pending[0].call.toolId in cfg.registered
    && run.pending[0].attempt < run.budget.maxToolAttempts
    && run.pending[0].call.arguments.Argv? && |run.pending[0].call.arguments.argv| > 0
  }

  /** What the tool's answer does to the run: a result is appended and the call leaves the
      queue; a failure is retried until the attempts are spent; a demand for approval parks it. */
  lemma ToolAnswerDecides(cfg: Config, run: AgentRun, env: Env)
    requires AsksTool(cfg, run, env)
    ensures var p := ProposeAdvance(cfg, run, env);
            var head := run.pending[0];
            match env.tool
            case ToolUnusable => p == Refuse
            case ToolInProgress => p == Refuse
            case ToolDone(content) =>
              p == Write(run.(state := Running, phase := ModelPhase, lastFailure := None, nextRetryAt := None,
                              history := run.history + [Tool(head.call.id, content)],
                              pending := run.pending[1..]), Advanced)
            case ToolNeedsApproval(message, approvalId) =>
              && p.Write? && p.action == Waiting && p.next.state == AwaitingApproval && p.next.phase == ToolPhase
              && p.next.history == run.history
              && p.next.pending == [head.(approvalId := approvalId)] + run.pending[1..]
              && p.next.lastFailure.Some? && p.next.lastFailure.value.code == ApprovalCode
              && !p.next.lastFailure.value.retryable
            case ToolFailure(code, message, retryable) =>
              && p.Write? && p.next.history == run.history
              && p.next.lastFailure == Some(LoopFailure(ToolRuntimeCode(code), Said(message), ToolPhase,
                                                        retryable, false, head.attempt + 1))
              && (if retryable && head.attempt + 1 < run.budget.maxToolAttempts then
                    && p.action == Waiting && p.next.state == AwaitingRetry
                    && p.next.nextRetryAt == Some(env.now + RetryDelay(head.attempt + 1))
                    && p.next.pending == [head.(attempt := head.attempt + 1, lastFailure := p.next.lastFailure)]
                                         + run.pending[1..]
                  else
                    && p.action == Terminal && p.next.state == Failed && p.next.termination == ToolFailed
                    && p.next.pending == [] && p.next.modelAttempts == run.modelAttempts)
  {
  }

  /** A head call that cannot be put to its tool ends the run; the tool is never told. */
  lemma UnusableCallsEndTheRun(cfg: Config, run: AgentRun, env: Env)
    requires Inv(run) && Actionable(run, env) && run.pending != []
    requires run.state == Pending || run.state == Running
    requires !AsksTool(cfg, run, env)
    ensures EndsFailed(run, ProposeAdvance(cfg, run, env), ToolFailed, ToolCode, run.modelAttempts)
  {
    ToolRetryGuardIsDead(run);
  }

  // ----- Model calls -----

  /** A model call is issued exactly when nothing is open, the context is there, and turns,
      attempts, context bytes and output tokens are left. */
  lemma ModelCallsAreAdmittedWithinBudgets(cfg: Config, run: AgentRun, env: Env)
    ensures IssuesModelCall(cfg, run, env) <==>
      && Actionable(run, env) && (run.state == Pending || run.state == Running) && run.pending == []
      && (cfg.hasRetriever ==> run.contextHash != "")
      && run.turn < run.budget.maxTurns && run.modelAttempts < run.budget.maxModelSteps
      && cfg.historyBytes(run.history) + cfg.catalogBytes <= run.budget.maxContextBytes
      && run.outputTokens < run.budget.maxOutputTokens
  {
  }

  /** A run that may not ask its model, though its context is there and nothing is open, ends
      over its budget, or abstains when only the conversation is too long. */
  lemma RefusedModelCallsEndTheRun(cfg: Config, run: AgentRun, env: Env)
    requires 0 <= run.modelAttempts && Actionable(run, env) && (run.state == Pending || run.state == Running) && run.pending == []
    requires cfg.hasRetriever ==> run.contextHash != ""
    requires !IssuesModelCall(cfg, run, env)
    ensures var termination := if run.turn < run.budget.maxTurns && run.modelAttempts < run.budget.maxModelSteps
                                  && cfg.historyBytes(run.history) + cfg.catalogBytes > run.budget.maxContextBytes
                               then Abstained else BudgetExceeded;
            EndsFailed(run, ProposeAdvance(cfg, run, env), termination, BudgetCode, run.modelAttempts)
  {
  }

  /** The first step of a run with a retriever compiles its context once, or ends abstained. */
  lemma ContextDecides(cfg: Config, run: AgentRun, env: Env)
    requires 0 <= run.modelAttempts && Actionable(run, env) && (run.state == Pending || run.state == Running)
    requires run.pending == [] && cfg.hasRetriever && run.contextHash == ""
    ensures var p := ProposeAdvance(cfg, run, env);
            match env.context
            case Err => EndsFailed(run, p, Abstained, AbstainedCode, run.modelAttempts)
            case Ok(pack) =>
              if pack.workspaceMatches && pack.contentHash != "" then
                && p.Write? && p.action == Advanced
                && p.next == run.(contextHash := pack.contentHash, contextBytes := pack.totalBytes,
                                  history := p.next.history)
                && p.next.history == run.history + (if pack.items == 0 then [] else [System(pack.rendered)])
              else EndsFailed(run, p, Abstained, WorkspaceCode, run.modelAttempts)
  {
  }

  /** A reply fits what the run has left of its budgets. */
  predicate Affordable(run: AgentRun, r: ModelReply) {
    && run.outputTokens + r.outputTokens <= run.budget.maxOutputTokens
    && run.totalTokens + r.totalTokens <= run.budget.maxOutputTokens + run.inputTokens
    && run.costUsd + r.costUsd <= run.budget.maxCostUsd
  }

  /** The tool calls of a reply fit the run's and the queue's limits. */
  predicate Queueable(run: AgentRun, r: ModelReply) {
    run.toolCalls + |r.calls| <= run.budget.maxToolCalls && |r.calls| <= 64
  }

  /** An affordable reply is booked, once: with no tool calls it is the run's output, else its
      calls are queued in order. Any other reply ends the run and is not booked. */
  lemma ReplyDecides(cfg: Config, run: AgentRun, env: Env)
    requires 0 <= run.modelAttempts && IssuesModelCall(cfg, run, env) && env.model.Replied?
    ensures var p := ProposeAdvance(cfg, run, env);
            var r := env.model.reply;
            if Affordable(run, r) && (r.calls == [] || Queueable(run, r)) then
              && p.Write?
              && Booked(run, r, p.next)
              && p.next.contextBytes == cfg.historyBytes(run.history) + cfg.catalogBytes
              && (if r.calls == [] then
                    && p.action == Terminal && p.next.state == Succeeded && p.next.termination == Completed
                    && p.next.phase == ModelPhase && p.next.lastOutput == r.content
                    && p.next.pending == [] && p.next.toolCalls == run.toolCalls
                  else
                    && p.action == Advanced && p.next.state == Running && p.next.termination == run.termination
                    && p.next.phase == ToolPhase && p.next.lastOutput == run.lastOutput
                    && PendingToolCalls(p.next.pending) == r.calls
                    && (forall c :: c in p.next.pending ==> c.attempt == 0 && c.approvalId == "" && c.lastFailure.None?)
                    && p.next.toolCalls == run.toolCalls + |r.calls|)
            else EndsFailed(run, p, BudgetExceeded, BudgetCode, run.modelAttempts + 1)
  {
    var p := ProposeAdvance(cfg, run, env);
    var r := env.model.reply;
    if p.Write? && p.next.state == Running { assert PendingToolCalls(p.next.pending) == r.calls; }
  }

  /** Every counter of the run rises by what the reply reports. */
  predicate Booked(run: AgentRun, r: ModelReply, next: AgentRun) {
    && next.turn == run.turn + 1 && next.step == run.step + 1
    && next.modelAttempts == run.modelAttempts + 1 && next.modelCalls == run.modelCalls + 1
    && next.inputTokens - run.inputTokens == r.inputTokens
    && next.outputTokens - run.outputTokens == r.outputTokens
    && next.totalTokens - run.totalTokens == r.totalTokens
    && next.costUsd - run.costUsd == r.costUsd
    && next.history == run.history + [Assistant(r.content, r.calls)]
    && next.lastFailure.None? && next.nextRetryAt.None?
    && next.id == run.id && next.budget == run.budget && next.createdAt == run.createdAt
    && next.contextHash == run.contextHash && next.version == run.version
  }

  /** A failed model call counts an attempt and is retried after its delay exactly when it is
      retryable, showed nothing and attempts are left; otherwise the run ends. */
  lemma ModelFailureDecides(cfg: Config, run: AgentRun, env: Env)
    requires 0 <= run.modelAttempts && IssuesModelCall(cfg, run, env) && !env.model.Replied?
    ensures var p := ProposeAdvance(cfg, run, env);
            match env.model
            case UntypedError => EndsFailed(run, p, ModelFailed, ModelCode, run.modelAttempts + 1)
            case ProviderFailure(code, message, retryable, contentEmitted) =>
              if retryable && !contentEmitted && run.modelAttempts + 1 < run.budget.maxModelSteps then
                && p.Write? && p.action == Waiting && p.next.lastFailure.Some?
                && p.next.lastFailure.value.code == ProviderCode(code)
                && p.next.lastFailure.value.attempt == run.modelAttempts + 1
                && p.next == run.(state := AwaitingRetry, modelAttempts := run.modelAttempts + 1,
                                  nextRetryAt := Some(env.now + RetryDelay(run.modelAttempts + 1)),
                                  lastFailure := p.next.lastFailure)
              else EndsFailed(run, p, ModelFailed, ProviderCode(code), run.modelAttempts + 1)
            case Replied(_) => true
  {
  }

  /** The failure says where it arose, is retryable only if the provider or the tool said so,
      and has shown content only if the provider had. */
  predicate Traced(run: AgentRun, env: Env, f: LoopFailure) {
    && (f.code in {ToolCode, ApprovalCode} || f.code.ToolRuntimeCode? ==> f.phase == ToolPhase)
    && (f.code in {AbstainedCode, WorkspaceCode} ==> f.phase == ModelPhase)
    && (f.code == ModelCode || f.code.ProviderCode? ==> f.phase == run.phase)
    && (f.code.ProviderCode? ==>
          && env.model.ProviderFailure? && f.code.name == env.model.code && f.message == Said(env.model.message)
          && f.retryable == env.model.retryable && f.contentEmitted == env.model.contentEmitted)
    && (f.code.ToolRuntimeCode? ==> env.tool.ToolFailure? && f.retryable == env.tool.retryable)
    && (!f.code.ProviderCode? ==> !f.contentEmitted)
    && (!f.code.ProviderCode? && !f.code.ToolRuntimeCode? ==> !f.retryable)
  }

  predicate RecordsTraced(run: AgentRun, env: Env, p: Proposal) {
    p.Write? && p.next.lastFailure.Some? && p.next.lastFailure != run.lastFailure ==>
      Traced(run, env, p.next.lastFailure.value)
  }

  lemma ToolStepsRecordTraced(cfg: Config, run: AgentRun, env: Env)
    requires run.pending != []
    ensures RecordsTraced(run, env, ToolStep(cfg, run, env))
  {
    hide RetryDelay;
  }

  lemma ModelStepsRecordTraced(cfg: Config, run: AgentRun, env: Env)
    ensures RecordsTraced(run, env, ModelStep(cfg, run, env))
  {
    hide RetryDelay, FreshPending;
  }

  /** Every failure a step records is traced to what the step was told. */
  lemma FailuresSayWhereTheyArose(cfg: Config, run: AgentRun, env: Env)
    ensures RecordsTraced(run, env, ProposeAdvance(cfg, run, env))
  {
    hide ToolStep, ModelStep;
    if run.pending != [] { ToolStepsRecordTraced(cfg, run, env); }
    ModelStepsRecordTraced(cfg, run, env);
  }

  // ----- Answers that were not asked for -----

  /** An answer to a question this step does not ask changes nothing about what it proposes. */
  lemma UnaskedAnswersAreIgnored(cfg: Config, run: AgentRun, env: Env, other: Env)
    requires other.now == env.now && other.leaseValid == env.leaseValid
    requires IssuesModelCall(cfg, run, env) ==> other.model == env.model
    requires AsksTool(cfg, run, env) ==> other.tool == env.tool
    requires run.state == AwaitingApproval ==> other.approval == env.approval
    requires cfg.hasRetriever && run.contextHash == "" && run.pending == [] ==> other.context == env.context
    ensures ProposeAdvance(cfg, run, other) == ProposeAdvance(cfg, run, env)
  {
  }

  /** Each message a step appends is the answer to a question it asked. */
  lemma AppendedMessagesAreAnswers(cfg: Config, run: AgentRun, env: Env)
    requires Inv(run) && ProposeAdvance(cfg, run, env).Write?
    ensures var next := ProposeAdvance(cfg, run, env).next;
            || next.history == run.history
            || (exists m :: next.history == run.history + [m] && AnswersAdvance(cfg, run, env, m))
  {
    hide Inv;
    var next := ProposeAdvance(cfg, run, env).next;
    if next.history != run.history {
      assert Inv(run);
      MessageAppended(cfg, run, env);
      var m := next.history[|run.history|];
      assert next.history == run.history + [m] && AnswersAdvance(cfg, run, env, m);
    }
  }

  predicate AnswersAdvance(cfg: Config, run: AgentRun, env: Env, m: Message) {
    match m
    case User(_) => false
    case System(content) => cfg.hasRetriever && run.contextHash == "" && env.context.Ok? && content == env.context.value.rendered
    case Assistant(content, calls) =>
      && IssuesModelCall(cfg, run, env)
      && env.model.Replied? && content == env.model.reply.content && calls == env.model.reply.calls
    case Tool(callId, content) =>
      && AsksTool(cfg, run, env)
      && env.tool == ToolDone(content) && callId == run.pending[0].call.id
  }

  lemma MessageAppended(cfg: Config, run: AgentRun, env: Env)
    requires ProposeAdvance(cfg, run, env).Write? && ProposeAdvance(cfg, run, env).next.history != run.history
    ensures var next := ProposeAdvance(cfg, run, env).next;
            && |next.history| == |run.history| + 1 && next.history[..|run.history|] == run.history
            && AnswersAdvance(cfg, run, env, next.history[|run.history|])
  {
  }

  // ----- What callers ask for -----

  /** Cancelling ends every live run, with nothing pending and the reason given. */
  lemma CancellingEndsTheRun(cfg: Config, run: AgentRun, env: Env, reason: string)
    requires run.state !in {Succeeded, Failed, Cancelled, DeadLetter} && env.leaseValid
    ensures var p := Propose(Cancel(reason), cfg, run, env);
            && p.Write? && p.action == Terminal && p.next.lastFailure.Some?
            && p.next.lastFailure.value.code == CancelledCode && p.next.lastFailure.value.phase == run.phase
            && p.next.lastFailure.value.message == (if reason == "" then RunCancelled else Said(reason))
            && p.next == run.(state := Cancelled, phase := ModelPhase, termination := ByCaller, pending := [],
                              lastFailure := p.next.lastFailure)
  {
  }

  /** Pausing parks every live run, its open calls kept and any retry forgotten. */
  lemma WaitingParksTheRun(cfg: Config, run: AgentRun, env: Env, reason: string)
    requires run.state !in {Succeeded, Failed, Cancelled, DeadLetter} && env.leaseValid
    ensures var p := Propose(WaitExternal(reason), cfg, run, env);
            && p.Write? && p.action == Waiting && p.next.lastFailure.Some?
            && p.next.lastFailure.value.code == ExternalCode && p.next.lastFailure.value.phase == run.phase
            && p.next.lastFailure.value.message == (if reason == "" then ExternalRequired else Said(reason))
            && p.next == run.(state := AwaitingExternal, nextRetryAt := None, lastFailure := p.next.lastFailure)
  {
  }

  /** Completing ends a parked run with the text given when that fits its remaining output and
      its context, counting a turn and the text's tokens, and fails it otherwise. */
  lemma CompletingEndsParkedRuns(cfg: Config, run: AgentRun, env: Env, text: string)
    requires 0 <= run.modelAttempts && run.state !in {Succeeded, Failed, Cancelled, DeadLetter} && env.leaseValid
    ensures var p := Propose(CompleteExternal(text), cfg, run, env);
            if run.state != AwaitingExternal || text == "" then p == Refuse
            else if run.outputTokens + (|text| + 3) / 4 <= run.budget.maxOutputTokens
                    && Utf8Length(text) <= run.budget.maxContextBytes then
              && p.Write? && p.action == Terminal
              && p.next == run.(state := Succeeded, phase := ModelPhase, termination := Completed, lastOutput := text,
                                lastFailure := None, nextRetryAt := None, turn := run.turn + 1, step := run.step + 1,
                                outputTokens := run.outputTokens + (|text| + 3) / 4,
                                totalTokens := run.totalTokens + (|text| + 3) / 4,
                                history := run.history + [Assistant(text, [])])
            else EndsFailed(run, p, BudgetExceeded, BudgetCode, run.modelAttempts)
  {
    hide Utf8Length;
  }

  /** An ended run is reported as it is, and a lost lease is an error, to every caller. */
  lemma EndedRunsRefuseCallers(op: Operation, cfg: Config, run: AgentRun, env: Env)
    requires !op.RunPreamble?
    ensures IsTerminal(run.state) ==> Propose(op, cfg, run, env) == Hold(Terminal)
    ensures !IsTerminal(run.state) && !env.leaseValid && !op.RunOutOfPhases? ==> Propose(op, cfg, run, env) == Refuse
  {
  }

  // ----- The retry schedule -----

  function Doublings(n: nat): (p: nat) {
    if n == 0 then 1 else 2 * Doublings(n - 1)
  }

  lemma {:induction false} DoublingsGrow(m: nat, n: nat)
    requires m <= n
    ensures Doublings(m) <= Doublings(n)
  {
    if m < n { DoublingsGrow(m, n - 1); }
  }

  /** The n-th delay is 100 ms doubled n - 1 times, and never above ten seconds. */
  lemma {:induction false} DelaysDouble(attempt: nat)
    requires 1 <= attempt
    ensures RetryDelay(attempt) == Min(10_000, 100 * Doublings(attempt - 1))
  {
    if attempt > 1 { DelaysDouble(attempt - 1); }
  }

  // ----- Admission and commit -----

  /** A limit left out takes its default; one that is given stands if it is within its range. */
  predicate Settles(given: int, default: int, most: int, settled: int) {
    (given == 0 && settled == default) || (1 <= given <= most && settled == given)
  }

  /** A budget is admitted, as this one, exactly when each of its limits settles on its own. */
  lemma BudgetsNormalizeExactly(asked: Budget, b: Budget)
    ensures NormalizeBudget(asked) == Ok(b) <==>
              && Settles(asked.maxTurns, 8, 100, b.maxTurns)
              && Settles(asked.maxModelSteps, 32, 500, b.maxModelSteps)
              && Settles(asked.maxToolCalls, 64, 1000, b.maxToolCalls)
              && Settles(asked.maxContextBytes, 4 * 1024 * 1024, 4 * 1024 * 1024, b.maxContextBytes)
              && Settles(asked.maxOutputTokens, 32 * 1024, 1024 * 1024, b.maxOutputTokens)
              && Settles(asked.maxWallTimeMs, 30 * 60 * 1000, 24 * 60 * 60 * 1000, b.maxWallTimeMs)
              && Settles(asked.maxToolAttempts, 3, 10, b.maxToolAttempts)
              && 0.0 <= asked.maxCostUsd <= 1_000_000.0
              && b.maxCostUsd == (if asked.maxCostUsd == 0.0 then 10.0 else asked.maxCostUsd)
  {
  }

  /** A row is replaced exactly when it still has the version that was read, an ended run keeps
      its state, and the new row fits the store; the version then rises by one. */
  lemma CommitsSwapExactly(row: AgentRun, read: AgentRun, next: AgentRun, committed: AgentRun)
    ensures CommitTo(row, read, next) == Ok(committed) <==>
              && row.version == read.version
              && (read.state in {Succeeded, Failed, Cancelled, DeadLetter} ==> next.state == read.state)
              && |next.history| <= 256 && |next.pending| <= 64
              && BudgetInBounds(next.budget)
              && committed == next.(version := read.version + 1)
  {
  }

  /** A live run whose wall clock is spent, or whose phases are, ends over its budget; before
      that the preamble lets it go on. */
  lemma SpentRunsEnd(cfg: Config, run: AgentRun, env: Env)
    requires 0 <= run.modelAttempts && !IsTerminal(run.state)
    ensures EndsFailed(run, Propose(RunOutOfPhases, cfg, run, env), BudgetExceeded, BudgetCode, run.modelAttempts)
    ensures var p := Propose(RunPreamble, cfg, run, env);
            if run.createdAt.Some? && run.createdAt.value + run.budget.maxWallTimeMs < env.now
            then EndsFailed(run, p, BudgetExceeded, BudgetCode, run.modelAttempts)
            else p == Hold(Advanced)
  {
  }

  /** Two rows yield the same model request exactly when they are of the same run, at the same
      turn and step, with as many attempts made. */
  lemma KeysIdentifyAttempts(a: AgentRun, b: AgentRun)
    ensures NextModelKey(a) == NextModelKey(b) <==>
              a.id == b.id && a.turn == b.turn && a.step == b.step && a.modelAttempts == b.modelAttempts
  {
  }

  /** The characters of a text from a code point on. */
  function From(text: string, least: int): multiset<char> {
    if text == "" then multiset{}
    else From(text[1..], least) + if text[0] as int >= least then multiset{text[0]} else multiset{}
  }

  /** A character takes one byte, and one more from each of U+0080, U+0800 and U+10000 on. */
  lemma {:induction false} BytesPerCharacter(text: string)
    ensures Utf8Length(text) == |text| + |From(text, 0x80)| + |From(text, 0x800)| + |From(text, 0x1_0000)|
  {
    if text != "" { BytesPerCharacter(text[1..]); }
  }
}

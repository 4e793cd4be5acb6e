/** What every proposal of the agent loop keeps: the budgets, the shape of the
    conversation, and a measure that strictly falls with every advancing step. */
module AgentInvariants {
  import opened Basics
  import opened AgentTypes
  import opened AgentLoop

  // ----- The conversation -----

  /** Replays a history and returns the tool calls still waiting for an answer;
      None if the history is malformed: an answer out of order or to no call, or
      any other message while a call is open. */
  function OpenCalls(history: seq<Message>): Option<seq<ToolCall>> {
    if history == [] then Some([])
    else match OpenCalls(history[..|history| - 1])
      case None => None
      case Some(open) => Say(open, history[|history| - 1])
  }

  function Say(open: seq<ToolCall>, m: Message): Option<seq<ToolCall>> {
    match m
    case Assistant(_, calls) => if open == [] then Some(calls) else None
    case Tool(callId, _) => if open != [] && open[0].id == callId then Some(open[1..]) else None
    case User(_) => if open == [] then Some([]) else None
    case System(_) => if open == [] then Some([]) else None
  }

  function PendingToolCalls(pending: seq<PendingCall>): (calls: seq<ToolCall>)
    ensures |calls| == |pending|
    ensures forall i :: 0 <= i < |pending| ==> calls[i] == pending[i].call
  {
    seq(|pending|, i requires 0 <= i < |pending| => pending[i].call)
  }

  /** The calls of the last assistant message, and the ids answered since. */
  function LastCalls(history: seq<Message>): seq<ToolCall> {
    if history == [] then []
    else match history[|history| - 1]
      case Assistant(_, calls) => calls
      case _ => LastCalls(history[..|history| - 1])
  }

  function AnsweredSince(history: seq<Message>): seq<string> {
    if history == [] then []
    else match history[|history| - 1]
      case Assistant(_, _) => []
      case Tool(callId, _) => AnsweredSince(history[..|history| - 1]) + [callId]
      case _ => AnsweredSince(history[..|history| - 1])
  }

  function Ids(calls: seq<ToolCall>): (ids: seq<string>)
    ensures |ids| == |calls|
    ensures forall i :: 0 <= i < |calls| ==> ids[i] == calls[i].id
  {
    seq(|calls|, i requires 0 <= i < |calls| => calls[i].id)
  }

  /** A well-formed history answers its last assistant message's calls in order:
      what has been answered since, followed by what is still open, is what was asked. */
  lemma {:induction false} LastCallsAreAnsweredThenOpen(history: seq<Message>)
    requires OpenCalls(history).Some?
    ensures var k := |AnsweredSince(history)|;
            && k <= |LastCalls(history)|
            && AnsweredSince(history) == Ids(LastCalls(history))[..k]
            && OpenCalls(history).value == LastCalls(history)[k..]
  {
    if history != [] {
      var before := history[..|history| - 1];
      LastCallsAreAnsweredThenOpen(before);
    }
  }

  // ----- The invariant -----

  predicate WithinBudgets(r: AgentRun) {
    && BudgetInBounds(r.budget)
    && 0 <= r.modelCalls <= r.modelAttempts <= r.budget.maxModelSteps
    && |r.pending| <= r.toolCalls <= r.budget.maxToolCalls
    && r.outputTokens <= r.budget.maxOutputTokens
    && r.costUsd <= r.budget.maxCostUsd
    && forall p :: p in r.pending ==> 0 <= p.attempt < r.budget.maxToolAttempts
  }

  predicate LiveShape(r: AgentRun) {
    && OpenCalls(r.history) == Some(PendingToolCalls(r.pending))
    && 0 <= r.turn == r.step == r.modelCalls <= r.budget.maxTurns
    && r.termination == NotTerminated
  }

  predicate Inv(r: AgentRun) {
    && WithinBudgets(r)
    && (!IsTerminal(r.state) ==> LiveShape(r))
    && (IsTerminal(r.state) ==> r.termination != NotTerminated)
    && (r.state == Failed || r.state == Cancelled ==> r.pending == [])
  }

  lemma ReservedSatisfiesInv(id: string, goal: string, requested: Budget, createdAt: int)
    requires NormalizeBudget(requested).Ok?
    ensures Inv(Reserved(id, goal, NormalizeBudget(requested).value, createdAt))
  {
    var h := [User(goal)];
    assert h[..0] == [];
    assert OpenCalls(h) == Say([], h[0]) == Some([]);
  }

  lemma OpenCallsAppend(history: seq<Message>, m: Message)
    requires OpenCalls(history).Some?
    ensures OpenCalls(history + [m]) == Say(OpenCalls(history).value, m)
  {
    assert (history + [m])[..|history|] == history;
  }

  /** A write that starts from a live run, keeps the invariant and never reuses a model key. */
  predicate LegalWrite(base: AgentRun, next: AgentRun) {
    && !IsTerminal(base.state)
    && Inv(next)
    && next.id == base.id && next.budget == base.budget && next.version == base.version
    && base.history <= next.history
    && base.modelAttempts <= next.modelAttempts <= base.modelAttempts + 1
    && (base.modelAttempts == next.modelAttempts && !IsTerminal(next.state) ==>
        next.turn == base.turn && next.step == base.step)
  }

  /** Every write proposed by any operation, in any wiring and environment, is legal. */
  lemma ProposedWritesAreLegal(op: Operation, cfg: Config, run: AgentRun, env: Env)
    requires Inv(run)
    requires Propose(op, cfg, run, env).Write?
    ensures LegalWrite(run, Propose(op, cfg, run, env).next)
  {
    match op {
      case Advance => AdvanceWritesAreLegal(cfg, run, env);
      case Cancel(_) =>
      case WaitExternal(_) =>
      case CompleteExternal(_) =>
      case RunPreamble =>
      case RunOutOfPhases =>
    }
  }

  lemma AdvanceWritesAreLegal(cfg: Config, run: AgentRun, env: Env)
    requires Inv(run)
    requires ProposeAdvance(cfg, run, env).Write?
    ensures LegalWrite(run, ProposeAdvance(cfg, run, env).next)
  {
    if !WallClockExceeded(run, env.now) {
      if run.state == AwaitingApproval {
        if run.pending != [] && env.approval == Approved { ToolWritesAreLegal(cfg, run, env); }
      } else if run.state == AwaitingRetry {
      } else if run.pending != [] {
        ToolWritesAreLegal(cfg, run, env);
      } else {
        ModelWritesAreLegal(cfg, run, env);
      }
    }
  }

  /** The retry-budget guard of advanceTool never fires, so a tool's attempt count
      never leaks into ModelAttempts through the shared failure path. */
  lemma ToolRetryGuardIsDead(run: AgentRun)
    requires Inv(run) && run.pending != []
    ensures run.pending[0].attempt < run.budget.maxToolAttempts
  {
    assert run.pending[0] in run.pending;
  }

  lemma ToolWritesAreLegal(cfg: Config, run: AgentRun, env: Env)
    requires Inv(run) && !IsTerminal(run.state) && run.pending != []
    requires ToolStep(cfg, run, env).Write?
    ensures LegalWrite(run, ToolStep(cfg, run, env).next)
  {
    ToolRetryGuardIsDead(run);
    match env.tool {
      case ToolDone(content) => ToolDoneIsLegal(run, env.now, content);
      case ToolFailure(_, _, _) => ToolHeadUpdateIsLegal(run, env.now, env.tool);
      case ToolNeedsApproval(_, _) => ToolHeadUpdateIsLegal(run, env.now, env.tool);
      case ToolInProgress =>
      case ToolUnusable =>
    }
  }

  lemma ToolDoneIsLegal(run: AgentRun, now: int, content: string)
    requires Inv(run) && !IsTerminal(run.state) && run.pending != []
    ensures LegalWrite(run, AfterTool(run, now, ToolDone(content)).next)
  {
    OpenCallsAppend(run.history, Tool(run.pending[0].call.id, content));
    assert PendingToolCalls(run.pending[1..]) == PendingToolCalls(run.pending)[1..];
  }

  lemma ToolHeadUpdateIsLegal(run: AgentRun, now: int, answer: ToolAnswer)
    requires Inv(run) && !IsTerminal(run.state) && run.pending != []
    requires answer.ToolFailure? || answer.ToolNeedsApproval?
    ensures LegalWrite(run, AfterTool(run, now, answer).next)
  {
    ToolRetryGuardIsDead(run);
    var next := AfterTool(run, now, answer).next;
    if next.pending != [] {
      assert PendingToolCalls(next.pending) == PendingToolCalls(run.pending);
    }
  }

  lemma ModelWritesAreLegal(cfg: Config, run: AgentRun, env: Env)
    requires Inv(run) && !IsTerminal(run.state) && run.pending == []
    requires ModelStep(cfg, run, env).Write?
    ensures LegalWrite(run, ModelStep(cfg, run, env).next)
  {
    if cfg.hasRetriever && run.contextHash == "" {
      ContextIsLegal(run, env.context);
    } else if AdmitModel(cfg, run).None? {
      match env.model {
        case Replied(r) => ReplyIsLegal(cfg, run, r);
        case ProviderFailure(_, _, _, _) => ModelFailureIsLegal(cfg, run, env.now, env.model);
        case UntypedError => ModelFailureIsLegal(cfg, run, env.now, env.model);
      }
    }
  }

  lemma ContextIsLegal(run: AgentRun, answer: Result<ContextPack>)
    requires Inv(run) && !IsTerminal(run.state) && run.pending == []
    ensures LegalWrite(run, CompileContext(run, answer).next)
  {
    assert PendingToolCalls(run.pending) == [];
    if answer.Ok? { OpenCallsAppend(run.history, System(answer.value.rendered)); }
  }

  lemma ModelFailureIsLegal(cfg: Config, run: AgentRun, now: int, answer: ModelAnswer)
    requires Inv(run) && !IsTerminal(run.state) && AdmitModel(cfg, run).None? && !answer.Replied?
    ensures LegalWrite(run, AfterModel(cfg, run, now, answer).next)
  {
  }

  lemma ReplyIsLegal(cfg: Config, run: AgentRun, r: ModelReply)
    requires Inv(run) && !IsTerminal(run.state) && run.pending == [] && AdmitModel(cfg, run).None?
    ensures LegalWrite(run, AfterReply(cfg, run, r).next)
  {
    OpenCallsAppend(run.history, Assistant(r.content, r.calls));
    assert PendingToolCalls(run.pending) == [];
    assert PendingToolCalls(FreshPending(r.calls)) == r.calls;
  }

  // ----- No model call while a tool call is unanswered -----

  lemma ModelRequestsSeeAnsweredConversations(cfg: Config, run: AgentRun, env: Env)
    requires Inv(run) && IssuesModelCall(cfg, run, env)
    ensures OpenCalls(run.history) == Some([])
    ensures Ids(LastCalls(run.history)) == AnsweredSince(run.history)
    ensures run.turn < run.budget.maxTurns && run.modelAttempts < run.budget.maxModelSteps
  {
    LastCallsAreAnsweredThenOpen(run.history);
    assert PendingToolCalls(run.pending) == [];
    assert AnsweredSince(run.history) + Ids([]) == AnsweredSince(run.history);
  }

  // ----- Termination -----

  function Measure(r: AgentRun): int {
    (r.budget.maxTurns - r.turn) + (r.budget.maxToolCalls - r.toolCalls) + |r.pending|
    + (if r.contextHash == "" then 1 else 0)
    + (if r.state == AwaitingRetry then 1 else 0)
  }

  function MaxPhases(b: Budget): int {
    Max(4, b.maxModelSteps + b.maxToolCalls + b.maxTurns + 4)
  }

  lemma AdvancingLowersMeasure(cfg: Config, run: AgentRun, env: Env)
    requires Inv(run)
    requires ProposeAdvance(cfg, run, env).Write? && ProposeAdvance(cfg, run, env).action == Advanced
    ensures Measure(ProposeAdvance(cfg, run, env).next) < Measure(run)
    ensures !IsTerminal(ProposeAdvance(cfg, run, env).next.state)
  {
  }

  lemma MeasureFitsPhases(run: AgentRun)
    requires Inv(run)
    ensures !IsTerminal(run.state) ==> 0 <= Measure(run) <= run.budget.maxTurns + run.budget.maxToolCalls + 2
    ensures !IsTerminal(run.state) ==> Measure(run) < MaxPhases(run.budget)
  {
  }

  // ----- What CompleteExternal leaves outside the invariant -----

  /** Completing externally checks neither the turn budget nor open tool calls:
      the run ends inside its turn budget exactly when a turn was left, and ends
      with nothing pending exactly when nothing was. */
  lemma ExternalCompletionBounds(run: AgentRun, env: Env, output: string)
    requires Inv(run)
    requires ProposeComplete(run, env, output).Write? && ProposeComplete(run, env, output).next.state == Succeeded
    ensures var next := ProposeComplete(run, env, output).next;
            && (next.turn <= next.budget.maxTurns <==> run.turn < run.budget.maxTurns)
            && (next.pending == [] <==> run.pending == [])
            && (OpenCalls(next.history).Some? <==> run.pending == [])
  {
    var next := ProposeComplete(run, env, output).next;
    OpenCallsAppend(run.history, Assistant(output, []));
    assert |PendingToolCalls(run.pending)| == |run.pending|;
  }

  /** An admitted run for which the turn bound and the empty-queue property both fail. */
  lemma ExternalCompletionCanOverrun() returns (run: AgentRun, env: Env)
    ensures Inv(run)
    ensures ProposeComplete(run, env, "done").Write?
    ensures var next := ProposeComplete(run, env, "done").next;
            next.state == Succeeded && next.turn > next.budget.maxTurns && next.pending != []
  {
    var call := ToolCall("c", "t", Argv(["x"]));
    var b := Budget(1, 32, 64, 0x40_0000, 32_768, 1_800_000, 10.0, 3);
    run := AgentRun("r", b, None, "h", AwaitingExternal, ToolPhase, 1, 1, 1, 1, 1, 0, 0, 0, 0, 0.0,
                    [User("g"), Assistant("", [call])], [PendingCall(call, 0, "", None)],
                    "", None, NotTerminated, None, 3);
    env := Env(0, true, Err, UntypedError, ToolUnusable, Unreadable);
    assert [User("g"), Assistant("", [call])] == [User("g")] + [Assistant("", [call])];
    assert [User("g")] == [] + [User("g")];
    OpenCallsAppend([], User("g"));
    OpenCallsAppend([User("g")], Assistant("", [call]));
    assert PendingToolCalls(run.pending) == [call];
    assert Utf8Length("done") <= 0x40_0000 by { AsciiLength("done"); }
  }

  lemma AsciiLength(text: string)
    ensures Utf8Length(text) <= 4 * |text|
  {
  }
}

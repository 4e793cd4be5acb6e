/** Where durable rows come from: over every interleaving and crash, each version after the
    first is what some worker proposed for the version before it, so every message of a
    conversation answers a question asked, and no parked tool call moves unapproved. */
module AgentProvenance {
  import opened Basics
  import opened AgentTypes
  import opened AgentLoop
  import opened AgentInvariants
  import opened AgentSystem
  import opened AgentOutcomes

  /** At step `m` a worker that had read `base` proposed `next`. */
  ghost predicate ProposedAt(states: seq<State>, events: seq<Event>, m: nat, base: AgentRun, next: AgentRun)
    requires |states| == |events| + 1
  {
    && m < |events|
    && events[m].Effect? && events[m].worker in states[m].workers
    && states[m].workers[events[m].worker].base == base
    && var p := Propose(events[m].op, events[m].cfg, base, events[m].env);
       p.Write? && p.next == next
  }

  /** Whatever a worker holds ready to commit, it proposed at some step before. */
  lemma {:induction false} PreparedWasProposed(states: seq<State>, events: seq<Event>, n: nat, w: nat) returns (m: nat)
    requires Execution(states, events) && n < |states|
    requires w in states[n].workers && states[n].workers[w].HasPrepared?
    ensures m < n && ProposedAt(states, events, m, states[n].workers[w].base, states[n].workers[w].next)
  {
    hide Propose, CommitTo;
    assert n > 0;
    var e := events[n - 1];
    assert Next(states[n - 1], e, states[n]);
    if e.Effect? && e.worker == w {
      m := n - 1;
    } else {
      m := PreparedWasProposed(states, events, n - 1, w);
    }
  }

  /** Every version but the first was proposed, from the version before it. */
  lemma {:induction false} RowsWereProposed(states: seq<State>, events: seq<Event>, n: nat, i: nat) returns (m: nat)
    requires Execution(states, events) && n < |states| && i + 1 < |states[n].rows|
    ensures m < n && ProposedAt(states, events, m, states[n].rows[i],
                                states[n].rows[i + 1].(version := states[n].rows[i].version))
  {
    hide Propose, SystemInv, Inv;
    assert n > 0;
    var before := states[n - 1];
    assert Next(before, events[n - 1], states[n]);
    if i + 1 < |before.rows| {
      m := RowsWereProposed(states, events, n - 1, i);
    } else {
      var w := events[n - 1].worker;
      EveryStateSatisfiesInv(states, events, n - 1);
      CommitExtendsLastRow(before, w);
      m := PreparedWasProposed(states, events, n - 1, w);
      ProposalKeepsVersion(states, events, m, before.workers[w].base, before.workers[w].next);
    }
  }

  lemma ProposalKeepsVersion(states: seq<State>, events: seq<Event>, m: nat, base: AgentRun, next: AgentRun)
    requires Execution(states, events) && ProposedAt(states, events, m, base, next)
    ensures next.version == base.version
  {
    hide Propose, Inv;
    EveryStateSatisfiesInv(states, events, m);
    assert WorkerOk(states[m], states[m].workers[events[m].worker]);
    ProposedWritesAreLegal(events[m].op, events[m].cfg, base, events[m].env);
  }

  /** Over every execution: between two versions of a run that awaits an approval, its tool
      call is answered or tried again only by a worker that was told of the approval. */
  lemma NoExecutionRunsUnapprovedTools(states: seq<State>, events: seq<Event>, n: nat, i: nat) returns (m: nat)
    requires Execution(states, events) && n < |states| && i + 1 < |states[n].rows|
    requires states[n].rows[i].state == AwaitingApproval
    requires ToolProgress(states[n].rows[i], states[n].rows[i + 1])
    ensures m < n && events[m].Effect? && events[m].op == Advance && events[m].env.approval == Approved
    ensures events[m].worker in states[m].workers && states[m].workers[events[m].worker].base == states[n].rows[i]
  {
    var base, next := states[n].rows[i], states[n].rows[i + 1].(version := states[n].rows[i].version);
    m := RowsWereProposed(states, events, n, i);
    assert ToolProgress(base, next);
    OnlyAdvancingRunsTools(events[m].op, events[m].cfg, base, events[m].env);
    NoToolProgressWithoutApproval(events[m].cfg, base, events[m].env);
  }

  lemma OnlyAdvancingRunsTools(op: Operation, cfg: Config, base: AgentRun, env: Env)
    requires Propose(op, cfg, base, env).Write? && ToolProgress(base, Propose(op, cfg, base, env).next)
    ensures op == Advance
  {
    hide ProposeAdvance;
  }

  // ----- Every message has its source -----

  /** What a step appends to the conversation it works on. */
  predicate Answers(op: Operation, cfg: Config, run: AgentRun, env: Env, m: Message) {
    match op
    case Advance => AnswersAdvance(cfg, run, env, m)
    case CompleteExternal(output) => run.state == AwaitingExternal && m == Assistant(output, [])
    case _ => false
  }

  lemma StepsAppendAnswers(op: Operation, cfg: Config, run: AgentRun, env: Env)
    requires Inv(run) && Propose(op, cfg, run, env).Write?
    ensures var next := Propose(op, cfg, run, env).next;
            || next.history == run.history
            || (&& |next.history| == |run.history| + 1 && next.history[..|run.history|] == run.history
                && Answers(op, cfg, run, env, next.history[|run.history|]))
  {
    hide Inv;
    match op {
      case Advance =>
        hide ProposeAdvance, AnswersAdvance;
        if ProposeAdvance(cfg, run, env).next.history != run.history { MessageAppended(cfg, run, env); }
      case Cancel(_) =>
      case WaitExternal(_) =>
      case CompleteExternal(_) =>
      case RunPreamble =>
      case RunOutOfPhases =>
    }
  }

  /** Message `k` of a durable conversation was appended by step `m`, whose worker had read a
      version with exactly the messages before it. */
  ghost predicate AppendedAt(states: seq<State>, events: seq<Event>, m: nat, history: seq<Message>, k: nat)
    requires |states| == |events| + 1 && k < |history|
  {
    && m < |events| && events[m].Effect? && events[m].worker in states[m].workers
    && var base := states[m].workers[events[m].worker].base;
       && base.history == history[..k]
       && Answers(events[m].op, events[m].cfg, base, events[m].env, history[k])
  }

  /** Over every execution, every message after the goal is the answer some worker got to a
      question asked over exactly the conversation before it. */
  lemma {:induction false} EveryMessageHasItsSource(
      states: seq<State>, events: seq<Event>, n: nat, i: nat, k: nat) returns (m: nat)
    requires Execution(states, events) && n < |states| && i < |states[n].rows|
    requires 1 <= k < |states[n].rows[i].history|
    ensures m < n && AppendedAt(states, events, m, states[n].rows[i].history, k)
    decreases i
  {
    hide Propose, Answers, Inv;
    EveryStateSatisfiesInv(states, events, n);
    if i == 0 {
      FirstRowHoldsTheGoal(states, events, n);
      assert false;
    } else {
      var row, earlier := states[n].rows[i], states[n].rows[i - 1];
      var j := RowsWereProposed(states, events, n, i - 1);
      RowsSatisfyInv(states[n].rows, earlier);
      StepsAppendAnswers(events[j].op, events[j].cfg, earlier, events[j].env);
      if k < |earlier.history| {
        m := EveryMessageHasItsSource(states, events, n, i - 1, k);
        assert row.history[..k] == earlier.history[..k];
      } else {
        m := j;
        assert row.history[..k] == earlier.history;
      }
    }
  }

  lemma FirstRowHoldsTheGoal(states: seq<State>, events: seq<Event>, n: nat)
    requires Execution(states, events) && n < |states|
    ensures states[n].rows != [] && |states[n].rows[0].history| == 1 && states[n].rows[0].history[0].User?
  {
    hide Next, BudgetInBounds;
    FirstRowStays(states, events, n);
    var id, goal, requested: Budget, createdAt :| StartsAs(states[0], id, goal, requested, createdAt);
  }

  lemma {:induction false} FirstRowStays(states: seq<State>, events: seq<Event>, n: nat)
    requires Execution(states, events) && n < |states|
    ensures states[0].rows != [] && states[n].rows != [] && states[n].rows[0] == states[0].rows[0]
  {
    hide Propose, Inv, BudgetInBounds;
    if n > 0 {
      FirstRowStays(states, events, n - 1);
      assert Next(states[n - 1], events[n - 1], states[n]);
    }
  }
}

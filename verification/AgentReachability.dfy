/** Executions built step by step: a single worker taking turns, and the run that an
    external completion drives past its turn budget. */
module AgentReachability {
  import opened Basics
  import opened AgentTypes
  import opened AgentLoop
  import opened AgentInvariants
  import opened AgentSystem

  lemma OneMoreStep(states: seq<State>, events: seq<Event>, e: Event, next: State)
    requires Execution(states, events)
    requires states[|events|].rows != [] && Next(states[|events|], e, next)
    ensures Execution(states + [next], events + [e])
  {
    hide Next, Start;
    var all, steps := states + [next], events + [e];
    forall i | 0 <= i < |steps| ensures all[i].rows != [] && Next(all[i], steps[i], all[i + 1]) {
      if i < |events| { assert all[i] == states[i] && all[i + 1] == states[i + 1] && steps[i] == events[i]; }
    }
  }

  /** A lone worker reads the row, acts and commits what it proposes. */
  lemma TakeTurn(states: seq<State>, events: seq<Event>, run: AgentRun, op: Operation, cfg: Config, env: Env)
    returns (states': seq<State>, events': seq<Event>)
    requires Execution(states, events)
    requires states[|events|].rows != [] && Row(states[|events|]) == run && states[|events|].workers == map[]
    requires Propose(op, cfg, run, env).Write? && Storable(Propose(op, cfg, run, env).next) && !IsTerminal(run.state)
    ensures Execution(states', events')
    ensures var end := states'[|events'|];
            && end.rows != [] && end.workers == map[]
            && Row(end) == Propose(op, cfg, run, env).next.(version := run.version + 1)
  {
    hide Propose, Storable, IssuesModelCall;
    var s0 := states[|events|];
    var next := Propose(op, cfg, run, env).next;
    var s1 := s0.(workers := map[0 := HasRead(run)]);
    var s2 := State(s0.rows, map[0 := HasPrepared(run, next)], Issue(s0.issued, op, cfg, run, env));
    var s3 := State(s0.rows + [next.(version := run.version + 1)], map[], s2.issued);
    OneMoreStep(states, events, Read(0), s1);
    assert s1.workers[0 := HasPrepared(run, next)] == s2.workers;
    OneMoreStep(states + [s1], events + [Read(0)], Effect(0, op, cfg, env), s2);
    assert s2.workers - {0} == s3.workers;
    OneMoreStep(states + [s1] + [s2], events + [Read(0)] + [Effect(0, op, cfg, env)], Commit(0), s3);
    states', events' := states + [s1] + [s2] + [s3], events + [Read(0)] + [Effect(0, op, cfg, env)] + [Commit(0)];
  }

  const REQUESTED := Budget(1, 0, 0, 0, 0, 0, 0.0, 0)
  const CALL := ToolCall("c", "t", Argv(["x"]))

  lemma Beginning() returns (states: seq<State>, events: seq<Event>)
    ensures Execution(states, events) && events == [] && states[0].workers == map[]
    ensures states[0].rows == [Reserved("r", "g", WithDefaults(REQUESTED), 0)]
  {
    var s := State([Reserved("r", "g", WithDefaults(REQUESTED), 0)], map[], {});
    assert StartsAs(s, "r", "g", REQUESTED, 0);
    states, events := [s], [];
  }

  function Replying(): Env {
    Env(0, true, Err, Replied(ModelReply("", [CALL], 1, 1, 2, 0.0)), ToolUnusable, Unreadable)
  }

  const WIRING: Config := Config(false, false, {}, (h: seq<Message>) => 0, 0)

  lemma FirstTurn(run: AgentRun)
    requires run == Reserved("r", "g", WithDefaults(REQUESTED), 0)
    ensures !IsTerminal(run.state)
    ensures var p := Propose(Advance, WIRING, run, Replying());
            && p.Write? && Storable(p.next)
            && !IsTerminal(p.next.state) && p.next.turn == 1 && p.next.budget == run.budget
            && |p.next.pending| == 1 && |p.next.history| == 2 && p.next.outputTokens == 1
  {
  }

  lemma Parking(run: AgentRun)
    requires !IsTerminal(run.state) && Storable(run)
    ensures var p := Propose(WaitExternal(""), WIRING, run, Replying());
            && p.Write? && Storable(p.next) && p.next.state == AwaitingExternal
            && p.next.turn == run.turn && p.next.budget == run.budget && p.next.pending == run.pending
            && p.next.history == run.history && p.next.outputTokens == run.outputTokens
  {
  }

  lemma Completing(run: AgentRun)
    requires run.state == AwaitingExternal && Storable(run) && |run.history| == 2
    requires run.budget == WithDefaults(REQUESTED) && run.outputTokens == 1
    ensures var p := Propose(CompleteExternal("done"), WIRING, run, Replying());
            && p.Write? && Storable(p.next) && p.next.state == Succeeded
            && p.next.turn == run.turn + 1 && p.next.budget == run.budget && p.next.pending == run.pending
  {
    AsciiLength("done");
  }

  /** A run that asks for one tool call in its only turn, waits for an external result and is
      completed: reached from its reservation, it has succeeded past its turn budget with the
      call still pending. */
  lemma ExternalOverrunIsReachable() returns (states: seq<State>, events: seq<Event>)
    ensures Execution(states, events)
    ensures var end := states[|events|];
            && end.rows != []
            && Row(end).state == Succeeded && Row(end).turn > Row(end).budget.maxTurns && Row(end).pending != []
  {
    hide Execution, Propose, Storable;
    states, events := Beginning();
    assert Execution(states, events);
    var run := Reserved("r", "g", WithDefaults(REQUESTED), 0);
    FirstTurn(run);
    states, events := Turned(states, events, run, Advance);
    run := Propose(Advance, WIRING, run, Replying()).next.(version := run.version + 1);
    VersionDoesNotMatter(run);
    Parking(run);
    states, events := Turned(states, events, run, WaitExternal(""));
    run := Propose(WaitExternal(""), WIRING, run, Replying()).next.(version := run.version + 1);
    VersionDoesNotMatter(run);
    Completing(run);
    states, events := Turned(states, events, run, CompleteExternal("done"));
  }

  lemma Turned(states: seq<State>, events: seq<Event>, run: AgentRun, op: Operation)
    returns (states': seq<State>, events': seq<Event>)
    requires Execution(states, events)
    requires states[|events|].rows != [] && Row(states[|events|]) == run && states[|events|].workers == map[]
    requires Propose(op, WIRING, run, Replying()).Write? && Storable(Propose(op, WIRING, run, Replying()).next)
    requires !IsTerminal(run.state)
    ensures Execution(states', events')
    ensures |states'| == |events'| + 1
    ensures var end := states'[|events'|];
            && end.rows != [] && end.workers == map[]
            && Row(end) == Propose(op, WIRING, run, Replying()).next.(version := run.version + 1)
  {
    states', events' := TakeTurn(states, events, run, op, WIRING, Replying());
  }

  lemma VersionDoesNotMatter(run: AgentRun)
    ensures forall v :: Storable(run.(version := v)) == Storable(run)
  {
  }
}

/** Crash transparency of the model step: the agent loop over the gateway's call
    ledger, which replays a finished call to whoever asks with the same key. */
module AgentRecovery {
  import opened Basics
  import opened AgentTypes
  import opened AgentLoop
  import opened AgentInvariants
  import opened AgentSystem

  /** A durable call is running, or holds the answer it finished with. */
  datatype Entry = InFlight | Finished(answer: ModelAnswer)

  type Ledger = map<ModelKey, Entry>

  /** The gateway's Complete, seen by the loop: a finished call is replayed, a
      running one is refused without a typed failure, and a new one reaches the
      provider, whose typed answer is recorded before it is returned. */
  function Ask(ledger: Ledger, key: ModelKey, given: ModelAnswer): (ModelAnswer, Ledger) {
    if key in ledger then
      match ledger[key]
      case Finished(answer) => (answer, ledger)
      case InFlight => (UntypedError, ledger)
    else if given.UntypedError? then (given, ledger)
    else (given, ledger[key := Finished(given)])
  }

  /** Where a worker died inside its model step, having committed nothing. */
  datatype CrashPoint = BeforeStart | DuringCall | AfterFinish

  function LedgerAfterCrash(ledger: Ledger, key: ModelKey, given: ModelAnswer, point: CrashPoint): Ledger {
    match point
    case BeforeStart => ledger
    case DuringCall => if key in ledger then ledger else ledger[key := InFlight]
    case AfterFinish => Ask(ledger, key, given).1
  }

  datatype Crash = Crash(point: CrashPoint, given: ModelAnswer)

  function LedgerAfterCrashes(ledger: Ledger, key: ModelKey, crashes: seq<Crash>): Ledger
    decreases |crashes|
  {
    if crashes == [] then ledger
    else LedgerAfterCrashes(LedgerAfterCrash(ledger, key, crashes[0].given, crashes[0].point), key, crashes[1..])
  }

  /** Equality up to the retry time, the one field the wall clock enters; the
      run's state hash leaves it out too. */
  ghost predicate SameButClock(p: Proposal, q: Proposal) {
    && p.Write? && q.Write? && p.action == q.action
    && p.next.(nextRetryAt := None) == q.next.(nextRetryAt := None)
  }

  lemma {:induction false} EntriesSurviveCrashes(ledger: Ledger, key: ModelKey, crashes: seq<Crash>)
    requires key in ledger
    ensures LedgerAfterCrashes(ledger, key, crashes) == ledger
  {
    if crashes != [] { EntriesSurviveCrashes(ledger, key, crashes[1..]); }
  }

  /** What the first crash that touched the ledger left there is what every later
      worker is told: the recorded answer, or a refusal if the call never finished. */
  lemma {:induction false} FirstTouchDecides(ledger: Ledger, key: ModelKey, crashes: seq<Crash>, i: nat)
    requires key !in ledger && i < |crashes|
    requires forall j :: 0 <= j < i ==> crashes[j].point == BeforeStart
    requires crashes[i].point != BeforeStart && !crashes[i].given.UntypedError?
    ensures LedgerAfterCrashes(ledger, key, crashes) ==
            ledger[key := if crashes[i].point == DuringCall then InFlight else Finished(crashes[i].given)]
  {
    if i == 0 {
      EntriesSurviveCrashes(LedgerAfterCrash(ledger, key, crashes[0].given, crashes[0].point), key, crashes[1..]);
    } else {
      FirstTouchDecides(ledger, key, crashes[1..], i - 1);
    }
  }

  lemma {:induction false} UntouchedLedger(ledger: Ledger, key: ModelKey, crashes: seq<Crash>)
    requires forall j :: 0 <= j < |crashes| ==> crashes[j].point == BeforeStart
    ensures LedgerAfterCrashes(ledger, key, crashes) == ledger
  {
    if crashes != [] { UntouchedLedger(ledger, key, crashes[1..]); }
  }

  /** However many workers died on the way, resuming a model step commits what
      the uncrashed worker holding the same answer would have committed, if and only if
      the first worker to reach the ledger also finished its call: a call that died between the ledger's start and
      its finish is refused forever, and the refusal terminates the run. */
  lemma ResumptionIsTransparentUnlessInFlight(
      cfg: Config, run: AgentRun, ledger: Ledger, crashes: seq<Crash>, i: nat,
      nowUncrashed: int, nowResumed: int, givenLater: ModelAnswer)
    requires Inv(run) && NextModelKey(run) !in ledger && i < |crashes|
    requires forall j :: 0 <= j < i ==> crashes[j].point == BeforeStart
    requires crashes[i].point != BeforeStart && !crashes[i].given.UntypedError?
    ensures var left := LedgerAfterCrashes(ledger, NextModelKey(run), crashes);
            var resumed := AfterModel(cfg, run, nowResumed, Ask(left, NextModelKey(run), givenLater).0);
            && (SameButClock(AfterModel(cfg, run, nowUncrashed, crashes[i].given), resumed)
                <==> crashes[i].point == AfterFinish)
            && (crashes[i].point == DuringCall ==>
                resumed.next.state == Failed && resumed.next.termination == ModelFailed)
  {
    FirstTouchDecides(ledger, NextModelKey(run), crashes, i);
  }

  /** With no call ever started, the resumed worker simply asks the provider. */
  lemma ResumptionBeforeStartAsksAfresh(run: AgentRun, ledger: Ledger, crashes: seq<Crash>, given: ModelAnswer)
    requires NextModelKey(run) !in ledger
    requires forall j :: 0 <= j < |crashes| ==> crashes[j].point == BeforeStart
    ensures Ask(LedgerAfterCrashes(ledger, NextModelKey(run), crashes), NextModelKey(run), given)
            == Ask(ledger, NextModelKey(run), given)
  {
    UntouchedLedger(ledger, NextModelKey(run), crashes);
  }

  // ----- Interleavings over the ledger -----

  /** The shared ledger, and which worker is inside a call under which key. */
  datatype Calls = Calls(ledger: Ledger, inside: map<nat, ModelKey>)

  /** A step of the agent system, or a worker starting the ledger's record of its next model call. */
  datatype Move = Agent(event: Event) | StartCall(worker: nat)

  function Left(c: Calls, w: nat): Calls {
    c.(inside := c.inside - {w})
  }

  /** How the ledger answers a model request: a worker inside the call records what its
      provider said, or loses that write; any other is replayed a finished call, refused a
      running one, and cannot start a new one any more. */
  ghost predicate AnsweredBy(c: Calls, w: nat, key: ModelKey, answer: ModelAnswer, c': Calls) {
    if w in c.inside && c.inside[w] == key then
      c' == if answer.UntypedError? then Left(c, w) else Left(c, w).(ledger := c.ledger[key := Finished(answer)])
    else
      && c' == Left(c, w)
      && answer == if key in c.ledger && c.ledger[key].Finished? then c.ledger[key].answer else UntypedError
  }

  ghost predicate Moves(s: State, c: Calls, m: Move, s': State, c': Calls)
    requires s.rows != []
  {
    match m
    case StartCall(w) =>
      && s' == s && w in s.workers && s.workers[w].HasRead? && w !in c.inside
      && var key := NextModelKey(s.workers[w].base);
         key !in c.ledger && c' == Calls(c.ledger[key := InFlight], c.inside[w := key])
    case Agent(e) =>
      && Next(s, e, s')
      && if e.Effect? && e.op == Advance && IssuesModelCall(e.cfg, s.workers[e.worker].base, e.env)
         then AnsweredBy(c, e.worker, NextModelKey(s.workers[e.worker].base), e.env.model, c')
         else c' == Left(c, e.worker)
  }

  ghost predicate LedgeredExecution(states: seq<State>, moves: seq<Move>, calls: seq<Calls>) {
    && |states| == |calls| == |moves| + 1
    && Start(states[0]) && calls[0] == Calls(map[], map[])
    && forall i :: 0 <= i < |moves| ==>
         states[i].rows != [] && Moves(states[i], calls[i], moves[i], states[i + 1], calls[i + 1])
  }

  /** Whoever is inside a call is so alone, and its entry is running. */
  ghost predicate InsideAlone(c: Calls) {
    && (forall w :: w in c.inside ==> c.inside[w] in c.ledger && c.ledger[c.inside[w]] == InFlight)
    && forall v, w :: v in c.inside && w in c.inside && v != w ==> c.inside[v] != c.inside[w]
  }

  /** Finished entries stay. */
  ghost predicate Keeps(l: Ledger, l': Ledger) {
    forall k :: k in l && l[k].Finished? ==> k in l' && l'[k] == l[k]
  }

  lemma MovesKeepTheLedger(s: State, c: Calls, m: Move, s': State, c': Calls)
    requires s.rows != [] && Moves(s, c, m, s', c') && InsideAlone(c)
    ensures Keeps(c.ledger, c'.ledger) && InsideAlone(c')
  {
    hide Next, IssuesModelCall;
  }

  /** `next` is the outcome of `base`'s model request with the answer the ledger
      holds for it, or of a refusal that carried no typed failure. */
  ghost predicate Recorded(l: Ledger, base: AgentRun, next: AgentRun) {
    exists cfg, now, answer :: RecordedAs(l, base, next, cfg, now, answer)
  }

  ghost predicate RecordedAs(l: Ledger, base: AgentRun, next: AgentRun, cfg: Config, now: int, answer: ModelAnswer) {
    && AfterModel(cfg, base, now, answer).Write?
    && AfterModel(cfg, base, now, answer).next == next
    && (answer.UntypedError? || (NextModelKey(base) in l && l[NextModelKey(base)] == Finished(answer)))
  }

  ghost predicate OutcomesRecorded(s: State, l: Ledger) {
    && (forall w :: w in s.workers && s.workers[w].HasPrepared?
          && s.workers[w].next.modelAttempts != s.workers[w].base.modelAttempts
          ==> Recorded(l, s.workers[w].base, s.workers[w].next))
    && (forall i :: 0 <= i < |s.rows| - 1 && s.rows[i + 1].modelAttempts != s.rows[i].modelAttempts
          ==> Recorded(l, s.rows[i], s.rows[i + 1].(version := s.rows[i].version)))
  }

  lemma RecordedSurvives(l: Ledger, l': Ledger, base: AgentRun, next: AgentRun)
    requires Recorded(l, base, next) && Keeps(l, l')
    ensures Recorded(l', base, next)
  {
    var cfg, now, answer :| RecordedAs(l, base, next, cfg, now, answer);
    assert RecordedAs(l', base, next, cfg, now, answer);
  }

  lemma OutcomesSurvive(s: State, l: Ledger, l': Ledger)
    requires OutcomesRecorded(s, l) && Keeps(l, l')
    ensures OutcomesRecorded(s, l')
  {
    forall w | w in s.workers && s.workers[w].HasPrepared? && s.workers[w].next.modelAttempts != s.workers[w].base.modelAttempts
      ensures Recorded(l', s.workers[w].base, s.workers[w].next)
    {
      RecordedSurvives(l, l', s.workers[w].base, s.workers[w].next);
    }
    forall i | 0 <= i < |s.rows| - 1 && s.rows[i + 1].modelAttempts != s.rows[i].modelAttempts
      ensures Recorded(l', s.rows[i], s.rows[i + 1].(version := s.rows[i].version))
    {
      RecordedSurvives(l, l', s.rows[i], s.rows[i + 1].(version := s.rows[i].version));
    }
  }

  /** Only a model outcome moves the attempt counter. */
  lemma AttemptsMoveOnlyWithModelCalls(op: Operation, cfg: Config, run: AgentRun, env: Env)
    requires Inv(run) && Propose(op, cfg, run, env).Write?
    requires Propose(op, cfg, run, env).next.modelAttempts != run.modelAttempts
    ensures op == Advance && IssuesModelCall(cfg, run, env)
    ensures Propose(op, cfg, run, env) == AfterModel(cfg, run, env.now, env.model)
  {
    if op == Advance && run.pending != [] { ToolRetryGuardIsDead(run); }
  }

  lemma MoveKeepsOutcomesRecorded(s: State, c: Calls, m: Move, s': State, c': Calls)
    requires SystemInv(s) && Moves(s, c, m, s', c') && InsideAlone(c) && OutcomesRecorded(s, c.ledger)
    ensures OutcomesRecorded(s', c'.ledger)
  {
    hide Recorded, RowsOk, WorkerOk, IssuedFrom, Propose;
    MovesKeepTheLedger(s, c, m, s', c');
    OutcomesSurvive(s, c.ledger, c'.ledger);
    if m.Agent? {
      match m.event {
        case Read(_) =>
        case Crash(_) =>
        case Commit(w) => CommitKeepsOutcomesRecorded(s, c'.ledger, w, s');
        case Effect(_, _, _, _) => EffectIsRecorded(s, c, m.event, s', c');
      }
    }
  }

  lemma CommitKeepsOutcomesRecorded(s: State, l: Ledger, w: nat, s': State)
    requires SystemInv(s) && Next(s, Event.Commit(w), s') && OutcomesRecorded(s, l)
    ensures OutcomesRecorded(s', l)
  {
    hide Recorded, RowsOk, LegalWrite, LiveShape, WithinBudgets;
    if CommitTo(Row(s), s.workers[w].base, s.workers[w].next).Ok? {
      CommitExtendsLastRow(s, w);
      assert WorkerOk(s, s.workers[w]);
      LegalWritesKeepVersion(s.workers[w].base, s.workers[w].next);
    }
  }

  lemma LegalWritesKeepVersion(base: AgentRun, next: AgentRun)
    requires LegalWrite(base, next)
    ensures next.version == base.version
  {
  }

  lemma EffectIsRecorded(s: State, c: Calls, e: Event, s': State, c': Calls)
    requires e.Effect? && SystemInv(s) && Moves(s, c, Agent(e), s', c')
    ensures var base, proposal := s.workers[e.worker].base, Propose(e.op, e.cfg, s.workers[e.worker].base, e.env);
            proposal.Write? && proposal.next.modelAttempts != base.modelAttempts
            ==> Recorded(c'.ledger, base, proposal.next)
  {
    var base, proposal := s.workers[e.worker].base, Propose(e.op, e.cfg, s.workers[e.worker].base, e.env);
    assert WorkerOk(s, s.workers[e.worker]);
    if proposal.Write? && proposal.next.modelAttempts != base.modelAttempts {
      hide Propose, IssuesModelCall, Inv, LegalWrite;
      AttemptsMoveOnlyWithModelCalls(e.op, e.cfg, base, e.env);
      assert RecordedAs(c'.ledger, base, proposal.next, e.cfg, e.env.now, e.env.model);
    }
  }

  lemma NothingRecordedAtStart(s: State, l: Ledger)
    requires Start(s)
    ensures OutcomesRecorded(s, l)
  {
  }

  /** In every execution, whoever is inside a call is there alone, and every model outcome that
      ever became durable is the one the ledger holds for that request, or a refusal,
      whichever worker committed it, whoever else was asking and however many crashed. */
  lemma {:induction false} DurableOutcomesAreTheRecordedOnes(
      states: seq<State>, moves: seq<Move>, calls: seq<Calls>, n: nat)
    requires LedgeredExecution(states, moves, calls) && n < |states|
    ensures SystemInv(states[n]) && InsideAlone(calls[n])
    ensures OutcomesRecorded(states[n], calls[n].ledger)
  {
    hide Next, SystemInv, OutcomesRecorded, InsideAlone;
    if n == 0 {
      NothingRecordedAtStart(states[0], calls[0].ledger);
      StartSatisfiesInv(states[0]);
      NobodyInsideAtStart();
    } else {
      var s, c, m := states[n - 1], calls[n - 1], moves[n - 1];
      DurableOutcomesAreTheRecordedOnes(states, moves, calls, n - 1);
      MovesKeepTheLedger(s, c, m, states[n], calls[n]);
      MoveKeepsOutcomesRecorded(s, c, m, states[n], calls[n]);
      if m.Agent? { NextKeepsInv(s, m.event, states[n]); }
    }
  }

  lemma NobodyInsideAtStart()
    ensures InsideAlone(Calls(map[], map[]))
  {
  }

  /** While one worker is inside a call, another that sends the same request is refused, and
      if it commits first it ends the run as failed. */
  lemma RefusedWhileInsideFailsTheRun(s: State, c: Calls, e: Event, s': State, c': Calls, v: nat)
    requires SystemInv(s) && Moves(s, c, Agent(e), s', c') && InsideAlone(c)
    requires e.Effect? && e.op == Advance && IssuesModelCall(e.cfg, s.workers[e.worker].base, e.env)
    requires v in c.inside && v != e.worker && c.inside[v] == NextModelKey(s.workers[e.worker].base)
    ensures e.env.model == UntypedError && c'.ledger == c.ledger
    ensures e.worker in s'.workers && s'.workers[e.worker].HasPrepared?
    ensures s'.workers[e.worker].next.state == Failed && s'.workers[e.worker].next.termination == ModelFailed
  {
    hide Inv, LegalWrite;
    assert c.ledger[c.inside[v]] == InFlight;
  }
}

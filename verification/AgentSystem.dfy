/** Any number of workers over one durable run: each reads the row, performs its
    external effect, then commits by compare-and-swap, and may crash between any
    two of these. The invariant holds in every state of every such execution. */
module AgentSystem {
  import opened Basics
  import opened AgentTypes
  import opened AgentLoop
  import opened AgentInvariants

  /** A worker has read `base`, or has also prepared the run it will commit. */
  datatype Worker = HasRead(base: AgentRun) | HasPrepared(base: AgentRun, next: AgentRun)

  /** `rows` are the versions committed so far, the last one being the durable row;
      `issued` are the keys of all model requests ever sent. Both are history. */
  datatype State = State(rows: seq<AgentRun>, workers: map<nat, Worker>, issued: set<ModelKey>)

  function Row(s: State): AgentRun
    requires s.rows != []
  {
    s.rows[|s.rows| - 1]
  }

  datatype Event =
    | Read(worker: nat)
    | Effect(worker: nat, op: Operation, cfg: Config, env: Env)
    | Commit(worker: nat)
    | Crash(worker: nat)

  ghost predicate Start(s: State) {
    exists id, goal, requested: Budget, createdAt :: StartsAs(s, id, goal, requested, createdAt)
  }

  ghost predicate StartsAs(s: State, id: string, goal: string, requested: Budget, createdAt: int) {
    && NormalizeBudget(requested).Ok?
    && s == State([Reserved(id, goal, NormalizeBudget(requested).value, createdAt)], map[], {})
  }

  ghost function Issue(issued: set<ModelKey>, op: Operation, cfg: Config, base: AgentRun, env: Env): set<ModelKey> {
    if op == Advance && IssuesModelCall(cfg, base, env) then issued + {NextModelKey(base)} else issued
  }

  /** The worker computes its proposal from the row it read, however old that is;
      without a write it is done. */
  ghost predicate EffectOf(s: State, w: nat, op: Operation, cfg: Config, env: Env, s': State)
    requires w in s.workers
  {
    var base := s.workers[w].base;
    var proposal := Propose(op, cfg, base, env);
    && s'.rows == s.rows
    && s'.issued == Issue(s.issued, op, cfg, base, env)
    && s'.workers == (if proposal.Write? then s.workers[w := HasPrepared(base, proposal.next)] else s.workers - {w})
  }

  ghost predicate Next(s: State, e: Event, s': State)
    requires s.rows != []
  {
    match e
    case Read(w) =>
      s' == s.(workers := s.workers[w := HasRead(Row(s))])
    case Effect(w, op, cfg, env) =>
      && w in s.workers && s.workers[w].HasRead?
      && EffectOf(s, w, op, cfg, env, s')
    case Commit(w) =>
      && w in s.workers && s.workers[w].HasPrepared?
      && var result := CommitTo(Row(s), s.workers[w].base, s.workers[w].next);
         s' == State(if result.Ok? then s.rows + [result.value] else s.rows, s.workers - {w}, s.issued)
    case Crash(w) =>
      s' == s.(workers := s.workers - {w})
  }

  ghost predicate Execution(states: seq<State>, events: seq<Event>) {
    && |states| == |events| + 1
    && Start(states[0])
    && forall i :: 0 <= i < |events| ==> states[i].rows != [] && Next(states[i], events[i], states[i + 1])
  }

  // ----- The system invariant -----

  ghost predicate RowsOk(rows: seq<AgentRun>) {
    && (forall i :: 0 <= i < |rows| ==> Inv(rows[i]) && rows[i].version == rows[0].version + i)
    && (forall i, j :: 0 <= i < j < |rows| ==> Later(rows[i], rows[j]))
  }

  /** How a later version relates to an earlier one. */
  ghost predicate Later(a: AgentRun, b: AgentRun) {
    && !IsTerminal(a.state)
    && b.id == a.id && b.budget == a.budget
    && a.history <= b.history
    && a.modelAttempts <= b.modelAttempts
    && (a.modelAttempts == b.modelAttempts && !IsTerminal(b.state) ==> b.turn == a.turn && b.step == a.step)
  }

  ghost predicate WorkerOk(s: State, w: Worker) {
    && w.base in s.rows
    && (w.HasPrepared? ==> LegalWrite(w.base, w.next))
  }

  ghost predicate CanIssue(r: AgentRun) {
    !IsTerminal(r.state) && r.modelAttempts < r.budget.maxModelSteps
  }

  ghost predicate IssuedFrom(rows: seq<AgentRun>, k: ModelKey) {
    exists i :: 0 <= i < |rows| && CanIssue(rows[i]) && k == NextModelKey(rows[i])
  }

  ghost predicate SystemInv(s: State) {
    && s.rows != []
    && RowsOk(s.rows)
    && (forall w :: w in s.workers ==> WorkerOk(s, s.workers[w]))
    && (forall k :: k in s.issued ==> IssuedFrom(s.rows, k))
  }

  lemma StartSatisfiesInv(s: State)
    requires Start(s)
    ensures SystemInv(s)
  {
    var id, goal, requested: Budget, createdAt :| StartsAs(s, id, goal, requested, createdAt);
    ReservedSatisfiesInv(id, goal, requested, createdAt);
  }

  lemma NextKeepsInv(s: State, e: Event, s': State)
    requires SystemInv(s) && Next(s, e, s')
    ensures SystemInv(s')
  {
    match e {
      case Read(w) =>
      case Crash(w) =>
      case Effect(w, op, cfg, env) => EffectKeepsInv(s, w, op, cfg, env, s');
      case Commit(w) => CommitKeepsInv(s, w, s');
    }
  }

  lemma RowsSatisfyInv(rows: seq<AgentRun>, run: AgentRun)
    requires RowsOk(rows) && run in rows
    ensures Inv(run)
  {
  }

  lemma EffectKeepsInv(s: State, w: nat, op: Operation, cfg: Config, env: Env, s': State)
    requires SystemInv(s) && Next(s, Effect(w, op, cfg, env), s')
    ensures SystemInv(s')
  {
    hide Propose, LegalWrite, WithinBudgets, LiveShape, RowsOk;
    var base := s.workers[w].base;
    assert WorkerOk(s, s.workers[w]);
    RowsSatisfyInv(s.rows, base);
    var i :| 0 <= i < |s.rows| && s.rows[i] == base;
    if Propose(op, cfg, base, env).Write? { ProposedWritesAreLegal(op, cfg, base, env); }
    if op == Advance && IssuesModelCall(cfg, base, env) {
      ModelRequestsSeeAnsweredConversations(cfg, base, env);
      assert CanIssue(s.rows[i]);
      assert IssuedFrom(s.rows, NextModelKey(base));
    }
    forall v | v in s'.workers ensures WorkerOk(s', s'.workers[v]) {
      if v != w { assert WorkerOk(s, s.workers[v]); }
    }
  }

  lemma CommitKeepsInv(s: State, w: nat, s': State)
    requires SystemInv(s) && Next(s, Commit(w), s')
    ensures SystemInv(s')
  {
    var base, next := s.workers[w].base, s.workers[w].next;
    assert WorkerOk(s, s.workers[w]);
    var result := CommitTo(Row(s), base, next);
    if result.Ok? {
      CommitExtendsLastRow(s, w);
      ExtendRows(s.rows, result.value);
      forall k | k in s'.issued ensures IssuedFrom(s'.rows, k) {
        var i :| 0 <= i < |s.rows| && CanIssue(s.rows[i]) && k == NextModelKey(s.rows[i]);
        assert s'.rows[i] == s.rows[i];
      }
    }
    forall v | v in s'.workers ensures WorkerOk(s', s'.workers[v]) {
      assert WorkerOk(s, s.workers[v]);
    }
  }

  /** Versions identify rows, so a commit that passes the compare was prepared
      from the very row it replaces. */
  lemma CommitExtendsLastRow(s: State, w: nat)
    requires SystemInv(s) && w in s.workers && s.workers[w].HasPrepared?
    requires CommitTo(Row(s), s.workers[w].base, s.workers[w].next).Ok?
    ensures s.workers[w].base == Row(s)
  {
    assert WorkerOk(s, s.workers[w]);
    var i :| 0 <= i < |s.rows| && s.rows[i] == s.workers[w].base;
    assert s.rows[i].version == s.rows[0].version + i;
  }

  lemma ExtendRows(rows: seq<AgentRun>, next: AgentRun)
    requires rows != [] && RowsOk(rows)
    requires LegalWrite(rows[|rows| - 1], next.(version := rows[|rows| - 1].version))
    requires next.version == rows[|rows| - 1].version + 1
    ensures RowsOk(rows + [next])
  {
    var last := rows[|rows| - 1];
    assert Inv(next);
    forall i | 0 <= i < |rows| ensures Later(rows[i], next) {
      if i < |rows| - 1 { assert Later(rows[i], last); }
    }
  }

  // ----- Theorems over whole executions -----

  lemma {:induction false} EveryStateSatisfiesInv(states: seq<State>, events: seq<Event>, n: nat)
    requires Execution(states, events) && n < |states|
    ensures SystemInv(states[n])
  {
    hide Next, SystemInv;
    if n == 0 {
      StartSatisfiesInv(states[0]);
    } else {
      EveryStateSatisfiesInv(states, events, n - 1);
      NextKeepsInv(states[n - 1], events[n - 1], states[n]);
    }
  }

  /** Budgets, conversation shape and attempt bounds hold of every row ever durable. */
  lemma EveryRowIsWithinBudgets(states: seq<State>, events: seq<Event>, n: nat, i: nat)
    requires Execution(states, events) && n < |states| && i < |states[n].rows|
    ensures WithinBudgets(states[n].rows[i])
    ensures !IsTerminal(states[n].rows[i].state) ==> LiveShape(states[n].rows[i])
  {
    EveryStateSatisfiesInv(states, events, n);
  }

  /** The recorded conversation is append-only across versions. */
  lemma HistoryOnlyGrows(states: seq<State>, events: seq<Event>, n: nat, i: nat, j: nat)
    requires Execution(states, events) && n < |states| && i < j < |states[n].rows|
    ensures states[n].rows[i].history <= states[n].rows[j].history
  {
    EveryStateSatisfiesInv(states, events, n);
    assert Later(states[n].rows[i], states[n].rows[j]);
  }

  lemma TerminalRowStays(s: State, e: Event, s': State)
    requires SystemInv(s) && Next(s, e, s') && IsTerminal(Row(s).state)
    ensures s'.rows == s.rows
  {
    if e.Commit? {
      assert WorkerOk(s, s.workers[e.worker]);
      if CommitTo(Row(s), s.workers[e.worker].base, s.workers[e.worker].next).Ok? {
        CommitExtendsLastRow(s, e.worker);
      }
    }
  }

  /** Once a terminal row is durable, no later step of any worker replaces it. */
  lemma {:induction false} TerminalRunsAreFrozen(states: seq<State>, events: seq<Event>, m: nat, n: nat)
    requires Execution(states, events) && m <= n < |states|
    requires states[m].rows != [] && IsTerminal(Row(states[m]).state)
    ensures states[n].rows == states[m].rows
  {
    hide Next, SystemInv;
    if m < n {
      TerminalRunsAreFrozen(states, events, m, n - 1);
      EveryStateSatisfiesInv(states, events, n - 1);
      TerminalRowStays(states[n - 1], events[n - 1], states[n]);
    }
  }

  // ----- Model request keys -----

  /** Attempt numbers identify keys: two requests ever sent with the same attempt
      number carry the same key, however stale the worker that sent them. */
  lemma AttemptIdentifiesKey(s: State, a: ModelKey, b: ModelKey)
    requires SystemInv(s) && a in s.issued && b in s.issued && a.attempt == b.attempt
    ensures a == b
  {
    var i :| 0 <= i < |s.rows| && CanIssue(s.rows[i]) && a == NextModelKey(s.rows[i]);
    var j :| 0 <= j < |s.rows| && CanIssue(s.rows[j]) && b == NextModelKey(s.rows[j]);
    if i < j {
      assert Later(s.rows[i], s.rows[j]);
    } else if j < i {
      assert Later(s.rows[j], s.rows[i]);
    }
  }

  lemma {:induction false} SmallIfInjective(keys: set<ModelKey>, bound: nat)
    requires forall k :: k in keys ==> 1 <= k.attempt <= bound
    requires forall a, b :: a in keys && b in keys && a.attempt == b.attempt ==> a == b
    ensures |keys| <= bound
  {
    if bound == 0 {
      assert keys == {};
    } else if exists k :: k in keys && k.attempt == bound {
      var k :| k in keys && k.attempt == bound;
      SmallIfInjective(keys - {k}, bound - 1);
      assert |keys - {k}| == |keys| - 1;
    } else {
      SmallIfInjective(keys, bound - 1);
    }
  }

  /** A run sends at most MaxModelSteps distinct model requests, over every
      interleaving, crash and retry. */
  lemma AtMostMaxModelStepsKeys(states: seq<State>, events: seq<Event>, n: nat)
    requires Execution(states, events) && n < |states|
    ensures states[n].rows != []
    ensures |states[n].issued| <= Row(states[n]).budget.maxModelSteps
  {
    EveryStateSatisfiesInv(states, events, n);
    var s := states[n];
    var bound := Row(s).budget.maxModelSteps;
    forall k | k in s.issued ensures 1 <= k.attempt <= bound {
      var i :| 0 <= i < |s.rows| && CanIssue(s.rows[i]) && k == NextModelKey(s.rows[i]);
      if i < |s.rows| - 1 { assert Later(s.rows[i], Row(s)); }
    }
    forall a, b | a in s.issued && b in s.issued && a.attempt == b.attempt ensures a == b {
      AttemptIdentifiesKey(s, a, b);
    }
    SmallIfInjective(s.issued, bound);
  }

  /** Committing the outcome of a model request retires its key: nothing read
      afterwards can send it again. */
  lemma CommittedAttemptsUseFreshKeys(s: State, i: nat, j: nat)
    requires SystemInv(s) && i < j < |s.rows|
    requires s.rows[i].modelAttempts < s.rows[i + 1].modelAttempts
    ensures NextModelKey(s.rows[j]).attempt > NextModelKey(s.rows[i]).attempt
    ensures NextModelKey(s.rows[j]) != NextModelKey(s.rows[i])
  {
    if i + 1 < j { assert Later(s.rows[i + 1], s.rows[j]); }
  }

  /** Whoever holds a row that yields a retired key holds a row that has been replaced. */
  lemma RetiredKeysComeFromReplacedRows(s: State, base: AgentRun, i: nat)
    requires SystemInv(s) && base in s.rows && i + 1 < |s.rows|
    requires s.rows[i].modelAttempts < s.rows[i + 1].modelAttempts
    requires NextModelKey(base) == NextModelKey(s.rows[i])
    ensures base.version < Row(s).version
  {
    var j :| 0 <= j < |s.rows| && s.rows[j] == base;
    if j > i { CommittedAttemptsUseFreshKeys(s, i, j); }
  }

  lemma {:induction false} RowsAreKept(states: seq<State>, events: seq<Event>, m: nat, n: nat)
    requires Execution(states, events) && m <= n < |states|
    ensures states[m].rows <= states[n].rows
  {
    hide Inv;
    if m < n { RowsAreKept(states, events, m, n - 1); }
  }

  /** A worker's step is its own: nothing happens to it while others act. */
  lemma {:induction false} WorkerIsLeftAlone(states: seq<State>, events: seq<Event>, m: nat, n: nat, w: nat)
    requires Execution(states, events) && m <= n < |states|
    requires forall j :: m <= j < n ==> events[j].worker != w
    ensures w in states[n].workers <==> w in states[m].workers
    ensures w in states[m].workers ==> states[n].workers[w] == states[m].workers[w]
  {
    hide Propose, CommitTo;
    if m < n { WorkerIsLeftAlone(states, events, m, n - 1, w); }
  }

  lemma CommitNeedsTheCurrentVersion(s: State, w: nat, s': State)
    requires s.rows != [] && Next(s, Commit(w), s') && s.workers[w].base.version != Row(s).version
    ensures s'.rows == s.rows
  {
  }

  /** A stale worker can still send a key that has been retired, but whatever it is told it
      commits nothing: its row has been replaced. */
  lemma SendersOfRetiredKeysCommitNothing(
      states: seq<State>, events: seq<Event>, n: nat, m: nat, w: nat, i: nat, cfg: Config, env: Env)
    requires Execution(states, events) && n < m < |events|
    requires events[n] == Effect(w, Advance, cfg, env) && events[m] == Commit(w)
    requires forall j :: n < j < m ==> events[j].worker != w
    requires i + 1 < |states[n].rows| && states[n].rows[i].modelAttempts < states[n].rows[i + 1].modelAttempts
    requires w in states[n].workers && NextModelKey(states[n].workers[w].base) == NextModelKey(states[n].rows[i])
    ensures states[m + 1].rows == states[m].rows
  {
    hide Propose, CommitTo, Inv, LegalWrite, Later;
    var base := states[n].workers[w].base;
    EveryStateSatisfiesInv(states, events, n);
    EveryStateSatisfiesInv(states, events, m);
    assert WorkerOk(states[n], states[n].workers[w]);
    RetiredKeysComeFromReplacedRows(states[n], base, i);
    RowsAreKept(states, events, n, m);
    WorkerIsLeftAlone(states, events, n + 1, m, w);
    assert Next(states[n], events[n], states[n + 1]) && Next(states[m], events[m], states[m + 1]);
    assert states[m].workers[w].base == base;
    VersionsFollowRows(states[n], states[m]);
    CommitNeedsTheCurrentVersion(states[m], w, states[m + 1]);
  }

  lemma VersionsFollowRows(s: State, t: State)
    requires SystemInv(s) && SystemInv(t) && s.rows <= t.rows
    ensures Row(s).version <= Row(t).version
  {
    assert t.rows[|s.rows| - 1] == Row(s);
  }

  /** Every write that follows a model request counts the attempt. */
  lemma ModelOutcomesCountTheAttempt(cfg: Config, run: AgentRun, env: Env)
    requires Inv(run) && IssuesModelCall(cfg, run, env)
    ensures ProposeAdvance(cfg, run, env).Write?
    ensures ProposeAdvance(cfg, run, env).next.modelAttempts == run.modelAttempts + 1
  {
  }
}

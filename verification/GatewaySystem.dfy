/** Many callers of the gateway at once, sharing one ledger: each call proceeds attempt by
    attempt, any step of one may fall between two steps of another, and any call may die. */
module GatewaySystem {
  import opened Basics
  import opened Gateway
  import GatewayStream
  import opened GatewayCall

  type CallId = nat

  /** A call that was admitted: what its providers would do, how far it is, and whether an
      attempt write that failed was stored all the same. */
  datatype Progress = Progress(key: string, trace: Trace, made: nat, stray: bool)

  /** Who inserted a ledger entry, how many attempts it may make, and whether a ledger write fails it. */
  datatype Owner = Owner(call: CallId, cap: nat, losesWrite: bool)

  datatype Invocation = Invocation(key: string, call: CallId)

  datatype Told = Told(key: string, call: CallId, outcome: Outcome)

  datatype World = World(
    ledger: map<string, Entry>, calls: map<CallId, Progress>, nextCall: CallId,
    owners: map<string, Owner>, invoked: seq<Invocation>, told: seq<Told>)

  const EMPTY := World(map[], map[], 0, map[], [], [])

  datatype Step =
    | Begin(key: string, hash: string, request: Request, refs: seq<Ref>, script: Script)
    | Invoke(call: CallId)
    | Stray(call: CallId)                    // the attempt write that fails the call is stored all the same
    | Conclude(call: CallId, seen: bool)     // unseen when the terminal write is stored but reported as failed
    | Die(call: CallId)                      // a crash, or a terminal write that is lost

  ghost predicate Enabled(w: World, s: Step) {
    match s
    case Begin(_, _, _, _, _) => true
    case Invoke(c) => c in w.calls && w.calls[c].made < |w.calls[c].trace.tries|
    case Stray(c) =>
      && c in w.calls && w.calls[c].made == |w.calls[c].trace.tries|
      && w.calls[c].trace.end.Unrecorded? && !w.calls[c].stray
    case Conclude(c, _) => c in w.calls && w.calls[c].made == |w.calls[c].trace.tries|
    case Die(c) => c in w.calls
  }

  ghost function DoBegin(w: World, s: Step): World
    requires s.Begin?
  {
    var call := w.nextCall;
    if s.key !in w.ledger then
      var trace := Call(s.request, s.refs, s.script);
      w.(ledger := w.ledger[s.key := Entry(s.hash, InProgress, 0)],
         calls := w.calls[call := Progress(s.key, trace, 0, false)],
         nextCall := call + 1,
         owners := w.owners[s.key := Owner(call, |ProviderRefs(s.refs)| * Max(1, s.request.maxAttempts), trace.end.Unrecorded?)])
    else if w.ledger[s.key].hash == s.hash && w.ledger[s.key].status.Concluded? then
      w.(nextCall := call + 1, told := w.told + [Told(s.key, call, w.ledger[s.key].status.outcome)])
    else w.(nextCall := call + 1)
  }

  ghost function Do(w: World, s: Step): World
    requires Enabled(w, s)
  {
    match s
    case Begin(_, _, _, _, _) => DoBegin(w, s)
    case Die(c) => w.(calls := w.calls - {c})
    case Invoke(c) =>
      var p := w.calls[c];
      if p.key in w.ledger && w.ledger[p.key].status == InProgress then
        w.(ledger := w.ledger[p.key := w.ledger[p.key].(attempts := w.ledger[p.key].attempts + 1)],
           calls := w.calls[c := p.(made := p.made + 1)],
           invoked := w.invoked + [Invocation(p.key, c)])
      else w.(calls := w.calls - {c})
    case Stray(c) =>
      var p := w.calls[c];
      if p.key in w.ledger && w.ledger[p.key].status == InProgress then
        w.(ledger := w.ledger[p.key := w.ledger[p.key].(attempts := w.ledger[p.key].attempts + 1)],
           calls := w.calls[c := p.(stray := true)])
      else w.(calls := w.calls - {c})
    case Conclude(c, seen) =>
      var p := w.calls[c];
      if p.key in w.ledger && w.ledger[p.key].status == InProgress then
        var e := w.ledger[p.key];
        w.(ledger := w.ledger[p.key := Entry(e.hash, Concluded(OutcomeOf(p.trace.end)), Max(e.attempts, Attempts(p.trace)))],
           calls := w.calls - {c},
           told := if seen then w.told + [Told(p.key, c, OutcomeOf(p.trace.end))] else w.told)
      else w.(calls := w.calls - {c})
  }

  ghost predicate Execution(states: seq<World>, steps: seq<Step>) {
    && |states| == |steps| + 1
    && states[0] == EMPTY
    && forall i :: 0 <= i < |steps| ==> Enabled(states[i], steps[i]) && states[i + 1] == Do(states[i], steps[i])
  }

  function Invocations(invoked: seq<Invocation>, key: string): nat {
    if invoked == [] then 0
    else Invocations(invoked[..|invoked| - 1], key) + if invoked[|invoked| - 1].key == key then 1 else 0
  }

  // ----- The invariant -----

  /** A live call owns its key's running entry, which has counted its attempts. */
  ghost predicate CallFits(w: World, c: CallId) {
    c in w.calls ==>
      && c < w.nextCall
      && var p := w.calls[c];
         && p.key in w.ledger && p.key in w.owners
         && w.ledger[p.key].status == InProgress
         && w.owners[p.key].call == c
         && w.owners[p.key].losesWrite == p.trace.end.Unrecorded?
         && w.ledger[p.key].attempts == p.made + (if p.stray then 1 else 0)
         && p.made == Invocations(w.invoked, p.key)
         && p.made <= |p.trace.tries| <= w.owners[p.key].cap
         && (p.stray ==> p.trace.end.Unrecorded? && p.made == |p.trace.tries|)
  }

  /** How an entry's attempt count follows from the invocations: exact, but that an attempt whose
      write failed the call is counted too, at the latest when the entry concludes. */
  predicate Counts(invocations: nat, entry: Entry, owner: Owner) {
    if !owner.losesWrite then entry.attempts == invocations
    else if entry.status.Concluded? then entry.attempts == invocations + 1
    else entry.attempts in {invocations, invocations + 1}
  }

  /** Everything invoked or told for a key is its entry's. */
  ghost predicate KeyFits(w: World, key: string) {
    && (key in w.ledger <==> key in w.owners)
    && (key !in w.ledger ==> Invocations(w.invoked, key) == 0)
    && (key in w.ledger ==>
          && var n := Invocations(w.invoked, key);
             && n <= w.owners[key].cap
             && Counts(n, w.ledger[key], w.owners[key]))
  }

  ghost predicate Inv(w: World) {
    && (forall c :: CallFits(w, c))
    && (forall key :: KeyFits(w, key))
    && (forall i :: 0 <= i < |w.invoked| ==>
          w.invoked[i].key in w.owners && w.owners[w.invoked[i].key].call == w.invoked[i].call)
    && (forall i :: 0 <= i < |w.told| ==>
          w.told[i].key in w.ledger && w.ledger[w.told[i].key].status == Concluded(w.told[i].outcome))
  }

  lemma InvocationsSnoc(invoked: seq<Invocation>, i: Invocation, key: string)
    ensures Invocations(invoked + [i], key) == Invocations(invoked, key) + if i.key == key then 1 else 0
  {
    assert (invoked + [i])[..|invoked|] == invoked;
  }

  lemma BeginKeepsInv(w: World, s: Step)
    requires Inv(w) && s.Begin?
    ensures Inv(Do(w, s))
  {
    hide Call, ProviderRefs, Invocations, Attempts, OutcomeOf;
    assert KeyFits(w, s.key);
    GatewayStream.EveryCallIsLegal(s.request, s.refs, s.script);
    var next := Do(w, s);
    forall c ensures CallFits(next, c) {
      assert CallFits(w, c);
    }
    forall key ensures KeyFits(next, key) {
      assert KeyFits(w, key);
    }
  }

  lemma InvokeKeepsInv(w: World, s: Step)
    requires Inv(w) && s.Invoke? && Enabled(w, s)
    ensures Inv(Do(w, s))
  {
    hide Call, ProviderRefs, Invocations, Attempts, OutcomeOf;
    assert CallFits(w, s.call);
    var p := w.calls[s.call];
    assert KeyFits(w, p.key);
    var next := Do(w, s);
    forall c ensures CallFits(next, c) {
      assert CallFits(w, c);
      if c in w.calls { InvocationsSnoc(w.invoked, Invocation(p.key, s.call), w.calls[c].key); }
    }
    forall key ensures KeyFits(next, key) {
      assert KeyFits(w, key);
      InvocationsSnoc(w.invoked, Invocation(p.key, s.call), key);
    }
  }

  lemma StrayKeepsInv(w: World, s: Step)
    requires Inv(w) && s.Stray? && Enabled(w, s)
    ensures Inv(Do(w, s))
  {
    hide Invocations;
    assert CallFits(w, s.call);
    var p := w.calls[s.call];
    assert KeyFits(w, p.key);
    var next := Do(w, s);
    forall c ensures CallFits(next, c) {
      assert CallFits(w, c);
    }
    forall key ensures KeyFits(next, key) {
      assert KeyFits(w, key);
    }
  }

  lemma ConcludeKeepsInv(w: World, s: Step)
    requires Inv(w) && s.Conclude? && Enabled(w, s)
    ensures Inv(Do(w, s))
  {
    hide Call, ProviderRefs, Invocations, OutcomeOf;
    assert CallFits(w, s.call);
    var p := w.calls[s.call];
    assert KeyFits(w, p.key);
    var next := Do(w, s);
    forall c ensures CallFits(next, c) {
      assert CallFits(w, c);
    }
    forall key ensures KeyFits(next, key) {
      assert KeyFits(w, key);
    }
  }

  lemma DieKeepsInv(w: World, s: Step)
    requires Inv(w) && s.Die? && Enabled(w, s)
    ensures Inv(Do(w, s))
  {
    hide Invocations;
    var next := Do(w, s);
    forall c ensures CallFits(next, c) {
      assert CallFits(w, c);
    }
    forall key ensures KeyFits(next, key) {
      assert KeyFits(w, key);
    }
  }

  lemma {:induction false} EveryStateSatisfiesInv(states: seq<World>, steps: seq<Step>, n: nat)
    requires Execution(states, steps) && n < |states|
    ensures Inv(states[n])
  {
    hide Do;
    if n == 0 {
      EmptySatisfiesInv();
    } else {
      EveryStateSatisfiesInv(states, steps, n - 1);
      var w, s := states[n - 1], steps[n - 1];
      match s
      case Begin(_, _, _, _, _) => BeginKeepsInv(w, s);
      case Invoke(_) => InvokeKeepsInv(w, s);
      case Stray(_) => StrayKeepsInv(w, s);
      case Conclude(_, _) => ConcludeKeepsInv(w, s);
      case Die(_) => DieKeepsInv(w, s);
    }
  }

  lemma EmptySatisfiesInv()
    ensures Inv(EMPTY)
  {
  }

  // ----- What every interleaving keeps -----

  /** All provider invocations made for a key belong to one call. */
  lemma OneCallInvokesPerKey(states: seq<World>, steps: seq<Step>, n: nat, i: nat, j: nat)
    requires Execution(states, steps) && n < |states|
    requires i < |states[n].invoked| && j < |states[n].invoked|
    requires states[n].invoked[i].key == states[n].invoked[j].key
    ensures states[n].invoked[i].call == states[n].invoked[j].call
  {
    hide Do, Enabled;
    EveryStateSatisfiesInv(states, steps, n);
  }

  /** A key's invocations are bounded by its owner's references and attempts, and the count
      its entry holds once concluded is their number, unless a ledger write failed the call. */
  lemma LedgerCountsInvocations(states: seq<World>, steps: seq<Step>, n: nat, key: string)
    requires Execution(states, steps) && n < |states| && key in states[n].ledger
    ensures var w := states[n];
            && key in w.owners
            && Invocations(w.invoked, key) <= w.owners[key].cap
            && Counts(Invocations(w.invoked, key), w.ledger[key], w.owners[key])
  {
    hide Do, Enabled, Invocations;
    EveryStateSatisfiesInv(states, steps, n);
    assert KeyFits(states[n], key);
  }

  /** Whoever is given an outcome for a key is given the same one. */
  lemma OutcomesAgree(states: seq<World>, steps: seq<Step>, n: nat, i: nat, j: nat)
    requires Execution(states, steps) && n < |states|
    requires i < |states[n].told| && j < |states[n].told| && states[n].told[i].key == states[n].told[j].key
    ensures states[n].told[i].outcome == states[n].told[j].outcome
  {
    hide Do, Enabled;
    EveryStateSatisfiesInv(states, steps, n);
  }

  lemma StepKeepsConcluded(w: World, s: Step, key: string)
    requires Inv(w) && Enabled(w, s) && key in w.ledger && w.ledger[key].status.Concluded?
    ensures var next := Do(w, s);
            && key in next.ledger && next.ledger[key] == w.ledger[key]
            && Invocations(next.invoked, key) == Invocations(w.invoked, key)
  {
    hide Call, ProviderRefs, Attempts, OutcomeOf, Invocations;
    assert KeyFits(w, key);
    if s.Invoke? || s.Conclude? || s.Stray? {
      assert CallFits(w, s.call);
      if s.Invoke? { InvocationsSnoc(w.invoked, Invocation(w.calls[s.call].key, s.call), key); }
    }
  }

  /** Once a key's call is concluded, its entry never changes and no provider is called for it again. */
  lemma {:induction false} ConcludedIsFinal(states: seq<World>, steps: seq<Step>, m: nat, n: nat, key: string)
    requires Execution(states, steps) && m <= n < |states|
    requires key in states[m].ledger && states[m].ledger[key].status.Concluded?
    ensures key in states[n].ledger && states[n].ledger[key] == states[m].ledger[key]
    ensures Invocations(states[n].invoked, key) == Invocations(states[m].invoked, key)
  {
    hide Do, Invocations;
    if m < n {
      ConcludedIsFinal(states, steps, m, n - 1, key);
      EveryStateSatisfiesInv(states, steps, n - 1);
      StepKeepsConcluded(states[n - 1], steps[n - 1], key);
    }
  }
}

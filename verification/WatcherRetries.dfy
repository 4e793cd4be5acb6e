/** How the watcher retries: which answers end a sighting, how often a change has failed when
    it is tried again, and when that is. */
module WatcherRetries {
  import opened Basics
  import opened Watcher

  /** What a change met leaves it to be tried again: no answer, a server's failure, or an
      indexer that failed on a file that is still there. */
  predicate Failing(p: Change, post: Post, indexed: bool) {
    match post
    case PostFailed(status) => status == 0 || 500 <= status
    case Posted => !p.deleted && !indexed
  }

  // ----- One step -----

  /** Processing a change either ends its sighting or leaves the file pending, and it does the
      latter exactly when what it met was failing. */
  lemma ProcessingEndsOrRetries(config: Config, w: World, s: Step)
    requires Enabled(w, s) && s.Process? && w.batch[0].event !in w.ended
    ensures var p, next := w.batch[0], Do(config, w, s);
            && (p.event in next.ended <==> !Failing(p, s.post, s.indexed))
            && (Failing(p, s.post, s.indexed) ==> p.key in next.pending && next.pending[p.key].attempts >= p.attempts + 1)
            && (!Failing(p, s.post, s.indexed) ==> next.pending == w.pending)
            && next.batch == w.batch[1..] && next.latest == w.latest
  {
    hide Backoff;
  }

  /** A sighted file falls due when it has rested, and one pending already keeps its count. */
  lemma SightingsFallDueRested(config: Config, w: World, s: Step)
    requires Enabled(w, s) && (s.Notice? || s.Walk?)
    ensures var next := Do(config, w, s);
            && s.key in next.pending && s.key in next.latest && next.batch == w.batch
            && next.pending[s.key].deadline == next.latest[s.key].rested
            && next.latest[s.key].rested == s.now + Nanoseconds(config.debounce + if s.Walk? then s.stagger else 0)
            && next.pending[s.key].deleted == (s.Notice? && s.deleted)
            && next.pending[s.key].attempts == (if s.Notice? && s.key in w.pending then w.pending[s.key].attempts else 0)
            && (forall k :: k != s.key && k in w.pending ==> k in next.pending && next.pending[k] == w.pending[k])
  {
    hide Nanoseconds;
  }

  /** A drain takes exactly what is due, and the one at shutdown everything. */
  lemma DrainsTakeWhatIsDue(config: Config, w: World, s: Step)
    requires Inv(w) && Enabled(w, s) && s.Take?
    ensures var next := Do(config, w, s);
            && (s.all ==> next.pending == map[])
            && (forall k :: k in next.pending ==> k in w.pending && next.pending[k] == w.pending[k] && s.now < w.pending[k].deadline)
            && (forall k :: k in w.pending && k !in next.pending ==> w.pending[k] in next.batch)
            && (forall i :: 0 <= i < |next.batch| ==> s.all || next.batch[i].deadline <= s.now)
  {
    var next := Do(config, w, s);
    forall k | k in w.pending ensures w.pending[k].key == k { assert KeySafe(w, k); }
    forall k | k in w.pending && Due(w.pending[k], s.now, s.all) ensures k in KeysOf(s.ready) {
      assert w.pending[k] in s.ready;
    }
    forall k | k in w.pending && k in KeysOf(s.ready) ensures w.pending[k] in next.batch {
      var i :| 0 <= i < |s.ready| && s.ready[i].key == k;
      assert s.ready[i] == w.pending[k];
    }
  }

  // ----- Whole executions -----

  /** How often a file's change has failed in a row after the first `n` steps. Being processed
      otherwise starts afresh, and so does the start-up walk, but for a change in process. */
  function Streak(states: seq<World>, steps: seq<Step>, n: nat, key: Key): nat
    requires |states| == |steps| + 1 && n < |states|
    requires forall i :: 0 <= i < |steps| && steps[i].Process? ==> states[i].batch != []
  {
    if n == 0 then 0
    else
      var before, s := Streak(states, steps, n - 1, key), steps[n - 1];
      match s
      case Process(post, indexed, _) =>
        var p := states[n - 1].batch[0];
        if p.key != key then before else if Failing(p, post, indexed) then before + 1 else 0
      case Walk(k, _, _) => if k == key && k !in KeysOf(states[n - 1].batch) then 0 else before
      case Notice(_, _, _) => before
      case Take(_, _, _) => before
  }

  /** A change in process carries its streak; one pending carries it too, or is new beside one in process. */
  ghost predicate Counts(w: World, key: Key, streak: nat) {
    && (forall i :: 0 <= i < |w.batch| && w.batch[i].key == key ==> w.batch[i].attempts == streak)
    && (key in w.pending ==> w.pending[key].attempts == if key in KeysOf(w.batch) then 0 else streak)
    && (key !in w.pending && key !in KeysOf(w.batch) ==> streak == 0)
  }

  lemma StepCounts(config: Config, states: seq<World>, steps: seq<Step>, n: nat, key: Key)
    requires Execution(config, states, steps) && n < |steps|
    requires Inv(states[n]) && Counts(states[n], key, Streak(states, steps, n, key))
    ensures Counts(states[n + 1], key, Streak(states, steps, n + 1, key))
  {
    hide Streak, Counts, Inv;
    assert Enabled(states[n], steps[n]) && states[n + 1] == Do(config, states[n], steps[n]);
    var streak := Streak(states, steps, n, key);
    NextStreak(config, states, steps, n, key);
    match steps[n] {
      case Notice(_, _, _) => SightingCounts(config, states[n], steps[n], key, streak);
      case Walk(_, _, _) => SightingCounts(config, states[n], steps[n], key, streak);
      case Take(_, _, _) => TakeCounts(config, states[n], steps[n], key, streak);
      case Process(_, _, _) => ProcessCounts(config, states[n], steps[n], key, streak);
    }
  }

  lemma NextStreak(config: Config, states: seq<World>, steps: seq<Step>, n: nat, key: Key)
    requires Execution(config, states, steps) && n < |steps|
    ensures var before, after := Streak(states, steps, n, key), Streak(states, steps, n + 1, key);
            match steps[n]
            case Process(post, indexed, _) =>
              var p := states[n].batch[0];
              after == if p.key != key then before else if Failing(p, post, indexed) then before + 1 else 0
            case Walk(k, _, _) => after == if k == key && k !in KeysOf(states[n].batch) then 0 else before
            case Notice(_, _, _) => after == before
            case Take(_, _, _) => after == before
  {
    hide Do, Failing, KeysOf;
  }

  lemma SightingCounts(config: Config, w: World, s: Step, key: Key, streak: nat)
    requires Counts(w, key, streak) && Enabled(w, s) && (s.Notice? || s.Walk?)
    ensures Counts(Do(config, w, s), key, if s.Walk? && s.key == key && key !in KeysOf(w.batch) then 0 else streak)
  {
    hide Nanoseconds;
    InKeys(w.batch, key);
  }

  lemma TakeCounts(config: Config, w: World, s: Step, key: Key, streak: nat)
    requires Inv(w) && Counts(w, key, streak) && Enabled(w, s) && s.Take?
    ensures Counts(Do(config, w, s), key, streak)
  {
    hide Due;
    assert KeySafe(w, key);
    InKeys(w.batch, key);
    InKeys(s.ready, key);
  }

  lemma InKeys(changes: seq<Change>, key: Key)
    ensures key in KeysOf(changes) <==> exists i :: 0 <= i < |changes| && changes[i].key == key
  {
  }

  lemma ProcessCounts(config: Config, w: World, s: Step, key: Key, streak: nat)
    requires Inv(w) && Counts(w, key, streak) && Enabled(w, s) && s.Process?
    ensures var p := w.batch[0];
            Counts(Do(config, w, s), key,
                   if p.key != key then streak else if Failing(p, s.post, s.indexed) then streak + 1 else 0)
  {
    hide Backoff;
    var p, next := w.batch[0], Do(config, w, s);
    InKeys(w.batch, key);
    InKeys(next.batch, key);
    assert forall i :: 0 <= i < |next.batch| ==> next.batch[i] == w.batch[i + 1];
    if p.key != key {
      if key in KeysOf(w.batch) {
        var i :| 0 <= i < |w.batch| && w.batch[i].key == key;
        assert next.batch[i - 1].key == key;
      }
    }
  }

  /** Over every execution: whatever is pending or in process has failed just as often in a row
      as its count says, newer events, drains and the start-up walk in between included. */
  lemma {:induction false} AttemptsCountFailures(config: Config, states: seq<World>, steps: seq<Step>, n: nat, key: Key)
    requires Execution(config, states, steps) && n < |states|
    ensures Counts(states[n], key, Streak(states, steps, n, key))
  {
    hide Do, Inv, Counts, Streak;
    if n == 0 {
      NoneFailedYet(states, steps, key);
    } else {
      AttemptsCountFailures(config, states, steps, n - 1, key);
      EveryStateSatisfiesInv(config, states, steps, n - 1);
      StepCounts(config, states, steps, n - 1, key);
    }
  }

  lemma NoneFailedYet(states: seq<World>, steps: seq<Step>, key: Key)
    requires |states| == |steps| + 1 && states[0] == EMPTY
    requires forall i :: 0 <= i < |steps| && steps[i].Process? ==> states[i].batch != []
    ensures Counts(states[0], key, Streak(states, steps, 0, key))
  {
  }

  /** Over every execution: a change that fails is tried again after the backoff for the number
      of times it has now failed in a row, unless a newer event of its file is waiting. */
  lemma RetriesWaitForTheirStreak(config: Config, states: seq<World>, steps: seq<Step>, n: nat)
    requires Execution(config, states, steps) && n < |steps| && steps[n].Process?
    requires states[n].batch != [] && Failing(states[n].batch[0], steps[n].post, steps[n].indexed)
    ensures var p, after := states[n].batch[0], states[n + 1].pending;
            var failures := Streak(states, steps, n + 1, p.key);
            && p.key in after && failures > 0 && after[p.key].attempts == failures
            && (if p.key in states[n].pending then after[p.key] == states[n].pending[p.key].(attempts := failures)
                else after[p.key] == p.(attempts := failures, deadline := steps[n].now + Backoff(failures, config.backoffMax)))
  {
    hide Inv, Enabled, Backoff, Streak;
    var p := states[n].batch[0];
    AttemptsCountFailures(config, states, steps, n, p.key);
    NextStreak(config, states, steps, n, p.key);
    InKeys(states[n].batch, p.key);
  }
}

/** The file watcher's queue (cmd/fornix-watcher/main.go): a map of pending changes that
    debounces events per file, is drained when deadlines pass, and takes failures back. */
module Watcher {
  import opened Basics

  /** Repository and relative path, joined. */
  type Key = string

  /** A pending change. `event` numbers the file event it carries. */
  datatype Change = Change(key: Key, deleted: bool, deadline: int, attempts: nat, event: nat)

  type Pending = map<Key, Change>

  /** Both in milliseconds. */
  datatype Config = Config(debounce: int, backoffMax: int)

  // ----- Backoff -----

  function Pow2(k: nat): (p: nat)
    ensures p >= 1
  {
    if k == 0 then 1 else 2 * Pow2(k - 1)
  }

  const WORD := 0x1_0000_0000_0000_0000
  const HALF := 0x8000_0000_0000_0000

  /** A 64-bit signed word's value of `x`. */
  function Wrapped(x: int): int {
    (x + HALF) % WORD - HALF
  }

  /** A number of milliseconds as a duration, which counts nanoseconds in a 64-bit word. */
  function Nanoseconds(ms: int): int {
    Wrapped(ms * 1_000_000)
  }

  /** The delay before attempt number `attempts` + 1, in milliseconds, as 64-bit arithmetic has it. */
  function Delay(attempts: nat, max: int): int
    requires attempts > 0
  {
    var delay := Wrapped(1000 * Pow2(attempts - 1));
    if delay > max then max else delay
  }

  /** The duration actually waited. */
  function Backoff(attempts: nat, max: int): int
    requires attempts > 0
  {
    Nanoseconds(Delay(attempts, max))
  }

  // ----- The queue's operations -----

  function Enqueued(config: Config, pending: Pending, key: Key, deleted: bool, now: int, event: nat): Pending {
    var attempts := if key in pending then pending[key].attempts else 0;
    pending[key := Change(key, deleted, now + Nanoseconds(config.debounce), attempts, event)]
  }

  function Requeued(config: Config, pending: Pending, p: Change, now: int): Pending {
    var attempts := p.attempts + 1;
    if p.key in pending then
      pending[p.key := pending[p.key].(attempts := Max(pending[p.key].attempts, attempts))]
    else pending[p.key := p.(attempts := attempts, deadline := now + Backoff(attempts, config.backoffMax))]
  }

  /** A file the start-up walk finds: whatever was pending for it is overwritten. */
  function Rescanned(config: Config, pending: Pending, key: Key, stagger: nat, now: int, event: nat): Pending {
    pending[key := Change(key, false, now + Nanoseconds(config.debounce + stagger), 0, event)]
  }

  /** A drain takes what is due; the one at shutdown takes all. */
  predicate Due(p: Change, now: int, all: bool) {
    all || now >= p.deadline
  }

  datatype Outcome = Success | PermanentError | TransientError

  /** What the reindex request came to: done, or an error with its status, 0 when there was none. */
  datatype Post = Posted | PostFailed(status: nat)

  function Processed(p: Change, post: Post, indexed: bool): Outcome {
    match post
    case PostFailed(status) => if status >= 500 || status == 0 then TransientError else PermanentError
    case Posted => if p.deleted || indexed then Success else TransientError
  }

  function Settled(config: Config, pending: Pending, p: Change, post: Post, indexed: bool, now: int): Pending {
    if Processed(p, post, indexed) == TransientError then Requeued(config, pending, p, now) else pending
  }

  // ----- Properties of single operations -----

  lemma {:induction false} Pow2Adds(a: nat, b: nat)
    ensures Pow2(a + b) == Pow2(a) * Pow2(b)
  {
    if b > 0 {
      Pow2Adds(a, b - 1);
      assert Pow2(a + b) == 2 * Pow2(a + (b - 1));
    }
  }

  lemma {:induction false} Pow2Grows(a: nat, b: nat)
    requires a <= b
    ensures Pow2(a) <= Pow2(b)
  {
    if a < b { Pow2Grows(a, b - 1); }
  }

  lemma WholeWordsVanish(m: int)
    ensures Wrapped(m * WORD) == 0
  {
  }

  /** A duration is exact exactly when its nanoseconds fit the word. */
  lemma DurationsAreExactInRange(ms: int)
    ensures Nanoseconds(ms) == ms * 1_000_000 <==> -HALF <= ms * 1_000_000 < HALF
  {
  }

  lemma LargePowers()
    ensures Pow2(53) == 0x20_0000_0000_0000 && Pow2(54) == 0x40_0000_0000_0000 && Pow2(55) == 0x80_0000_0000_0000
    ensures Pow2(56) == 0x100_0000_0000_0000 && Pow2(57) == 0x200_0000_0000_0000 && Pow2(58) == 0x400_0000_0000_0000
    ensures Pow2(59) == 0x800_0000_0000_0000 && Pow2(60) == 0x1000_0000_0000_0000 && Pow2(61) == 0x2000_0000_0000_0000
  {
    assert Pow2(13) == 0x2000;
    Pow2Adds(13, 13);
    assert Pow2(26) == 0x400_0000;
    Pow2Adds(26, 26);
    assert Pow2(52) == 0x10_0000_0000_0000;
  }

  /** The doubling delay under its cap, in unbounded milliseconds. */
  function Intended(attempts: nat, max: int): int
    requires attempts > 0
  {
    if 1000 * Pow2(attempts - 1) > max then max else 1000 * Pow2(attempts - 1)
  }

  /** The shift itself: right for the first 54 attempts and, under a cap of at most 2^62, the
      sixtieth; zero, or negative and a multiple of 2^57, on the others. */
  lemma DelayOfAttempts(attempts: nat, max: int)
    requires attempts > 0 && 0 < max < HALF
    ensures attempts <= 54 ==> Delay(attempts, max) == Intended(attempts, max)
    ensures attempts == 60 ==> Intended(attempts, max) == max && Delay(attempts, max) == Min(max, HALF / 2)
    ensures attempts > 54 && attempts != 60 ==>
              Delay(attempts, max) in {0, -0x600_0000_0000_0000, -0xC00_0000_0000_0000, -0x1800_0000_0000_0000,
                                       -0x3000_0000_0000_0000, -0x6000_0000_0000_0000, -HALF}
  {
    hide Pow2;
    LargePowers();
    if attempts <= 54 {
      Pow2Grows(attempts - 1, 53);
    } else {
      Pow2Grows(54, attempts - 1);
      if attempts >= 62 {
        Pow2Adds(61, attempts - 62);
        assert 1000 * Pow2(attempts - 1) == 125 * Pow2(attempts - 62) * WORD;
        WholeWordsVanish(125 * Pow2(attempts - 62));
      }
    }
  }

  lemma HalfWordsRemain(m: int)
    ensures Wrapped(m * WORD - HALF) == -HALF
  {
  }

  /** Counted in nanoseconds, a wrapped delay comes to nothing, or to the least duration. */
  lemma WrappedDelaysAreSpent(delay: int)
    requires delay in {0, -0x600_0000_0000_0000, -0xC00_0000_0000_0000, -0x1800_0000_0000_0000,
                       -0x3000_0000_0000_0000, -0x6000_0000_0000_0000, -HALF}
    ensures Nanoseconds(delay) in {0, -HALF}
  {
    hide Wrapped;
    if delay == -0x600_0000_0000_0000 {
      HalfWordsRemain(-23437);
    } else {
      var words := if delay == 0 then 0 else if delay == -0xC00_0000_0000_0000 then -46875
                   else if delay == -0x1800_0000_0000_0000 then -93750 else if delay == -0x3000_0000_0000_0000 then -187500
                   else if delay == -0x6000_0000_0000_0000 then -375000 else -500000;
      assert delay * 1_000_000 == words * WORD;
      WholeWordsVanish(words);
    }
  }

  /** A retry waits for the doubling delay under its cap exactly when that fits a duration and
      the attempt is one of the first 54, or the sixtieth; on other attempts past the 54th the
      shift has wrapped around and the retry is immediate. */
  lemma BackoffDoublesUntilItWraps(attempts: nat, max: int)
    requires attempts > 0 && 0 < max < HALF
    ensures Backoff(attempts, max) == Intended(attempts, max) * 1_000_000
            <==> Intended(attempts, max) * 1_000_000 < HALF && (attempts <= 54 || attempts == 60)
    ensures attempts > 54 && attempts != 60 ==> Backoff(attempts, max) <= 0
  {
    hide Pow2, Delay, Wrapped, Nanoseconds, Intended;
    DelayOfAttempts(attempts, max);
    PositiveIntended(attempts, max);
    if attempts <= 54 {
      DurationsAreExactInRange(Delay(attempts, max));
    } else if attempts == 60 {
      SixtiethAttempt(max, Delay(attempts, max));
    } else {
      WrappedDelaysAreSpent(Delay(attempts, max));
    }
  }

  lemma SixtiethAttempt(max: int, delay: int)
    requires 0 < max < HALF && delay == Min(max, HALF / 2)
    ensures Nanoseconds(delay) == max * 1_000_000 <==> max * 1_000_000 < HALF
  {
    DurationsAreExactInRange(delay);
    DurationsFit(delay);
  }

  lemma DurationsFit(ms: int)
    ensures -HALF <= Nanoseconds(ms) < HALF
  {
  }

  lemma PositiveIntended(attempts: nat, max: int)
    requires attempts > 0 && max > 0
    ensures Intended(attempts, max) > 0
  {
  }

  // ----- Many events, one drain at a time -----

  /** The latest sighting of a file, by an event or the start-up walk, and when it will have rested. */
  datatype Latest = Latest(event: nat, deleted: bool, rested: int)

  /** `batch` is what the running drain has taken and not yet processed; `ended` the events
      whose processing succeeded or failed for good. */
  datatype World = World(
    pending: Pending, batch: seq<Change>, latest: map<Key, Latest>, ended: set<nat>, events: nat, clock: int,
    closing: bool)

  const EMPTY := World(map[], [], map[], {}, 0, 0, false)

  datatype Step =
    | Notice(key: Key, deleted: bool, now: int)
    | Walk(key: Key, stagger: nat, now: int)
    | Take(ready: seq<Change>, all: bool, now: int)
    | Process(post: Post, indexed: bool, now: int)

  /** `ready` lists the due changes among `keys`, in any order. */
  ghost predicate TakesDueAmong(pending: Pending, keys: set<Key>, ready: seq<Change>, now: int, all: bool) {
    && (forall i :: 0 <= i < |ready| ==> ready[i].key in keys)
    && (forall i :: 0 <= i < |ready| ==> ready[i].key in pending && pending[ready[i].key] == ready[i] && Due(ready[i], now, all))
    && (forall i, j :: 0 <= i < j < |ready| ==> ready[i].key != ready[j].key)
    && (forall k :: k in keys && k in pending && Due(pending[k], now, all) ==> pending[k] in ready)
  }

  ghost predicate TakesDue(pending: Pending, ready: seq<Change>, now: int, all: bool) {
    TakesDueAmong(pending, pending.Keys, ready, now, all)
  }

  function KeysOf(changes: seq<Change>): set<Key> {
    set i | 0 <= i < |changes| :: changes[i].key
  }

  /** Time does not run backwards, a drain starts when the one before is done, and the one at
      shutdown is the last. */
  ghost predicate Enabled(w: World, s: Step) {
    && s.now >= w.clock
    && match s
       case Notice(_, _, _) => true
       case Walk(_, _, _) => true
       case Take(ready, all, now) => w.batch == [] && !w.closing && TakesDue(w.pending, ready, now, all)
       case Process(_, _, _) => w.batch != []
  }

  function Do(config: Config, w: World, s: Step): World
    requires s.Process? ==> w.batch != []
  {
    match s
    case Notice(key, deleted, now) =>
      w.(pending := Enqueued(config, w.pending, key, deleted, now, w.events),
         latest := w.latest[key := Latest(w.events, deleted, now + Nanoseconds(config.debounce))],
         events := w.events + 1, clock := now)
    case Walk(key, stagger, now) =>
      w.(pending := Rescanned(config, w.pending, key, stagger, now, w.events),
         latest := w.latest[key := Latest(w.events, false, now + Nanoseconds(config.debounce + stagger))],
         events := w.events + 1, clock := now)
    case Take(ready, all, now) =>
      w.(pending := w.pending - KeysOf(ready), batch := ready, clock := now, closing := all)
    case Process(post, indexed, now) =>
      var p := w.batch[0];
      w.(pending := Settled(config, w.pending, p, post, indexed, now), batch := w.batch[1..],
         ended := if Processed(p, post, indexed) == TransientError then w.ended else w.ended + {p.event}, clock := now)
  }

  ghost predicate Execution(config: Config, states: seq<World>, steps: seq<Step>) {
    && |states| == |steps| + 1
    && states[0] == EMPTY
    && forall i :: 0 <= i < |steps| ==> Enabled(states[i], steps[i]) && states[i + 1] == Do(config, states[i], steps[i])
  }

  /** The change carries the file's latest event, delete flag included. */
  predicate Carries(latest: map<Key, Latest>, c: Change) {
    c.key in latest && c.event == latest[c.key].event && c.deleted == latest[c.key].deleted
  }

  ghost predicate KeySafe(w: World, key: Key) {
    && (key in w.pending ==> w.pending[key].key == key && Carries(w.latest, w.pending[key]))
    && (key in w.latest ==> w.latest[key].event < w.events)
    && (key in w.latest ==>
          || w.latest[key].event in w.ended
          || key in w.pending
          || exists i :: 0 <= i < |w.batch| && w.batch[i].key == key && Carries(w.latest, w.batch[i]))
  }

  /** A change being processed is its file's latest, or a newer one is pending. */
  ghost predicate BatchSafe(w: World, i: nat)
    requires i < |w.batch|
  {
    && w.batch[i].event < w.events
    && (Carries(w.latest, w.batch[i]) || w.batch[i].key in w.pending)
  }

  ghost predicate Inv(w: World) {
    && (forall key :: KeySafe(w, key))
    && (forall i :: 0 <= i < |w.batch| ==> BatchSafe(w, i))
    && (forall i, j :: 0 <= i < j < |w.batch| ==> w.batch[i].key != w.batch[j].key)
  }

  lemma SightingKeepsInv(config: Config, w: World, s: Step)
    requires Inv(w) && (s.Notice? || s.Walk?)
    ensures Inv(Do(config, w, s))
  {
    var next := Do(config, w, s);
    forall key ensures KeySafe(next, key) {
      assert KeySafe(w, key);
      if key != s.key && key in w.latest && w.latest[key].event !in w.ended && key !in w.pending {
        var i :| 0 <= i < |w.batch| && w.batch[i].key == key && Carries(w.latest, w.batch[i]);
        assert Carries(next.latest, next.batch[i]);
      }
    }
    forall i | 0 <= i < |next.batch| ensures BatchSafe(next, i) {
      assert BatchSafe(w, i);
    }
  }

  lemma TakeKeepsInv(config: Config, w: World, s: Step)
    requires Inv(w) && s.Take? && Enabled(w, s)
    ensures Inv(Do(config, w, s))
  {
    var next := Do(config, w, s);
    forall key ensures KeySafe(next, key) {
      assert KeySafe(w, key);
      if key in w.pending && key in KeysOf(s.ready) {
        var i :| 0 <= i < |s.ready| && s.ready[i].key == key;
        assert s.ready[i] == w.pending[key];
        assert Carries(next.latest, next.batch[i]);
      }
    }
    forall i | 0 <= i < |next.batch| ensures BatchSafe(next, i) {
      assert KeySafe(w, next.batch[i].key);
    }
  }

  lemma ProcessKeepsInv(config: Config, w: World, s: Step)
    requires Inv(w) && s.Process? && Enabled(w, s)
    ensures Inv(Do(config, w, s))
  {
    hide Backoff, Processed;
    var next := Do(config, w, s);
    var p := w.batch[0];
    assert BatchSafe(w, 0);
    forall key ensures KeySafe(next, key) {
      assert KeySafe(w, key);
      if key in w.latest && w.latest[key].event !in w.ended && key !in w.pending {
        var i :| 0 <= i < |w.batch| && w.batch[i].key == key && Carries(w.latest, w.batch[i]);
        if i > 0 { assert next.batch[i - 1] == w.batch[i]; }
      }
    }
    forall i | 0 <= i < |next.batch| ensures BatchSafe(next, i) {
      assert BatchSafe(w, i + 1);
    }
    assert forall i :: 0 <= i < |next.batch| ==> next.batch[i] == w.batch[i + 1];
  }

  lemma {:induction false} EveryStateSatisfiesInv(config: Config, states: seq<World>, steps: seq<Step>, n: nat)
    requires Execution(config, states, steps) && n < |states|
    ensures Inv(states[n])
  {
    hide Do, Inv;
    if n == 0 {
      EmptySatisfiesInv();
    } else {
      EveryStateSatisfiesInv(config, states, steps, n - 1);
      var w, s := states[n - 1], steps[n - 1];
      match s
      case Notice(_, _, _) => SightingKeepsInv(config, w, s);
      case Walk(_, _, _) => SightingKeepsInv(config, w, s);
      case Take(_, _, _) => TakeKeepsInv(config, w, s);
      case Process(_, _, _) => ProcessKeepsInv(config, w, s);
    }
  }

  lemma EmptySatisfiesInv()
    ensures Inv(EMPTY)
  {
  }

  /** However events and the start-up walk arrive among the steps of drains, the latest sighting
      of a file has ended, or is pending, or is being processed, and always with its own
      delete flag. */
  lemma NoChangeIsLost(config: Config, states: seq<World>, steps: seq<Step>, n: nat, key: Key)
    requires Execution(config, states, steps) && n < |states| && key in states[n].latest
    ensures var w := states[n];
            || w.latest[key].event in w.ended
            || (key in w.pending && Carries(w.latest, w.pending[key]))
            || exists i :: 0 <= i < |w.batch| && w.batch[i].key == key && Carries(w.latest, w.batch[i])
  {
    hide Do, Carries;
    EveryStateSatisfiesInv(config, states, steps, n);
    assert KeySafe(states[n], key);
  }

  // ----- Debouncing -----

  /** The change waits for its file's latest sighting to rest, or the sighting has rested already. */
  predicate Rested(w: World, c: Change) {
    c.key in w.latest && (c.deadline >= w.latest[c.key].rested || w.clock >= w.latest[c.key].rested)
  }

  /** Until the drain at shutdown, what is being processed has rested. */
  ghost predicate Quiet(w: World) {
    !w.closing ==>
      && (forall k :: k in w.pending ==> Rested(w, w.pending[k]))
      && (forall i :: 0 <= i < |w.batch| && Carries(w.latest, w.batch[i]) ==>
            w.clock >= w.latest[w.batch[i].key].rested)
  }

  lemma StepStaysQuiet(config: Config, w: World, s: Step)
    requires Inv(w) && Quiet(w) && Enabled(w, s)
    ensures Quiet(Do(config, w, s))
  {
    hide Backoff, Processed, Nanoseconds;
    match s {
      case Notice(_, _, _) => SightingStaysQuiet(config, w, s);
      case Walk(_, _, _) => SightingStaysQuiet(config, w, s);
      case Take(_, _, _) => TakeStaysQuiet(config, w, s);
      case Process(_, _, _) => ProcessStaysQuiet(config, w, s);
    }
  }

  lemma TakeStaysQuiet(config: Config, w: World, s: Step)
    requires Inv(w) && Quiet(w) && Enabled(w, s) && s.Take?
    ensures Quiet(Do(config, w, s))
  {
    hide Backoff, Nanoseconds;
    var next := Do(config, w, s);
    forall i | !next.closing && 0 <= i < |next.batch| && Carries(next.latest, next.batch[i])
      ensures next.clock >= next.latest[next.batch[i].key].rested
    {
      assert Rested(w, w.pending[s.ready[i].key]);
    }
  }

  lemma ProcessStaysQuiet(config: Config, w: World, s: Step)
    requires Inv(w) && Quiet(w) && Enabled(w, s) && s.Process?
    ensures Quiet(Do(config, w, s))
  {
    hide Backoff, Processed, Nanoseconds;
    var next := Do(config, w, s);
    assert BatchSafe(w, 0);
    forall k | !next.closing && k in next.pending ensures Rested(next, next.pending[k]) {
      assert k in w.pending ==> Rested(w, w.pending[k]) && KeySafe(w, k);
    }
  }

  lemma SightingStaysQuiet(config: Config, w: World, s: Step)
    requires Inv(w) && Quiet(w) && Enabled(w, s) && (s.Notice? || s.Walk?)
    ensures Quiet(Do(config, w, s))
  {
    hide Nanoseconds;
    var next := Do(config, w, s);
    forall k | !next.closing && k in next.pending ensures Rested(next, next.pending[k]) {
      assert KeySafe(w, k);
    }
    forall i | !next.closing && 0 <= i < |next.batch| && Carries(next.latest, next.batch[i])
      ensures next.clock >= next.latest[next.batch[i].key].rested
    {
      assert BatchSafe(w, i) && KeySafe(w, s.key);
      assert w.batch[i].event < w.events ==> w.batch[i].key != s.key;
    }
  }

  lemma {:induction false} EveryStateIsQuiet(config: Config, states: seq<World>, steps: seq<Step>, n: nat)
    requires Execution(config, states, steps) && n < |states|
    ensures Quiet(states[n])
  {
    hide Do, Inv, Enabled, Quiet;
    if n == 0 {
      EmptyIsQuiet();
    } else {
      EveryStateIsQuiet(config, states, steps, n - 1);
      EveryStateSatisfiesInv(config, states, steps, n - 1);
      StepStaysQuiet(config, states[n - 1], steps[n - 1]);
    }
  }

  lemma EmptyIsQuiet()
    ensures Quiet(EMPTY)
  {
  }

  /** No drain before the one at shutdown takes a file's change until its latest sighting has
      rested for the debounce, however often the change was retried and whatever the backoff
      came to. */
  lemma DebounceIsKept(config: Config, states: seq<World>, steps: seq<Step>, n: nat, i: nat)
    requires Execution(config, states, steps) && n < |steps|
    requires steps[n].Take? && !steps[n].all && i < |steps[n].ready|
    ensures var c := steps[n].ready[i];
            && c.key in states[n].latest && Carries(states[n].latest, c)
            && steps[n].now >= states[n].latest[c.key].rested
  {
    hide Do;
    EveryStateIsQuiet(config, states, steps, n);
    EveryStateSatisfiesInv(config, states, steps, n);
    assert Enabled(states[n], steps[n]);
    assert KeySafe(states[n], steps[n].ready[i].key);
  }

  /** A sighting ends only when the change carrying it was processed without a transient error. */
  lemma EventsEndByProcessing(config: Config, w: World, s: Step, event: nat)
    requires Enabled(w, s) && event !in w.ended && event in Do(config, w, s).ended
    ensures s.Process? && w.batch[0].event == event && Processed(w.batch[0], s.post, s.indexed) != TransientError
  {
  }

  /** Taking a failed change back keeps a newer event as it is and never lowers a retry count. */
  lemma RequeueLowersNothing(config: Config, pending: Pending, p: Change, now: int)
    requires forall k :: k in pending ==> pending[k].key == k
    ensures var after := Requeued(config, pending, p, now);
            && after.Keys == pending.Keys + {p.key}
            && (forall k :: k in pending ==>
                  pending[k].attempts <= after[k].attempts && after[k] == pending[k].(attempts := after[k].attempts))
            && after[p.key].attempts >= p.attempts + 1
            && (forall k :: k in pending && k != p.key ==> after[k] == pending[k])
            && (p.key !in pending ==> after[p.key].event == p.event && after[p.key].deleted == p.deleted)
  {
    hide Backoff;
  }

  // ----- The watcher -----

  lemma NothingTaken(pending: Pending, now: int, all: bool)
    ensures TakesDueAmong(pending, pending.Keys - pending.Keys, [], now, all)
    ensures pending - KeysOf([]) == pending
  {
  }

  lemma NotYetTaken(pending: Pending, keys: set<Key>, ready: seq<Change>, now: int, all: bool, k: Key)
    requires TakesDueAmong(pending, keys, ready, now, all) && k !in keys
    ensures k !in KeysOf(ready)
  {
  }

  lemma TakeOne(pending: Pending, keys: set<Key>, ready: seq<Change>, now: int, all: bool, k: Key)
    requires TakesDueAmong(pending, keys, ready, now, all) && k !in keys && k in pending && pending[k].key == k
    ensures var more := if Due(pending[k], now, all) then ready + [pending[k]] else ready;
            TakesDueAmong(pending, keys + {k}, more, now, all)
  {
    var more := if Due(pending[k], now, all) then ready + [pending[k]] else ready;
    hide Due;
    assert forall i :: 0 <= i < |ready| ==> more[i] == ready[i];
    forall key | key in keys + {k} && key in pending && Due(pending[key], now, all)
      ensures pending[key] in more
    {
      if key == k { assert more[|ready|] == pending[k]; }
    }
  }

  lemma OneLessPending(pending: Pending, ready: seq<Change>, k: Key)
    requires k in pending && pending[k].key == k
    ensures pending - KeysOf(ready + [pending[k]]) == pending - KeysOf(ready) - {k}
  {
    hide KeysOf;
    KeysSnoc(ready, pending[k]);
  }

  lemma KeysSnoc(changes: seq<Change>, c: Change)
    ensures KeysOf(changes + [c]) == KeysOf(changes) + {c.key}
  {
    var all := changes + [c];
    forall key ensures key in KeysOf(all) <==> key in KeysOf(changes) + {c.key} {
      if key in KeysOf(changes) {
        var i :| 0 <= i < |changes| && changes[i].key == key;
        assert all[i].key == key;
      }
      assert all[|changes|].key == c.key;
    }
  }

  class FileWatcher {
    const config: Config
    var pending: Pending

    constructor (config: Config)
      ensures pending == map[] && this.config == config
    {
      this.config, pending := config, map[];
    }

    method Enqueue(key: Key, deleted: bool, now: int, event: nat)
      modifies this
      ensures pending == Enqueued(config, old(pending), key, deleted, now, event)
    {
      var attempts := 0;
      if key in pending { attempts := pending[key].attempts; }
      pending := pending[key := Change(key, deleted, now + Nanoseconds(config.debounce), attempts, event)];
    }

    method RequeueWithBackoff(failed: Change, now: int)
      modifies this
      ensures pending == Requeued(config, old(pending), failed, now)
    {
      var p := failed.(attempts := failed.attempts + 1);
      p := p.(deadline := now + Backoff(p.attempts, config.backoffMax));
      if p.key in pending {
        var existing := pending[p.key];
        if existing.attempts < p.attempts { pending := pending[p.key := existing.(attempts := p.attempts)]; }
        return;
      }
      pending := pending[p.key := p];
    }

    /** One step of the start-up walk. */
    method Rescan(key: Key, stagger: nat, now: int, event: nat)
      modifies this
      ensures pending == Rescanned(config, old(pending), key, stagger, now, event)
    {
      pending := pending[key := Change(key, false, now + Nanoseconds(config.debounce + stagger), 0, event)];
    }

    /** Removes the due changes from the queue, in whatever order the map yields them. */
    method TakeReady(now: int, all: bool) returns (ready: seq<Change>)
      requires forall k :: k in pending ==> pending[k].key == k
      modifies this
      ensures TakesDue(old(pending), ready, now, all)
      ensures pending == old(pending) - KeysOf(ready)
    {
      hide TakesDueAmong, KeysOf, Due;
      ready := [];
      var left := pending.Keys;
      NothingTaken(pending, now, all);
      while left != {}
        invariant left <= old(pending).Keys
        invariant TakesDueAmong(old(pending), old(pending).Keys - left, ready, now, all)
        invariant pending == old(pending) - KeysOf(ready)
        decreases |left|
      {
        var k :| k in left;
        NotYetTaken(old(pending), old(pending).Keys - left, ready, now, all, k);
        TakeOne(old(pending), old(pending).Keys - left, ready, now, all, k);
        OneLessPending(old(pending), ready, k);
        assert old(pending).Keys - (left - {k}) == old(pending).Keys - left + {k};
        if Due(pending[k], now, all) {
          ready := ready + [pending[k]];
          pending := pending - {k};
        }
        left := left - {k};
      }
      assert old(pending).Keys - {} == old(pending).Keys;
    }

    method ProcessOne(p: Change, post: Post, indexed: bool, now: int)
      modifies this
      ensures pending == Settled(config, old(pending), p, post, indexed, now)
    {
      match post
      case PostFailed(status) =>
        if status >= 500 || status == 0 { RequeueWithBackoff(p, now); }
      case Posted =>
        if !p.deleted && !indexed { RequeueWithBackoff(p, now); }
    }

    /** One drain, of the due changes or at shutdown of all: what the i-th meets is answers[i]. */
    method Drain(now: int, all: bool, answers: nat -> (Post, bool, int)) returns (count: nat, ghost ready: seq<Change>)
      requires forall k :: k in pending ==> pending[k].key == k
      modifies this
      ensures TakesDue(old(pending), ready, now, all) && count == |ready|
      ensures pending == DrainFrom(config, old(pending) - KeysOf(ready), ready, answers, |ready|)
    {
      var taken := TakeReady(now, all);
      ready := taken;
      count := 0;
      while count < |taken|
        invariant count <= |taken|
        invariant pending == DrainFrom(config, old(pending) - KeysOf(ready), ready, answers, count)
      {
        var answer := answers(count);
        ProcessOne(taken[count], answer.0, answer.1, answer.2);
        count := count + 1;
      }
    }
  }

  /** The queue after the first `n` changes of a batch were processed. */
  function DrainFrom(config: Config, pending: Pending, batch: seq<Change>, answers: nat -> (Post, bool, int), n: nat): Pending
    requires n <= |batch|
  {
    if n == 0 then pending
    else
      var answer := answers(n - 1);
      Settled(config, DrainFrom(config, pending, batch, answers, n - 1), batch[n - 1], answer.0, answer.1, answer.2)
  }
}

/** What a ranking and its metrics mean, said of the items' scores, the hits' places and the
    baseline's ranks: which evidence goes first, and what each number counts. */
module RetrievalRanking {
  import opened Basics
  import StableSort
  import opened Distinctness
  import opened RetrievalQuality

  // ----- Best first -----

  /** The best item of a hash: of the highest score, and among those of the smallest source. */
  ghost predicate BestOf(items: seq<Item>, hash: Hash, best: Item) {
    && best in items && best.hash == hash
    && forall y :: y in items && y.hash == hash ==>
         y.score < best.score || (y.score == best.score && best.source <= y.source)
  }

  /** Higher scores go first, then smaller source references, then smaller hashes. */
  predicate GoesFirst(x: Item, y: Item) {
    if x.score != y.score then x.score > y.score
    else if x.source != y.source then x.source < y.source
    else x.hash < y.hash
  }

  /** A ranking has each of the items' hashes once, by the best item of each. */
  ghost predicate BestFirst(items: seq<Item>, ranked: seq<Hash>) {
    && Distinct(ranked)
    && (forall h :: h in ranked <==> exists x :: x in items && x.hash == h)
    && (forall i, j, x, y :: 0 <= i < j < |ranked| && BestOf(items, ranked[i], x) && BestOf(items, ranked[j], y) ==>
          GoesFirst(x, y))
  }

  lemma SortIsBestFirst(items: seq<Item>, p: nat, q: nat)
    requires var s := StableSort.Sort(ItemBefore, items); p < q < |s| && s[p].hash != s[q].hash
    ensures var s := StableSort.Sort(ItemBefore, items); GoesFirst(s[p], s[q])
  {
    hide StableSort.Sort;
    StableSort.SortIsAnOrderedPermutation(ItemBefore, items);
  }

  /** The first item of its hash in the sorted order is the hash's best. */
  lemma FirstIsBest(items: seq<Item>, p: nat)
    requires var s := StableSort.Sort(ItemBefore, items);
             p < |s| && forall r :: 0 <= r < p ==> s[r].hash != s[p].hash
    ensures var s := StableSort.Sort(ItemBefore, items); BestOf(items, s[p].hash, s[p])
  {
    hide StableSort.Sort;
    var s := StableSort.Sort(ItemBefore, items);
    StableSort.SortIsAnOrderedPermutation(ItemBefore, items);
    MembersPermute(items, s);
    forall y | y in items && y.hash == s[p].hash
      ensures y.score < s[p].score || (y.score == s[p].score && s[p].source <= y.source)
    {
      var r :| 0 <= r < |s| && s[r] == y;
    }
  }

  lemma FirstOfItsHash(s: seq<Item>, hash: Hash) returns (p: nat)
    requires hash in HashesOf(s)
    ensures p == FirstAt(HashesOf(s), hash) < |s| && s[p].hash == hash
    ensures forall r :: 0 <= r < p ==> s[r].hash != hash
  {
    p := FirstAt(HashesOf(s), hash);
    FirstAtBounds(HashesOf(s), hash);
    FirstAtIsFirst(HashesOf(s), hash);
    assert forall r :: 0 <= r < |s| ==> HashesOf(s)[r] == s[r].hash;
  }

  lemma {:induction false} FirstAtIsFirst(s: seq<Hash>, x: Hash)
    requires x in s
    ensures FirstAt(s, x) < |s| && s[FirstAt(s, x)] == x
    ensures forall r :: 0 <= r < FirstAt(s, x) ==> s[r] != x
  {
    var front := s[..|s| - 1];
    assert s == front + [s[|s| - 1]];
    if x in front { FirstAtIsFirst(front, x); }
  }

  lemma BestsTie(items: seq<Item>, hash: Hash, x: Item, y: Item)
    requires BestOf(items, hash, x) && BestOf(items, hash, y)
    ensures x.score == y.score && x.source == y.source && x.hash == y.hash
  {
  }

  /** Packs with an inadmissible item are refused; every other one is ranked best first. */
  lemma RankingIsBestFirst(items: seq<Item>)
    ensures Ranked(items).Ok? <==> forall x :: x in items ==> x.usable && x.source > 0
    ensures Ranked(items).Ok? ==> BestFirst(items, Ranked(items).value)
  {
    hide StableSort.Sort, Dedup, BestOf, GoesFirst;
    if Ranked(items).Ok? {
      var s := StableSort.Sort(ItemBefore, items);
      var ranked := Ranked(items).value;
      SortedHashes(items, s);
      DedupKeepsElements(HashesOf(s));
      forall i, j, x, y | 0 <= i < j < |ranked| && BestOf(items, ranked[i], x) && BestOf(items, ranked[j], y)
        ensures GoesFirst(x, y)
      {
        PlacesFollowBests(items, i, j, x, y);
      }
    }
  }

  lemma SortedHashes(items: seq<Item>, s: seq<Item>)
    requires s == StableSort.Sort(ItemBefore, items)
    ensures forall h :: h in HashesOf(s) <==> exists x :: x in items && x.hash == h
  {
    hide StableSort.Sort;
    StableSort.SortIsAnOrderedPermutation(ItemBefore, items);
    MembersPermute(items, s);
    forall h ensures h in HashesOf(s) <==> exists x :: x in items && x.hash == h {
      if h in HashesOf(s) {
        var i :| 0 <= i < |s| && HashesOf(s)[i] == h;
        assert s[i] in items;
      }
      if x :| x in items && x.hash == h {
        var i :| 0 <= i < |s| && s[i] == x;
        assert HashesOf(s)[i] == h;
      }
    }
  }

  lemma PlacesFollowBests(items: seq<Item>, i: nat, j: nat, x: Item, y: Item)
    requires var ranked := Dedup(HashesOf(StableSort.Sort(ItemBefore, items)));
             i < j < |ranked| && BestOf(items, ranked[i], x) && BestOf(items, ranked[j], y)
    ensures GoesFirst(x, y)
  {
    hide StableSort.Sort, Dedup;
    var s := StableSort.Sort(ItemBefore, items);
    var ranked := Dedup(HashesOf(s));
    DedupKeepsElements(HashesOf(s));
    DedupKeepsOrder(HashesOf(s), i, j);
    var p := FirstOfItsHash(s, ranked[i]);
    var q := FirstOfItsHash(s, ranked[j]);
    FirstIsBest(items, p);
    FirstIsBest(items, q);
    SortIsBestFirst(items, p, q);
    BestsTie(items, ranked[i], x, s[p]);
    BestsTie(items, ranked[j], y, s[q]);
  }

  lemma BestExists(items: seq<Item>, hash: Hash) returns (best: Item)
    requires exists x :: x in items && x.hash == hash
    ensures BestOf(items, hash, best)
  {
    hide StableSort.Sort;
    var s := StableSort.Sort(ItemBefore, items);
    SortedHashes(items, s);
    var p := FirstOfItsHash(s, hash);
    FirstIsBest(items, p);
    best := s[p];
  }

  /** So there is one ranking only: whatever is best first is the ranking. */
  lemma BestFirstIsUnique(items: seq<Item>, a: seq<Hash>, b: seq<Hash>)
    requires BestFirst(items, a) && BestFirst(items, b)
    ensures a == b
  {
    hide BestOf;
    SameElementsSameMultiset(a, b);
    assert |a| == |multiset(a)| == |multiset(b)| == |b|;
    var less := (x: Hash, y: Hash) =>
      exists u, v :: BestOf(items, x, u) && BestOf(items, y, v) && GoesFirst(u, v);
    OrderedByBests(items, a, less);
    OrderedByBests(items, b, less);
    StableSort.OrderedPermutationsAreEqual(less, a, b);
  }

  lemma OrderedByBests(items: seq<Item>, a: seq<Hash>, less: (Hash, Hash) -> bool)
    requires BestFirst(items, a)
    requires forall x, y :: less(x, y) <==> exists u, v :: BestOf(items, x, u) && BestOf(items, y, v) && GoesFirst(u, v)
    ensures StableSort.Separates(less, a) && StableSort.InOrder(less, a)
  {
    forall i, j | 0 <= i < j < |a| ensures less(a[i], a[j]) && !less(a[j], a[i]) {
      hide BestOf, GoesFirst;
      assert a[i] in a && a[j] in a;
      var x := BestExists(items, a[i]);
      var y := BestExists(items, a[j]);
      assert GoesFirst(x, y);
      forall u, v | BestOf(items, a[j], u) && BestOf(items, a[i], v) ensures !GoesFirst(u, v) {
        assert GoesFirst(v, u);
        FirstIsOneWay(v, u);
      }
    }
  }

  lemma FirstIsOneWay(x: Item, y: Item)
    requires GoesFirst(x, y)
    ensures !GoesFirst(y, x)
  {
  }

  /** Canonical gold is listed in ascending order. */
  lemma CanonicalAscends(hashes: seq<Hash>, i: nat, j: nat)
    requires i < j < |Canonical(hashes)|
    ensures Canonical(hashes)[i] < Canonical(hashes)[j]
  {
    CanonicalIsDistinct(hashes);
    StableSort.SortIsAnOrderedPermutation(Smaller, Dedup(hashes));
  }

  // ----- What the metrics count -----

  function Hits(ranked: seq<Hash>, gold: seq<Hash>): set<nat> {
    set i: nat | i < |ranked| && ranked[i] in gold
  }

  lemma {:induction false} RelevantCountsHits(ranked: seq<Hash>, gold: seq<Hash>)
    ensures Relevant(ranked, gold) == |Hits(ranked, gold)|
  {
    if ranked != [] {
      var front, last := ranked[..|ranked| - 1], ranked[|ranked| - 1];
      RelevantCountsHits(front, gold);
      assert Hits(ranked, gold) == Hits(front, gold) + if last in gold then {|front|} else {};
    }
  }

  /** A quotient that is zero when there is nothing to divide by. */
  predicate Shares(x: real, n: nat, d: nat) {
    if d == 0 then x == 0.0 else x * d as real == n as real
  }

  /** One over the place of the first hit; zero without one. */
  ghost predicate FirstHitShare(x: real, ranked: seq<Hash>, gold: seq<Hash>) {
    if forall i :: 0 <= i < |ranked| ==> ranked[i] !in gold then x == 0.0
    else exists i :: 0 <= i < |ranked| && ranked[i] in gold && (forall j :: 0 <= j < i ==> ranked[j] !in gold) && Shares(x, 1, i + 1)
  }

  /** Each metric against what it is named for: hits among the first k places, the first hit's
      place, hits per place and per gold hash. */
  lemma MetricsCountHits(c: Case, k: nat, abstained: bool, ranked: seq<Hash>, gold: seq<Hash>,
                         measured: Measurement, baseline: map<Hash, int>, weight: Weight)
    requires k > 0
    ensures var m := Scored(c, k, abstained, ranked, gold, measured, baseline, weight);
            var top := ranked[..Min(k, |ranked|)];
            && m.k == k && m.retrieved == |ranked| && m.golden == |gold| && m.measured == measured
            && m.relevant == |Hits(top, gold)|
            && m.hit == (if exists i :: 0 <= i < |top| && top[i] in gold then 1.0 else 0.0)
            && Shares(m.precision, m.relevant, |top|) && Shares(m.recall, m.relevant, |gold|)
            && FirstHitShare(m.reciprocalRank, ranked, gold)
            && (m.contextMatch <==> c.contextMatch)
            && (m.abstentionCorrect <==> (c.abstentionExpected <==> abstained))
            && m.ndcg == Ndcg(top, gold, weight) && m.drift == RankDrift(gold, ranked, baseline, k)
  {
    hide Ndcg, RankDrift, Relevant, FirstRank, Ratio, Hits, Shares, FirstHitShare;
    var top := ranked[..Min(k, |ranked|)];
    assert TopK(ranked, k) == top;
    RelevantCountsHits(top, gold);
    SomeHit(top, gold);
    RatioShares(Relevant(top, gold), |top|);
    RatioShares(Relevant(top, gold), |gold|);
    FirstRankShares(ranked, gold);
  }

  lemma RatioShares(n: nat, d: nat)
    ensures Shares(Ratio(n, d), n, d)
  {
    if d > 0 { QuotientTimes(n as real, d as real); }
  }

  lemma FirstRankShares(ranked: seq<Hash>, gold: seq<Hash>)
    ensures FirstHitShare(Ratio(1, FirstRank(ranked, gold)), ranked, gold)
  {
    hide FirstRank, Shares;
    var first := FirstRank(ranked, gold);
    FirstRankIsFirst(ranked, gold);
    RatioShares(1, first);
    if first > 0 { assert Shares(Ratio(1, first), 1, first - 1 + 1); }
  }

  lemma SomeHit(ranked: seq<Hash>, gold: seq<Hash>)
    ensures |Hits(ranked, gold)| > 0 <==> exists i :: 0 <= i < |ranked| && ranked[i] in gold
  {
    if i :| 0 <= i < |ranked| && ranked[i] in gold { assert i in Hits(ranked, gold); }
    if |Hits(ranked, gold)| > 0 { var i :| i in Hits(ranked, gold); }
  }

  // ----- Gains -----

  /** The gain adds up place by place: a place counts its own weight if it is a hit. */
  lemma {:induction false} GainOfOneMoreHit(ranked: seq<Hash>, other: seq<Hash>, gold: seq<Hash>, weight: Weight, p: nat)
    requires p < |ranked| == |other| && ranked[p] in gold && other[p] !in gold
    requires forall i :: 0 <= i < |ranked| && i != p ==> (ranked[i] in gold <==> other[i] in gold)
    ensures Dcg(ranked, gold, weight) == Dcg(other, gold, weight) + weight(p)
  {
    var n := |ranked| - 1;
    if p == n {
      SameHitsSameGain(ranked[..n], other[..n], gold, weight);
    } else {
      GainOfOneMoreHit(ranked[..n], other[..n], gold, weight, p);
    }
  }

  lemma {:induction false} SameHitsSameGain(ranked: seq<Hash>, other: seq<Hash>, gold: seq<Hash>, weight: Weight)
    requires |ranked| == |other|
    requires forall i :: 0 <= i < |ranked| ==> (ranked[i] in gold <==> other[i] in gold)
    ensures Dcg(ranked, gold, weight) == Dcg(other, gold, weight)
  {
    if ranked != [] { SameHitsSameGain(ranked[..|ranked| - 1], other[..|other| - 1], gold, weight); }
  }

  lemma {:induction false} NoHitsNoGain(ranked: seq<Hash>, gold: seq<Hash>, weight: Weight)
    requires forall i :: 0 <= i < |ranked| ==> ranked[i] !in gold
    ensures Dcg(ranked, gold, weight) == 0.0
  {
    if ranked != [] { NoHitsNoGain(ranked[..|ranked| - 1], gold, weight); }
  }

  /** The ideal gain is that of as many places, all of them hits. */
  lemma {:induction false} IdealIsAllHits(ranked: seq<Hash>, gold: seq<Hash>, weight: Weight)
    requires forall i :: 0 <= i < |ranked| ==> ranked[i] in gold
    ensures Ideal(|ranked|, weight) == Dcg(ranked, gold, weight)
  {
    if ranked != [] { IdealIsAllHits(ranked[..|ranked| - 1], gold, weight); }
  }

  /** nDCG is the share of the ideal gain of as many places as gold can fill. */
  lemma NdcgIsAShare(ranked: seq<Hash>, gold: seq<Hash>, weight: Weight)
    requires Discount(weight)
    ensures Ndcg(ranked, gold, weight) * Ideal(Min(|gold|, |ranked|), weight) == Dcg(ranked, gold, weight)
    ensures (forall i :: 0 <= i < |ranked| ==> ranked[i] !in gold) ==> Ndcg(ranked, gold, weight) == 0.0
  {
    hide Dcg, Ideal, Discount;
    var n := Min(|gold|, |ranked|);
    IdealGrows(0, n, weight);
    NoGainWithoutHits(ranked, gold, weight);
    if n > 0 {
      NothingIsIdeallyNothing(weight);
      QuotientTimes(Dcg(ranked, gold, weight), Ideal(n, weight));
    }
  }

  lemma NoGainWithoutHits(ranked: seq<Hash>, gold: seq<Hash>, weight: Weight)
    ensures (forall i :: 0 <= i < |ranked| ==> ranked[i] !in gold) ==> Dcg(ranked, gold, weight) == 0.0
  {
    if forall i :: 0 <= i < |ranked| ==> ranked[i] !in gold { NoHitsNoGain(ranked, gold, weight); }
  }

  lemma NothingIsIdeallyNothing(weight: Weight)
    ensures Ideal(0, weight) == 0.0
  {
  }

  // ----- Drift -----

  /** The place a hash holds among the first k of a ranking, counted from one; k + 1 outside. */
  predicate Holds(ranked: seq<Hash>, k: nat, hash: Hash, place: nat) {
    if place == k + 1 then forall i :: 0 <= i < |ranked| && i < k ==> ranked[i] != hash
    else 1 <= place <= k && place <= |ranked| && ranked[place - 1] == hash
  }

  /** The place a baseline gives it: its rank from 1 to k, and k + 1 for any other number. */
  predicate HeldBefore(k: nat, rank: int, place: nat) {
    (1 <= rank <= k && place == rank) || (!(1 <= rank <= k) && place == k + 1)
  }

  lemma {:induction false} RankIsThePlace(ranked: seq<Hash>, hash: Hash)
    requires Distinct(ranked)
    ensures RankOf(ranked, hash) <= |ranked|
    ensures RankOf(ranked, hash) == 0 <==> hash !in ranked
    ensures forall i :: 0 <= i < |ranked| && ranked[i] == hash ==> RankOf(ranked, hash) == i + 1
  {
    if ranked != [] {
      var front := ranked[..|ranked| - 1];
      assert ranked == front + [ranked[|ranked| - 1]];
      assert forall i :: 0 <= i < |front| ==> front[i] == ranked[i];
      RankIsThePlace(front, hash);
    }
  }

  lemma ClampedIsThePlace(ranked: seq<Hash>, k: nat, hash: Hash, place: nat)
    requires Distinct(ranked) && Holds(ranked, k, hash, place)
    ensures Clamped(RankOf(ranked, hash), k) == place
  {
    RankIsThePlace(ranked, hash);
    if RankOf(ranked, hash) > 0 { var i :| 0 <= i < |ranked| && ranked[i] == hash; }
  }

  lemma DriftOfOne(ranked: seq<Hash>, baseline: map<Hash, int>, k: nat, hash: Hash)
    requires k > 0
    ensures DriftSum([hash], ranked, baseline, k) ==
            if hash !in baseline then 0.0
            else Gap(Clamped(RankOf(ranked, hash), k), Clamped(baseline[hash], k)) as real / k as real
  {
    hide RankOf, Clamped, Gap;
    assert DriftSum([hash][..0], ranked, baseline, k) == 0.0;
  }

  lemma BeforeIsThePlace(k: nat, rank: int, place: nat)
    requires HeldBefore(k, rank, place)
    ensures Clamped(rank, k) == place
  {
  }

  /** One gold hash drifts by the distance between the place it holds and the one it held,
      in units of k; a hash the baseline does not know does not drift. */
  lemma OneHashDrifts(ranked: seq<Hash>, baseline: map<Hash, int>, k: nat, hash: Hash, now: nat, before: nat)
    requires k > 0 && Distinct(ranked) && Holds(ranked, k, hash, now)
    requires hash in baseline ==> HeldBefore(k, baseline[hash], before)
    ensures var d := DriftSum([hash], ranked, baseline, k) * k as real;
            if hash !in baseline then d == 0.0
            else d == (if now >= before then (now - before) as real else (before - now) as real)
  {
    hide RankOf, Clamped, DriftSum, Holds, HeldBefore;
    DriftOfOne(ranked, baseline, k, hash);
    if hash in baseline {
      ClampedIsThePlace(ranked, k, hash, now);
      BeforeIsThePlace(k, baseline[hash], before);
      QuotientTimes(Gap(now, before) as real, k as real);
    }
  }

  lemma QuotientTimes(a: real, b: real)
    requires b > 0.0
    ensures a / b * b == a
  {
  }

  lemma {:induction false} DriftsAdd(a: seq<Hash>, b: seq<Hash>, ranked: seq<Hash>, baseline: map<Hash, int>, k: nat)
    requires k > 0
    ensures DriftSum(a + b, ranked, baseline, k) == DriftSum(a, ranked, baseline, k) + DriftSum(b, ranked, baseline, k)
  {
    hide Clamped, Gap, RankOf;
    if b == [] {
      assert a + b == a;
    } else {
      assert (a + b)[..|a + b| - 1] == a + b[..|b| - 1];
      DriftsAdd(a, b[..|b| - 1], ranked, baseline, k);
    }
  }

  /** Rank drift is the mean drift of all gold, and zero without gold or without a baseline. */
  lemma DriftIsTheMean(gold: seq<Hash>, ranked: seq<Hash>, baseline: map<Hash, int>, k: nat)
    requires k > 0
    ensures RankDrift(gold, ranked, baseline, k) * |gold| as real == DriftSum(gold, ranked, baseline, k)
    ensures gold == [] || baseline == map[] ==> RankDrift(gold, ranked, baseline, k) == 0.0
  {
    if baseline == map[] { NoBaselineNoDrift(gold, ranked, baseline, k); }
    else if gold != [] { QuotientTimes(DriftSum(gold, ranked, baseline, k), |gold| as real); }
  }

  lemma {:induction false} NoBaselineNoDrift(gold: seq<Hash>, ranked: seq<Hash>, baseline: map<Hash, int>, k: nat)
    requires k > 0 && baseline == map[]
    ensures DriftSum(gold, ranked, baseline, k) == 0.0
  {
    if gold != [] { NoBaselineNoDrift(gold[..|gold| - 1], ranked, baseline, k); }
  }

  // ----- Whole cases -----

  /** A case is scored exactly when its pack abstains just when it is empty, its items are
      admissible, the place limit and the measurements are in range, and the cost is not called
      both known and estimated; the limit is ten unless one is given. */
  lemma CasesAreScoredExactly(
      c: Case, items: seq<Item>, abstained: bool, rawGold: seq<Hash>, measured: Measurement,
      baseline: map<Hash, int>, weight: Weight)
    requires Discount(weight)
    ensures var result := Score(c, items, abstained, rawGold, measured, baseline, weight);
            && (result.Ok? <==>
                  && (abstained <==> |items| == 0) && (forall x :: x in items ==> x.usable && x.source > 0)
                  && 0 <= c.k <= 100 && measured.latency >= 0 && measured.queries >= 0 && measured.cost >= 0.0
                  && !(measured.costKnown && measured.costEstimated))
            && (result.Ok? ==>
                  Ranked(items).Ok? &&
                  result.value == Scored(c, if c.k == 0 then 10 else c.k, abstained, Ranked(items).value,
                                         Canonical(rawGold), measured, baseline, weight))
  {
    hide Ranked, Scored, Canonical, Valid, Discount, BestFirst;
    RankingIsBestFirst(items);
    if abstained == (items == []) && 0 <= c.k <= MAX_ITEMS && Ranked(items).Ok?
       && measured.latency >= 0 && measured.queries >= 0 && measured.cost >= 0.0 {
      ValidationRejectsOnlyContradictoryCost(c, items, abstained, rawGold, measured, baseline, weight);
    }
  }
}

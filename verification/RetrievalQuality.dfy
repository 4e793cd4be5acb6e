/** Scoring a retrieval against gold evidence (internal/eval/retrieval_quality.go), over
    reals. The discount 1/log2(rank+1) is any positive decreasing weight of the rank. */
module RetrievalQuality {
  import opened Basics
  import StableSort
  import opened Distinctness

  /** Evidence hashes and source references, numbered in byte order; reference 0 is empty. */
  type Hash = nat

  datatype Item = Item(score: real, source: nat, hash: Hash, usable: bool)

  predicate ItemBefore(a: Item, b: Item) {
    a.score > b.score || (a.score == b.score &&
      (a.source < b.source || (a.source == b.source && a.hash < b.hash)))
  }

  function HashesOf(items: seq<Item>): seq<Hash> {
    seq(|items|, i requires 0 <= i < |items| => items[i].hash)
  }

  predicate Admissible(item: Item) {
    item.usable && item.source != 0
  }

  /** The distinct evidence of a context pack, best first; an error if any item is inadmissible. */
  function Ranked(items: seq<Item>): Result<seq<Hash>> {
    if forall i :: 0 <= i < |items| ==> Admissible(items[i])
    then Ok(Dedup(HashesOf(StableSort.Sort(ItemBefore, items)))) else Err
  }

  function Smaller(a: Hash, b: Hash): bool { a < b }

  function Canonical(hashes: seq<Hash>): seq<Hash> {
    StableSort.Sort(Smaller, Dedup(hashes))
  }

  // ----- Metrics -----

  function Relevant(ranked: seq<Hash>, gold: seq<Hash>): (n: nat)
    ensures n <= |ranked|
  {
    if ranked == [] then 0
    else Relevant(ranked[..|ranked| - 1], gold) + if ranked[|ranked| - 1] in gold then 1 else 0
  }

  /** One more than the index of the first gold hash, or 0. */
  function FirstRank(ranked: seq<Hash>, gold: seq<Hash>): nat {
    if ranked == [] then 0
    else
      var before := FirstRank(ranked[..|ranked| - 1], gold);
      if before > 0 then before else if ranked[|ranked| - 1] in gold then |ranked| else 0
  }

  type Weight = nat -> real

  function Dcg(ranked: seq<Hash>, gold: seq<Hash>, weight: Weight): real {
    if ranked == [] then 0.0
    else Dcg(ranked[..|ranked| - 1], gold, weight) + if ranked[|ranked| - 1] in gold then weight(|ranked| - 1) else 0.0
  }

  function Ideal(n: nat, weight: Weight): real {
    if n == 0 then 0.0 else Ideal(n - 1, weight) + weight(n - 1)
  }

  function Ndcg(ranked: seq<Hash>, gold: seq<Hash>, weight: Weight): real {
    var ideal := Ideal(Min(|gold|, |ranked|), weight);
    if gold == [] || ideal == 0.0 then 0.0 else Dcg(ranked, gold, weight) / ideal
  }

  function TopK(ranked: seq<Hash>, k: nat): seq<Hash> {
    if |ranked| > k then ranked[..k] else ranked
  }

  /** The rank a hash holds now; 0 when it was not retrieved. */
  function RankOf(ranked: seq<Hash>, hash: Hash): nat {
    if ranked == [] then 0
    else if ranked[|ranked| - 1] == hash then |ranked| else RankOf(ranked[..|ranked| - 1], hash)
  }

  function Clamped(rank: int, k: nat): int {
    if rank <= 0 || rank > k then k + 1 else rank
  }

  function Gap(a: int, b: int): nat {
    if a < b then b - a else a - b
  }

  function DriftSum(gold: seq<Hash>, ranked: seq<Hash>, baseline: map<Hash, int>, k: nat): real
    requires k > 0
  {
    if gold == [] then 0.0
    else
      var hash := gold[|gold| - 1];
      DriftSum(gold[..|gold| - 1], ranked, baseline, k) +
      if hash !in baseline then 0.0
      else Gap(Clamped(RankOf(ranked, hash), k), Clamped(baseline[hash], k)) as real / k as real
  }

  function RankDrift(gold: seq<Hash>, ranked: seq<Hash>, baseline: map<Hash, int>, k: nat): real
    requires k > 0
  {
    if gold == [] || baseline == map[] then 0.0 else DriftSum(gold, ranked, baseline, k) / |gold| as real
  }

  datatype Measurement = Measurement(latency: int, queries: int, cost: real, costKnown: bool, costEstimated: bool)

  datatype Metrics = Metrics(
    k: nat, retrieved: nat, golden: nat, relevant: nat,
    hit: real, reciprocalRank: real, precision: real, recall: real, ndcg: real, drift: real,
    contextMatch: bool, abstentionCorrect: bool, measured: Measurement)

  datatype Case = Case(k: int, contextMatch: bool, abstentionExpected: bool)

  const DEFAULT_K := 10
  const MAX_ITEMS := 100

  function Ratio(n: nat, d: nat): real {
    if d > 0 then n as real / d as real else 0.0
  }

  function Scored(c: Case, k: nat, abstained: bool, ranked: seq<Hash>, gold: seq<Hash>, measured: Measurement,
                  baseline: map<Hash, int>, weight: Weight): Metrics
    requires k > 0
  {
    var top := TopK(ranked, k);
    var relevant, first := Relevant(top, gold), FirstRank(ranked, gold);
    Metrics(k, |ranked|, |gold|, relevant,
            if relevant > 0 then 1.0 else 0.0, Ratio(1, first), Ratio(relevant, |top|), Ratio(relevant, |gold|),
            Ndcg(top, gold, weight), RankDrift(gold, ranked, baseline, k),
            c.contextMatch, c.abstentionExpected == abstained, measured)
  }

  predicate InUnit(x: real) {
    0.0 <= x <= 1.0
  }

  /** The validation every metrics record passes before it enters a report. */
  predicate Valid(m: Metrics) {
    && 1 <= m.k <= MAX_ITEMS && m.relevant <= m.k && m.measured.latency >= 0 && m.measured.queries >= 0
    && InUnit(m.hit) && InUnit(m.reciprocalRank) && InUnit(m.precision) && InUnit(m.recall) && InUnit(m.ndcg)
    && m.drift >= 0.0 && m.measured.cost >= 0.0
    && !(m.measured.costKnown && m.measured.costEstimated)
  }

  /** The pure scorer, up to its metrics. */
  function Score(c: Case, items: seq<Item>, abstained: bool, rawGold: seq<Hash>, measured: Measurement,
                 baseline: map<Hash, int>, weight: Weight): Result<Metrics> {
    var k := if c.k == 0 then DEFAULT_K else c.k;
    if abstained != (items == []) || k < 1 || k > MAX_ITEMS
       || measured.latency < 0 || measured.queries < 0 || measured.cost < 0.0 then Err
    else match Ranked(items)
      case Err => Err
      case Ok(ranked) =>
        var m := Scored(c, k, abstained, ranked, Canonical(rawGold), measured, baseline, weight);
        if Valid(m) then Ok(m) else Err
  }

  // ----- Ranking -----

  lemma CanonicalIsDistinct(hashes: seq<Hash>)
    ensures Distinct(Canonical(hashes))
    ensures forall h :: h in Canonical(hashes) <==> h in hashes
  {
    DedupKeepsElements(hashes);
    StableSort.SortIsAnOrderedPermutation(Smaller, Dedup(hashes));
    DistinctPermutes(Dedup(hashes), Canonical(hashes));
    forall h ensures h in Canonical(hashes) <==> h in Dedup(hashes) {
      assert h in multiset(Canonical(hashes)) <==> h in multiset(Dedup(hashes));
    }
  }

  /** The ranking does not depend on the order in which the pack lists its items. */
  lemma RankingIgnoresPackOrder(a: seq<Item>, b: seq<Item>)
    requires multiset(a) == multiset(b)
    ensures Ranked(a) == Ranked(b)
  {
    MembersPermute(a, b);
    if forall i :: 0 <= i < |a| ==> Admissible(a[i]) {
      forall i | 0 <= i < |b| ensures Admissible(b[i]) { assert b[i] in a; }
      StableSort.SortIsCanonical(ItemBefore, a, b);
    } else {
      var i :| 0 <= i < |a| && !Admissible(a[i]);
      assert a[i] in b;
    }
  }

  // ----- Bounds -----

  lemma {:induction false} RelevantAreDistinctGold(ranked: seq<Hash>, gold: seq<Hash>)
    requires Distinct(ranked)
    ensures Relevant(ranked, gold) == |Members(ranked) * Members(gold)|
  {
    if ranked != [] {
      var front, last := ranked[..|ranked| - 1], ranked[|ranked| - 1];
      RelevantAreDistinctGold(front, gold);
      assert last !in front;
      var before := Members(front) * Members(gold);
      assert Members(ranked) * Members(gold) == if last in gold then before + {last} else before;
    }
  }

  /** A ranking without repetitions holds no more relevant hashes than there is gold. */
  lemma RelevantIsBounded(ranked: seq<Hash>, gold: seq<Hash>)
    requires Distinct(ranked)
    ensures Relevant(ranked, gold) <= Min(|gold|, |ranked|)
  {
    RelevantAreDistinctGold(ranked, gold);
    SubsetSize(Members(ranked) * Members(gold), Members(gold));
  }

  lemma SubsetSize(a: set<Hash>, b: set<Hash>)
    requires a <= b
    ensures |a| <= |b|
  {
    assert b == a + (b - a);
  }

  ghost predicate Discount(weight: Weight) {
    && (forall i :: weight(i) > 0.0)
    && (forall i, j :: 0 <= i < j ==> weight(j) < weight(i))
  }

  lemma {:induction false} IdealGrows(m: nat, n: nat, weight: Weight)
    requires Discount(weight) && m <= n
    ensures 0.0 <= Ideal(m, weight) <= Ideal(n, weight)
    ensures m < n ==> Ideal(m, weight) < Ideal(n, weight)
    decreases n
  {
    if m < n {
      IdealGrows(m, n - 1, weight);
    } else if m > 0 {
      IdealGrows(m - 1, n - 1, weight);
    }
  }

  /** The exchange argument: moving the relevant hashes up to the front can only add, and
      adds nothing only when they are there already. */
  lemma {:induction false} FrontLoadingIsBest(ranked: seq<Hash>, gold: seq<Hash>, weight: Weight)
    requires Discount(weight)
    ensures var r := Relevant(ranked, gold);
            && 0.0 <= Dcg(ranked, gold, weight) <= Ideal(r, weight)
            && (Dcg(ranked, gold, weight) == Ideal(r, weight) <==> forall i :: 0 <= i < r ==> ranked[i] in gold)
  {
    if ranked != [] {
      var front, last := ranked[..|ranked| - 1], ranked[|ranked| - 1];
      FrontLoadingIsBest(front, gold, weight);
      var r := Relevant(front, gold);
      assert forall i :: 0 <= i < |front| ==> front[i] == ranked[i];
      if last in gold {
        assert r < |front| ==> weight(|front|) < weight(r);
        if r < |front| { MissingBefore(front, gold); }
      }
    }
  }

  /** Somewhere among the first r+1 places of a list with only r relevant hashes one is not relevant. */
  lemma {:induction false} MissingBefore(ranked: seq<Hash>, gold: seq<Hash>)
    requires Relevant(ranked, gold) < |ranked|
    ensures exists i :: 0 <= i <= Relevant(ranked, gold) && ranked[i] !in gold
  {
    var front, last := ranked[..|ranked| - 1], ranked[|ranked| - 1];
    if Relevant(front, gold) < |front| {
      MissingBefore(front, gold);
      var i :| 0 <= i <= Relevant(front, gold) && front[i] !in gold;
      assert ranked[i] == front[i];
    } else {
      assert ranked[|front|] == last;
    }
  }

  lemma QuotientInUnit(a: real, b: real)
    requires 0.0 <= a <= b && b > 0.0
    ensures InUnit(a / b)
    ensures a / b == 1.0 <==> a == b
  {
  }

  /** nDCG lies in [0, 1], and is 1 exactly when there is gold, something was retrieved, and
      the first places, as many as gold can fill, all hold gold. */
  lemma NdcgIsNormalized(ranked: seq<Hash>, gold: seq<Hash>, weight: Weight)
    requires Discount(weight) && Distinct(ranked)
    ensures InUnit(Ndcg(ranked, gold, weight))
    ensures var n := Min(|gold|, |ranked|);
            Ndcg(ranked, gold, weight) == 1.0 <==> n > 0 && forall i :: 0 <= i < n ==> ranked[i] in gold
  {
    var n, r := Min(|gold|, |ranked|), Relevant(ranked, gold);
    RelevantIsBounded(ranked, gold);
    FrontLoadingIsBest(ranked, gold, weight);
    IdealGrows(r, n, weight);
    if n > 0 {
      IdealGrows(0, n, weight);
      QuotientInUnit(Dcg(ranked, gold, weight), Ideal(n, weight));
      if forall i :: 0 <= i < n ==> ranked[i] in gold { AllRelevant(ranked, gold, n); }
    }
  }

  lemma {:induction false} AllRelevant(ranked: seq<Hash>, gold: seq<Hash>, n: nat)
    requires n <= |ranked| && forall i :: 0 <= i < n ==> ranked[i] in gold
    ensures Relevant(ranked, gold) >= n
  {
    if ranked != [] {
      AllRelevant(ranked[..|ranked| - 1], gold, if n < |ranked| then n else n - 1);
    }
  }

  lemma {:induction false} FirstRankIsFirst(ranked: seq<Hash>, gold: seq<Hash>)
    ensures var first := FirstRank(ranked, gold);
            && first <= |ranked|
            && (forall i :: 0 <= i < (if first == 0 then |ranked| else first - 1) ==> ranked[i] !in gold)
            && (first > 0 ==> ranked[first - 1] in gold)
  {
    if ranked != [] { FirstRankIsFirst(ranked[..|ranked| - 1], gold); }
  }

  lemma RatioInUnit(n: nat, d: nat)
    requires d > 0 ==> n <= d
    ensures InUnit(Ratio(n, d))
  {
    if d > 0 { QuotientInUnit(n as real, d as real); }
  }

  lemma {:induction false} DriftSumIsBounded(gold: seq<Hash>, ranked: seq<Hash>, baseline: map<Hash, int>, k: nat)
    requires k > 0
    ensures 0.0 <= DriftSum(gold, ranked, baseline, k) <= |gold| as real
  {
    if gold != [] {
      DriftSumIsBounded(gold[..|gold| - 1], ranked, baseline, k);
      var hash := gold[|gold| - 1];
      if hash in baseline {
        QuotientInUnit(Gap(Clamped(RankOf(ranked, hash), k), Clamped(baseline[hash], k)) as real, k as real);
      }
    }
  }

  lemma DriftInUnit(gold: seq<Hash>, ranked: seq<Hash>, baseline: map<Hash, int>, k: nat)
    requires k > 0
    ensures InUnit(RankDrift(gold, ranked, baseline, k))
  {
    DriftSumIsBounded(gold, ranked, baseline, k);
    if gold != [] { QuotientInUnit(DriftSum(gold, ranked, baseline, k), |gold| as real); }
  }

  lemma TopKIsDistinct(ranked: seq<Hash>, k: nat)
    requires Distinct(ranked)
    ensures Distinct(TopK(ranked, k)) && |TopK(ranked, k)| <= k
  {
  }

  /** Every metric of every pack, gold set and baseline lies in [0, 1]. */
  lemma MetricsAreInUnit(c: Case, k: nat, abstained: bool, ranked: seq<Hash>, gold: seq<Hash>,
                         measured: Measurement, baseline: map<Hash, int>, weight: Weight)
    requires k > 0 && Distinct(ranked) && Discount(weight)
    ensures var m := Scored(c, k, abstained, ranked, gold, measured, baseline, weight);
            && InUnit(m.hit) && InUnit(m.reciprocalRank) && InUnit(m.precision) && InUnit(m.recall)
            && InUnit(m.ndcg) && InUnit(m.drift) && m.relevant <= k
  {
    hide Ndcg, RankDrift, FirstRank, Relevant, Ratio, Discount;
    var top := TopK(ranked, k);
    TopKIsDistinct(ranked, k);
    RelevantIsBounded(top, gold);
    RatioInUnit(Relevant(top, gold), |top|);
    RatioInUnit(Relevant(top, gold), |gold|);
    RatioInUnit(1, FirstRank(ranked, gold));
    NdcgIsNormalized(top, gold, weight);
    DriftInUnit(gold, ranked, baseline, k);
  }

  /** The scorer's own validation of its metrics rejects a request it would otherwise score
      exactly when the measurement calls its cost both known and estimated. */
  lemma ValidationRejectsOnlyContradictoryCost(
      c: Case, items: seq<Item>, abstained: bool, rawGold: seq<Hash>, measured: Measurement,
      baseline: map<Hash, int>, weight: Weight)
    requires Discount(weight)
    requires abstained == (items == []) && 0 <= c.k <= MAX_ITEMS && Ranked(items).Ok?
    requires measured.latency >= 0 && measured.queries >= 0 && measured.cost >= 0.0
    ensures Score(c, items, abstained, rawGold, measured, baseline, weight).Err?
            <==> measured.costKnown && measured.costEstimated
  {
    hide Scored, Canonical, InUnit, Discount;
    var k := if c.k == 0 then DEFAULT_K else c.k;
    DedupKeepsElements(HashesOf(StableSort.Sort(ItemBefore, items)));
    var ranked := Ranked(items).value;
    MetricsAreInUnit(c, k, abstained, ranked, Canonical(rawGold), measured, baseline, weight);
    ScoredCopies(c, k, abstained, ranked, Canonical(rawGold), measured, baseline, weight);
  }

  lemma ScoredCopies(c: Case, k: nat, abstained: bool, ranked: seq<Hash>, gold: seq<Hash>,
                     measured: Measurement, baseline: map<Hash, int>, weight: Weight)
    requires k > 0
    ensures var m := Scored(c, k, abstained, ranked, gold, measured, baseline, weight);
            m.k == k && m.measured == measured && (InUnit(m.drift) ==> m.drift >= 0.0)
  {
  }
}

/** The scorer's loops, each proved to compute what module RetrievalQuality defines. */
module RetrievalScorer {
  import opened Basics
  import StableSort
  import opened Distinctness
  import opened RetrievalQuality

  method RankEvidence(items: seq<Item>) returns (r: Result<seq<Hash>>)
    ensures r == Ranked(items)
  {
    var sorted := StableSort.Sort(ItemBefore, items);
    StableSort.SortIsAnOrderedPermutation(ItemBefore, items);
    MembersPermute(items, sorted);
    var seen: set<Hash> := {};
    var out: seq<Hash> := [];
    var i := 0;
    while i < |sorted|
      invariant i <= |sorted|
      invariant forall j :: 0 <= j < i ==> Admissible(sorted[j])
      invariant out == Dedup(HashesOf(sorted)[..i])
      invariant forall h :: h in seen <==> h in out
    {
      assert HashesOf(sorted)[..i + 1][..i] == HashesOf(sorted)[..i];
      var item := sorted[i];
      if !Admissible(item) {
        assert item in items;
        return Err;
      }
      if item.hash !in seen {
        seen := seen + {item.hash};
        out := out + [item.hash];
      }
      i := i + 1;
    }
    assert HashesOf(sorted)[..i] == HashesOf(sorted);
    forall j | 0 <= j < |items| ensures Admissible(items[j]) { assert items[j] in sorted; }
    r := Ok(out);
  }

  method CountRelevant(top: seq<Hash>, gold: seq<Hash>) returns (relevant: nat)
    ensures relevant == Relevant(top, gold)
  {
    relevant := 0;
    var i := 0;
    while i < |top|
      invariant i <= |top| && relevant == Relevant(top[..i], gold)
    {
      assert top[..i + 1][..i] == top[..i];
      if top[i] in gold { relevant := relevant + 1; }
      i := i + 1;
    }
    assert top[..i] == top;
  }

  lemma {:induction false} FirstRankStays(ranked: seq<Hash>, gold: seq<Hash>, k: nat)
    requires k <= |ranked| && FirstRank(ranked[..k], gold) > 0
    ensures FirstRank(ranked, gold) == FirstRank(ranked[..k], gold)
  {
    if k == |ranked| {
      assert ranked[..k] == ranked;
    } else {
      assert ranked[..|ranked| - 1][..k] == ranked[..k];
      FirstRankStays(ranked[..|ranked| - 1], gold, k);
    }
  }

  /** Stops at the first gold hash. */
  method FindFirst(ranked: seq<Hash>, gold: seq<Hash>) returns (first: nat)
    ensures first == FirstRank(ranked, gold)
  {
    var i := 0;
    while i < |ranked|
      invariant i <= |ranked| && FirstRank(ranked[..i], gold) == 0
    {
      assert ranked[..i + 1][..i] == ranked[..i];
      if ranked[i] in gold {
        FirstRankStays(ranked, gold, i + 1);
        return i + 1;
      }
      i := i + 1;
    }
    assert ranked[..i] == ranked;
    first := 0;
  }

  method NdcgAtK(ranked: seq<Hash>, gold: seq<Hash>, weight: Weight) returns (ndcg: real)
    ensures ndcg == Ndcg(ranked, gold, weight)
  {
    if gold == [] { return 0.0; }
    var dcg, index := 0.0, 0;
    while index < |ranked|
      invariant index <= |ranked| && dcg == Dcg(ranked[..index], gold, weight)
    {
      assert ranked[..index + 1][..index] == ranked[..index];
      if ranked[index] in gold { dcg := dcg + weight(index); }
      index := index + 1;
    }
    assert ranked[..index] == ranked;
    var ideal, limit := 0.0, |gold|;
    if limit > |ranked| { limit := |ranked|; }
    index := 0;
    while index < limit
      invariant index <= limit && ideal == Ideal(index, weight)
    {
      ideal := ideal + weight(index);
      index := index + 1;
    }
    if ideal == 0.0 { return 0.0; }
    ndcg := dcg / ideal;
  }

  /** A map from hash to current rank, the last index winning. */
  method CurrentRanks(ranked: seq<Hash>) returns (current: map<Hash, nat>)
    ensures forall h :: (if h in current then current[h] else 0) == RankOf(ranked, h)
  {
    current := map[];
    var i := 0;
    while i < |ranked|
      invariant i <= |ranked|
      invariant forall h :: (if h in current then current[h] else 0) == RankOf(ranked[..i], h)
    {
      assert ranked[..i + 1][..i] == ranked[..i];
      current := current[ranked[i] := i + 1];
      i := i + 1;
    }
    assert ranked[..i] == ranked;
  }

  method MeasureDrift(gold: seq<Hash>, ranked: seq<Hash>, baseline: map<Hash, int>, k: nat) returns (drift: real)
    requires k > 0
    ensures drift == RankDrift(gold, ranked, baseline, k)
  {
    if gold == [] || baseline == map[] { return 0.0; }
    var current := CurrentRanks(ranked);
    var total, i := 0.0, 0;
    while i < |gold|
      invariant i <= |gold| && total == DriftSum(gold[..i], ranked, baseline, k)
    {
      assert gold[..i + 1][..i] == gold[..i];
      var hash := gold[i];
      if hash in baseline {
        var oldRank, newRank := baseline[hash], if hash in current then current[hash] else 0;
        if newRank == 0 || newRank > k { newRank := k + 1; }
        if oldRank <= 0 || oldRank > k { oldRank := k + 1; }
        var delta := newRank - oldRank;
        if delta < 0 { delta := -delta; }
        total := total + delta as real / k as real;
      }
      i := i + 1;
    }
    assert gold[..i] == gold;
    drift := total / |gold| as real;
  }

  method ScoreMetrics(c: Case, abstained: bool, ranked: seq<Hash>, gold: seq<Hash>, measured: Measurement,
                      baseline: map<Hash, int>, weight: Weight, k: nat) returns (m: Metrics)
    requires k > 0
    ensures m == Scored(c, k, abstained, ranked, gold, measured, baseline, weight)
  {
    var top := ranked;
    if |top| > k { top := top[..k]; }
    var relevant := CountRelevant(top, gold);
    var first := FindFirst(ranked, gold);
    var precision, recall, reciprocal := 0.0, 0.0, 0.0;
    if |top| > 0 { precision := relevant as real / |top| as real; }
    if |gold| > 0 { recall := relevant as real / |gold| as real; }
    if first > 0 { reciprocal := 1 as real / first as real; }
    var ndcg := NdcgAtK(top, gold, weight);
    var drift := MeasureDrift(gold, ranked, baseline, k);
    m := Metrics(k, |ranked|, |gold|, relevant, if relevant > 0 then 1.0 else 0.0, reciprocal, precision, recall,
                 ndcg, drift, c.contextMatch, c.abstentionExpected == abstained, measured);
  }

  // ----- Summaries -----

  datatype Summary = Summary(
    cases: nat, hit: real, reciprocalRank: real, precision: real, recall: real, ndcg: real, drift: real,
    contextMatch: real, abstentionCorrect: real, latency: real, queries: real, cost: real, unknownCost: nat)

  datatype Column =
    | Hit | ReciprocalRank | Precision | Recall | NdcgColumn | Drift
    | ContextMatch | AbstentionCorrect | Latency | Queries | Cost

  function Share(b: bool): real {
    if b then 1.0 else 0.0
  }

  function Cell(column: Column, m: Metrics): real {
    match column
    case Hit => m.hit
    case ReciprocalRank => m.reciprocalRank
    case Precision => m.precision
    case Recall => m.recall
    case NdcgColumn => m.ndcg
    case Drift => m.drift
    case ContextMatch => Share(m.contextMatch)
    case AbstentionCorrect => Share(m.abstentionCorrect)
    case Latency => m.measured.latency as real
    case Queries => m.measured.queries as real
    case Cost => m.measured.cost
  }

  ghost predicate Averages(column: Column, metrics: seq<Metrics>, average: real) {
    average * |metrics| as real == Total(column, metrics)
  }

  function Total(column: Column, metrics: seq<Metrics>): real {
    if metrics == [] then 0.0 else Total(column, metrics[..|metrics| - 1]) + Cell(column, metrics[|metrics| - 1])
  }

  lemma {:induction false} TotalIsBounded(column: Column, metrics: seq<Metrics>, low: real, high: real)
    requires forall i :: 0 <= i < |metrics| ==> low <= Cell(column, metrics[i]) <= high
    ensures low * |metrics| as real <= Total(column, metrics) <= high * |metrics| as real
  {
    if metrics != [] {
      TotalIsBounded(column, metrics[..|metrics| - 1], low, high);
    }
  }

  /** An average lies between any bounds that hold of every case. */
  lemma AverageIsBounded(column: Column, metrics: seq<Metrics>, average: real, low: real, high: real)
    requires metrics != [] && Averages(column, metrics, average)
    requires forall i :: 0 <= i < |metrics| ==> low <= Cell(column, metrics[i]) <= high
    ensures low <= average <= high
  {
    hide Total, Cell;
    TotalIsBounded(column, metrics, low, high);
    Cancel(low, average, |metrics| as real);
    Cancel(average, high, |metrics| as real);
  }

  lemma Cancel(x: real, y: real, n: real)
    requires n > 0.0 && x * n <= y * n
    ensures x <= y
  {
    if x > y { ScaleKeepsOrder(y, x, n); }
  }

  lemma ScaleKeepsOrder(x: real, y: real, n: real)
    requires n > 0.0 && x < y
    ensures x * n < y * n
  {
    assert (y - x) * n > 0.0;
    assert (y - x) * n == y * n - x * n;
  }

  function Value(column: Column, s: Summary): real {
    match column
    case Hit => s.hit
    case ReciprocalRank => s.reciprocalRank
    case Precision => s.precision
    case Recall => s.recall
    case NdcgColumn => s.ndcg
    case Drift => s.drift
    case ContextMatch => s.contextMatch
    case AbstentionCorrect => s.abstentionCorrect
    case Latency => s.latency
    case Queries => s.queries
    case Cost => s.cost
  }

  function Plus(s: Summary, m: Metrics): (t: Summary)
    ensures t.cases == s.cases && t.unknownCost == s.unknownCost + if m.measured.costKnown then 0 else 1
    ensures forall column :: Value(column, t) == Value(column, s) + Cell(column, m)
  {
    s.(hit := s.hit + m.hit, reciprocalRank := s.reciprocalRank + m.reciprocalRank,
       precision := s.precision + m.precision, recall := s.recall + m.recall,
       ndcg := s.ndcg + m.ndcg, drift := s.drift + m.drift,
       contextMatch := s.contextMatch + Share(m.contextMatch),
       abstentionCorrect := s.abstentionCorrect + Share(m.abstentionCorrect),
       latency := s.latency + m.measured.latency as real, queries := s.queries + m.measured.queries as real,
       cost := s.cost + m.measured.cost,
       unknownCost := s.unknownCost + if m.measured.costKnown then 0 else 1)
  }

  function DividedBy(s: Summary, n: real): (t: Summary)
    requires n > 0.0
    ensures t.cases == s.cases && t.unknownCost == s.unknownCost
    ensures forall column :: Value(column, t) * n == Value(column, s)
  {
    s.(hit := s.hit / n, reciprocalRank := s.reciprocalRank / n, precision := s.precision / n,
       recall := s.recall / n, ndcg := s.ndcg / n, drift := s.drift / n,
       contextMatch := s.contextMatch / n, abstentionCorrect := s.abstentionCorrect / n,
       latency := s.latency / n, queries := s.queries / n, cost := s.cost / n)
  }

  function UnknownCosts(metrics: seq<Metrics>): nat {
    if metrics == [] then 0
    else UnknownCosts(metrics[..|metrics| - 1]) + if metrics[|metrics| - 1].measured.costKnown then 0 else 1
  }

  const NO_CASES := Summary(0, 0.0, 0.0, 0.0, 0.0, 0.0, 0.0, 0.0, 0.0, 0.0, 0.0, 0.0, 0)

  /** Every column of a summary is the mean of its cases, so it stays in [0, 1] when they do. */
  method SummarizeRetrieval(metrics: seq<Metrics>) returns (s: Summary)
    ensures s.cases == |metrics| && s.unknownCost == UnknownCosts(metrics)
    ensures metrics == [] ==> s == NO_CASES
    ensures metrics != [] ==> forall column :: Averages(column, metrics, Value(column, s))
    ensures forall column ::
              (forall i :: 0 <= i < |metrics| ==> InUnit(Cell(column, metrics[i]))) ==> InUnit(Value(column, s))
  {
    hide Plus, DividedBy, Value, Cell;
    NothingAdded(|metrics|);
    NothingAdded(0);
    if metrics == [] { return NO_CASES; }
    s := NO_CASES.(cases := |metrics|);
    var i := 0;
    while i < |metrics|
      invariant i <= |metrics| && s.cases == |metrics| && s.unknownCost == UnknownCosts(metrics[..i])
      invariant forall column :: Value(column, s) == Total(column, metrics[..i])
    {
      assert metrics[..i + 1][..i] == metrics[..i];
      s := Plus(s, metrics[i]);
      i := i + 1;
    }
    assert metrics[..i] == metrics;
    s := DividedBy(s, s.cases as real);
    forall column | forall i :: 0 <= i < |metrics| ==> InUnit(Cell(column, metrics[i]))
      ensures InUnit(Value(column, s))
    {
      AverageIsBounded(column, metrics, Value(column, s), 0.0, 1.0);
    }
  }

  lemma NothingAdded(n: nat)
    ensures forall column :: Value(column, NO_CASES.(cases := n)) == 0.0
    ensures NO_CASES.(cases := 0) == NO_CASES
  {
  }
}

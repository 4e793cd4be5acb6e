/** Sequences without repetitions, and dropping repetitions as a loop with a seen-map does. */
module Distinctness {

  ghost predicate Distinct<T>(s: seq<T>) {
    forall i, j :: 0 <= i < j < |s| ==> s[i] != s[j]
  }

  /** The first occurrences, in order. */
  function Dedup<T(==)>(s: seq<T>): seq<T> {
    if s == [] then []
    else
      var front := Dedup(s[..|s| - 1]);
      if s[|s| - 1] in front then front else front + [s[|s| - 1]]
  }

  lemma {:induction false} DedupKeepsElements<T>(s: seq<T>)
    ensures Distinct(Dedup(s))
    ensures forall x :: x in Dedup(s) <==> x in s
  {
    if s != [] {
      DedupKeepsElements(s[..|s| - 1]);
      assert s == s[..|s| - 1] + [s[|s| - 1]];
    }
  }

  lemma DistinctSnoc<T>(front: seq<T>, last: T)
    ensures Distinct(front + [last]) <==> Distinct(front) && last !in front
  {
    var s := front + [last];
    assert forall i :: 0 <= i < |front| ==> s[i] == front[i];
    assert s[|front|] == last;
    if Distinct(s) {
      forall i | 0 <= i < |front| ensures front[i] != last { assert s[i] != s[|front|]; }
    }
  }

  lemma {:induction false} DistinctIsNoRepeats<T>(s: seq<T>)
    ensures Distinct(s) <==> forall x :: multiset(s)[x] <= 1
  {
    if s != [] {
      var front, last := s[..|s| - 1], s[|s| - 1];
      assert s == front + [last];
      DistinctSnoc(front, last);
      DistinctIsNoRepeats(front);
      assert multiset(s) == multiset(front) + multiset{last};
      assert last in front <==> multiset(front)[last] >= 1;
      if forall x :: multiset(s)[x] <= 1 {
        assert multiset(s)[last] <= 1;
        forall x ensures multiset(front)[x] <= 1 { assert multiset(s)[x] <= 1; }
      }
    }
  }

  lemma DistinctPermutes<T>(a: seq<T>, b: seq<T>)
    requires Distinct(a) && multiset(a) == multiset(b)
    ensures Distinct(b)
  {
    DistinctIsNoRepeats(a);
    DistinctIsNoRepeats(b);
  }

  lemma MembersPermute<T>(a: seq<T>, b: seq<T>)
    requires multiset(a) == multiset(b)
    ensures forall x :: x in a <==> x in b
  {
    forall x ensures x in a <==> x in b {
      assert x in multiset(a) <==> x in multiset(b);
    }
  }

  /** Without repetitions, the elements alone decide the multiset. */
  lemma SameElementsSameMultiset<T>(a: seq<T>, b: seq<T>)
    requires Distinct(a) && Distinct(b) && forall x :: x in a <==> x in b
    ensures multiset(a) == multiset(b)
  {
    DistinctIsNoRepeats(a);
    DistinctIsNoRepeats(b);
    forall x ensures multiset(a)[x] == multiset(b)[x] {
      assert x in a <==> x in multiset(a);
      assert x in b <==> x in multiset(b);
    }
  }

  function Members<T(==, !new)>(s: seq<T>): (all: set<T>)
    ensures |all| <= |s|
    ensures forall x :: x in all <==> x in s
  {
    if s == [] then {}
    else
      assert s == s[..|s| - 1] + [s[|s| - 1]];
      Members(s[..|s| - 1]) + {s[|s| - 1]}
  }

  lemma {:induction false} DedupOfDistinct<T>(s: seq<T>)
    ensures Dedup(s) == s <==> Distinct(s)
    ensures |Dedup(s)| <= |s|
    ensures |Dedup(s)| == |s| ==> Dedup(s) == s
  {
    if s != [] {
      var front := s[..|s| - 1];
      assert s == front + [s[|s| - 1]];
      DedupOfDistinct(front);
      DedupKeepsElements(s);
      if Distinct(s) {
        assert forall i :: 0 <= i < |front| ==> front[i] == s[i];
      }
    }
  }

  /** The index of an element's first occurrence, or the length. */
  function FirstAt<T(==)>(s: seq<T>, x: T): nat {
    if s == [] then 0
    else if x in s[..|s| - 1] then FirstAt(s[..|s| - 1], x)
    else if s[|s| - 1] == x then |s| - 1
    else |s|
  }

  lemma {:induction false} FirstAtBounds<T>(s: seq<T>, x: T)
    ensures FirstAt(s, x) <= |s|
    ensures x in s <==> FirstAt(s, x) < |s|
  {
    if s != [] {
      assert s == s[..|s| - 1] + [s[|s| - 1]];
      FirstAtBounds(s[..|s| - 1], x);
    }
  }

  lemma DedupSnoc<T>(front: seq<T>, last: T)
    ensures Dedup(front + [last]) == if last in Dedup(front) then Dedup(front) else Dedup(front) + [last]
  {
    assert (front + [last])[..|front|] == front;
  }

  lemma InDedup<T>(s: seq<T>, x: T)
    ensures x in Dedup(s) <==> x in s
  {
    DedupKeepsElements(s);
  }

  /** What is left stands in the order of first occurrence. */
  lemma {:induction false} DedupKeepsOrder<T>(s: seq<T>, i: nat, j: nat)
    requires i < j < |Dedup(s)|
    ensures FirstAt(s, Dedup(s)[i]) < FirstAt(s, Dedup(s)[j])
  {
    var front, last := s[..|s| - 1], s[|s| - 1];
    assert s == front + [last];
    DedupSnoc(front, last);
    var kept := Dedup(front);
    InDedup(front, kept[i]);
    InDedup(front, last);
    FirstAtBounds(front, kept[i]);
    if j < |kept| {
      DedupKeepsOrder(front, i, j);
      InDedup(front, kept[j]);
    }
  }
}

/** A stable sort by a strict weak order, as the source's library sort is used; its result
    is canonical wherever the order separates every two different elements. */
module StableSort {

  ghost predicate StrictWeak<T(!new)>(less: (T, T) -> bool) {
    && (forall x, y :: less(x, y) ==> !less(y, x))
    && (forall x, y, z :: !less(x, y) && !less(y, z) ==> !less(x, z))
  }

  /** `x` goes after everything it is not before. */
  function Insert<T>(less: (T, T) -> bool, sorted: seq<T>, x: T): seq<T> {
    if sorted == [] || !less(x, sorted[|sorted| - 1]) then sorted + [x]
    else Insert(less, sorted[..|sorted| - 1], x) + [sorted[|sorted| - 1]]
  }

  function Sort<T>(less: (T, T) -> bool, s: seq<T>): seq<T> {
    if s == [] then [] else Insert(less, Sort(less, s[..|s| - 1]), s[|s| - 1])
  }

  ghost predicate InOrder<T>(less: (T, T) -> bool, s: seq<T>) {
    forall i, j :: 0 <= i < j < |s| ==> !less(s[j], s[i])
  }

  lemma {:induction false} InsertAdds<T(!new)>(less: (T, T) -> bool, sorted: seq<T>, x: T)
    ensures multiset(Insert(less, sorted, x)) == multiset(sorted) + multiset{x}
  {
    if sorted != [] && less(x, sorted[|sorted| - 1]) {
      InsertAdds(less, sorted[..|sorted| - 1], x);
      assert sorted == sorted[..|sorted| - 1] + [sorted[|sorted| - 1]];
    }
  }

  lemma InsertedAreKnown<T(!new)>(less: (T, T) -> bool, sorted: seq<T>, x: T, y: T)
    requires y in Insert(less, sorted, x)
    ensures y == x || y in sorted
  {
    InsertAdds(less, sorted, x);
    assert y in multiset(Insert(less, sorted, x));
  }

  lemma {:induction false} InsertKeepsOrder<T(!new)>(less: (T, T) -> bool, sorted: seq<T>, x: T)
    requires StrictWeak(less) && InOrder(less, sorted)
    ensures InOrder(less, Insert(less, sorted, x))
  {
    var n := |sorted| - 1;
    if sorted == [] || !less(x, sorted[n]) {
      var all := sorted + [x];
      forall i, j | 0 <= i < j < |all| ensures !less(all[j], all[i]) {
        if j == |sorted| && i < n { assert !less(sorted[n], sorted[i]); }
      }
    } else {
      var front := Insert(less, sorted[..n], x);
      InsertKeepsOrder(less, sorted[..n], x);
      var all := front + [sorted[n]];
      forall i, j | 0 <= i < j < |all| ensures !less(all[j], all[i]) {
        if j == |front| { InsertedAreKnown(less, sorted[..n], x, front[i]); }
      }
    }
  }

  lemma {:induction false} SortIsAnOrderedPermutation<T(!new)>(less: (T, T) -> bool, s: seq<T>)
    requires StrictWeak(less)
    ensures InOrder(less, Sort(less, s))
    ensures multiset(Sort(less, s)) == multiset(s)
  {
    if s != [] {
      var front := s[..|s| - 1];
      SortIsAnOrderedPermutation(less, front);
      InsertAdds(less, Sort(less, front), s[|s| - 1]);
      InsertKeepsOrder(less, Sort(less, front), s[|s| - 1]);
      assert s == front + [s[|s| - 1]];
    }
  }

  lemma {:induction false} SortKeepsOrdered<T(!new)>(less: (T, T) -> bool, s: seq<T>)
    requires InOrder(less, s)
    ensures Sort(less, s) == s
  {
    if s != [] {
      SortKeepsOrdered(less, s[..|s| - 1]);
      assert s == s[..|s| - 1] + [s[|s| - 1]];
    }
  }

  /** The order separates every two different elements of the sequence. */
  ghost predicate Separates<T(!new)>(less: (T, T) -> bool, s: seq<T>) {
    forall x, y :: x in s && y in s && x != y ==> less(x, y) || less(y, x)
  }

  lemma LastIsShared<T(!new)>(less: (T, T) -> bool, a: seq<T>, b: seq<T>)
    requires Separates(less, a) && InOrder(less, a) && InOrder(less, b) && multiset(a) == multiset(b) && a != []
    ensures b != [] && a[|a| - 1] == b[|b| - 1]
  {
    assert a[|a| - 1] in multiset(b);
    assert b[|b| - 1] in multiset(a);
    var i :| 0 <= i < |b| && b[i] == a[|a| - 1];
    var j :| 0 <= j < |a| && a[j] == b[|b| - 1];
  }

  lemma DropLast<T(!new)>(less: (T, T) -> bool, s: seq<T>)
    requires s != [] && Separates(less, s) && InOrder(less, s)
    ensures Separates(less, s[..|s| - 1]) && InOrder(less, s[..|s| - 1])
    ensures multiset(s[..|s| - 1]) == multiset(s) - multiset{s[|s| - 1]}
  {
    assert s == s[..|s| - 1] + [s[|s| - 1]];
    assert forall x :: x in s[..|s| - 1] ==> x in s;
  }

  lemma {:induction false} OrderedPermutationsAreEqual<T(!new)>(less: (T, T) -> bool, a: seq<T>, b: seq<T>)
    requires Separates(less, a) && InOrder(less, a)
    requires Separates(less, b) && InOrder(less, b) && multiset(a) == multiset(b)
    ensures a == b
  {
    hide Separates, InOrder;
    assert |a| == |multiset(a)| == |multiset(b)| == |b|;
    if a != [] {
      var n := |a| - 1;
      LastIsShared(less, a, b);
      DropLast(less, a);
      DropLast(less, b);
      OrderedPermutationsAreEqual(less, a[..n], b[..n]);
      assert a == a[..n] + [a[n]] && b == b[..n] + [b[n]];
    }
  }

  lemma SeparatesPermutes<T(!new)>(less: (T, T) -> bool, a: seq<T>, b: seq<T>)
    requires Separates(less, a) && multiset(a) == multiset(b)
    ensures Separates(less, b)
  {
    forall x | x in b ensures x in a { assert x in multiset(a); }
  }

  /** Two listings of the same elements sort to the same sequence. */
  lemma SortIsCanonical<T(!new)>(less: (T, T) -> bool, a: seq<T>, b: seq<T>)
    requires StrictWeak(less) && Separates(less, a) && multiset(a) == multiset(b)
    ensures Sort(less, a) == Sort(less, b)
  {
    SortIsAnOrderedPermutation(less, a);
    SortIsAnOrderedPermutation(less, b);
    SeparatesPermutes(less, a, Sort(less, a));
    SeparatesPermutes(less, a, Sort(less, b));
    OrderedPermutationsAreEqual(less, Sort(less, a), Sort(less, b));
  }
}

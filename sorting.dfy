/** `Array.prototype.sort` with a comparator, as the list components use it on a
    copy of their data: the comparator's result is read only through its sign
    (negative: `a` first; positive: `b` first). */
module Sorting {

  /** The comparator orders consistently: any two elements are comparable, and
      "sorts no later than" is transitive. */
  ghost predicate TotalPreorder<T(!new)>(cmp: (T, T) -> real)
  {
    (forall x, y :: NoLater(cmp, x, y) || NoLater(cmp, y, x)) &&
    (forall x, y, z :: NoLater(cmp, x, y) && NoLater(cmp, y, z) ==> NoLater(cmp, x, z))
  }

  /** `x` may stay before `y`. */
  ghost predicate NoLater<T>(cmp: (T, T) -> real, x: T, y: T)
  {
    cmp(x, y) <= 0.0
  }

  /** No element is placed before one that the comparator puts strictly ahead of it. */
  ghost predicate Sorted<T>(s: seq<T>, cmp: (T, T) -> real)
  {
    forall i, j :: 0 <= i < j < |s| ==> cmp(s[i], s[j]) <= 0.0
  }

  /** The first `n` elements are in comparator order. */
  ghost predicate SortedPrefix<T>(s: seq<T>, cmp: (T, T) -> real, n: int)
  {
    forall p, q :: 0 <= p < q < n && q < |s| ==> cmp(s[p], s[q]) <= 0.0
  }

  /** While element `i` is being moved left it sits at `j`: the other elements of the
      prefix `s[..i+1]` are in order, and it sorts no later than everything to its right. */
  ghost predicate Inserting<T>(s: seq<T>, cmp: (T, T) -> real, i: int, j: int)
  {
    0 <= j <= i < |s| &&
    (forall p, q :: 0 <= p < q <= i && p != j && q != j ==> cmp(s[p], s[q]) <= 0.0) &&
    (forall q :: j < q <= i ==> cmp(s[j], s[q]) <= 0.0)
  }

  lemma StartInserting<T(!new)>(s: seq<T>, cmp: (T, T) -> real, i: int)
    requires 0 <= i < |s| && SortedPrefix(s, cmp, i)
    ensures Inserting(s, cmp, i, i)
  {
  }

  lemma SwapStep<T(!new)>(s: seq<T>, cmp: (T, T) -> real, i: int, j: int)
    requires TotalPreorder(cmp)
    requires Inserting(s, cmp, i, j) && 0 < j && cmp(s[j - 1], s[j]) > 0.0
    ensures Inserting(s[j - 1 := s[j]][j := s[j - 1]], cmp, i, j - 1)
  {
    var t := s[j - 1 := s[j]][j := s[j - 1]];
    assert NoLater(cmp, t[j - 1], t[j]) by {
      assert !NoLater(cmp, s[j - 1], s[j]);
    }
    forall q | j - 1 < q <= i
      ensures cmp(t[j - 1], t[q]) <= 0.0
    {
      if q > j {
        assert NoLater(cmp, t[j - 1], t[j]) && NoLater(cmp, t[j], t[q]);
      }
    }
  }

  lemma FinishInserting<T(!new)>(s: seq<T>, cmp: (T, T) -> real, i: int, j: int)
    requires TotalPreorder(cmp)
    requires Inserting(s, cmp, i, j) && (j == 0 || cmp(s[j - 1], s[j]) <= 0.0)
    ensures SortedPrefix(s, cmp, i + 1)
  {
    forall p, q | 0 <= p < q < i + 1
      ensures cmp(s[p], s[q]) <= 0.0
    {
      if q == j && p < j - 1 {
        assert NoLater(cmp, s[p], s[j - 1]) && NoLater(cmp, s[j - 1], s[j]);
      }
    }
  }

  /** One pass of insertion sort: moves `a[i]` left into place within `a[..i+1]`. */
  method Insert<T(!new)>(a: array<T>, cmp: (T, T) -> real, i: int)
    requires TotalPreorder(cmp)
    requires 0 <= i < a.Length && SortedPrefix(a[..], cmp, i)
    modifies a
    ensures SortedPrefix(a[..], cmp, i + 1)
    ensures multiset(a[..]) == multiset(old(a[..]))
  {
    StartInserting(a[..], cmp, i);
    var j := i;
    while 0 < j && cmp(a[j - 1], a[j]) > 0.0
      invariant Inserting(a[..], cmp, i, j)
      invariant multiset(a[..]) == multiset(old(a[..]))
    {
      ghost var before := a[..];
      SwapStep(before, cmp, i, j);
      a[j - 1], a[j] := a[j], a[j - 1];
      assert a[..] == before[j - 1 := before[j]][j := before[j - 1]];
      j := j - 1;
    }
    FinishInserting(a[..], cmp, i, j);
  }

  /** Sorts `a` in place by insertion, moving each new element left past the ones
      the comparator puts after it. */
  method SortInPlace<T(!new)>(a: array<T>, cmp: (T, T) -> real)
    requires TotalPreorder(cmp)
    modifies a
    ensures Sorted(a[..], cmp)
    ensures multiset(a[..]) == multiset(old(a[..]))
  {
    var i := 0;
    while i < a.Length
      invariant 0 <= i <= a.Length
      invariant SortedPrefix(a[..], cmp, i)
      invariant multiset(a[..]) == multiset(old(a[..]))
    {
      Insert(a, cmp, i);
      i := i + 1;
    }
  }

  /** `[...s].sort(cmp)`: sorts a fresh copy, leaving `s` as it was. */
  method SortedCopy<T(!new)>(s: seq<T>, cmp: (T, T) -> real) returns (r: seq<T>)
    requires TotalPreorder(cmp)
    ensures Sorted(r, cmp)
    ensures multiset(r) == multiset(s)
    ensures |r| == |s|
  {
    var a := new T[|s|](k requires 0 <= k < |s| => s[k]);
    assert a[..] == s;
    SortInPlace(a, cmp);
    r := a[..];
    assert |r| == |multiset(r)| == |multiset(s)| == |s|;
  }

  /** A comparator whose sign agrees with the order of a real-valued rank orders
      consistently. */
  lemma RankedComparator<T(!new)>(cmp: (T, T) -> real, rank: T -> real)
    requires forall x, y :: cmp(x, y) <= 0.0 <==> rank(x) <= rank(y)
    ensures TotalPreorder(cmp)
  {
  }

  /** A list sorted by such a comparator is ordered by the rank. */
  lemma SortedByRank<T(!new)>(s: seq<T>, cmp: (T, T) -> real, rank: T -> real)
    requires forall x, y :: cmp(x, y) <= 0.0 <==> rank(x) <= rank(y)
    requires Sorted(s, cmp)
    ensures forall i, j :: 0 <= i < j < |s| ==> rank(s[i]) <= rank(s[j])
  {
  }
}

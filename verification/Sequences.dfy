/** Small facts about sequences that several cores share. */
module Sequences {

  function Reverse<T>(s: seq<T>): (r: seq<T>)
    ensures |r| == |s|
  {
    if s == [] then [] else Reverse(s[1..]) + [s[0]]
  }

  lemma {:induction false} ReverseAt<T>(s: seq<T>, i: nat)
    requires i < |s|
    ensures Reverse(s)[i] == s[|s| - 1 - i]
  {
    if i < |s| - 1 {
      ReverseAt(s[1..], i);
    }
  }

  lemma {:induction false} ReverseMultiset<T>(s: seq<T>)
    ensures multiset(Reverse(s)) == multiset(s)
  {
    if s != [] {
      ReverseMultiset(s[1..]);
      assert s == [s[0]] + s[1..];
    }
  }

  lemma ReverseElements<T>(s: seq<T>)
    ensures forall i :: 0 <= i < |s| ==> Reverse(s)[i] == s[|s| - 1 - i]
  {
    forall i | 0 <= i < |s| ensures Reverse(s)[i] == s[|s| - 1 - i] {
      ReverseAt(s, i);
    }
  }

  lemma ReverseSnoc<T>(s: seq<T>, x: T)
    ensures Reverse(s + [x]) == [x] + Reverse(s)
  {
    ReverseElements(s + [x]);
    ReverseElements(s);
    hide Reverse;
  }

  lemma InReverse<T>(s: seq<T>, x: T)
    requires x in Reverse(s)
    ensures x in s
  {
    ReverseMultiset(s);
    assert x in multiset(Reverse(s));
  }

  // ----- counting -----

  /** The positions whose element meets a condition. */
  function Indices<T>(xs: seq<T>, p: T -> bool): set<nat>
  {
    set k: nat | k < |xs| && p(xs[k])
  }

  lemma NoIndices<T>(p: T -> bool)
    ensures Indices([], p) == {}
  {
  }

  lemma IndicesInit<T>(xs: seq<T>, p: T -> bool)
    requires xs != []
    ensures var n := |xs| - 1; |Indices(xs, p)| == |Indices(xs[..n], p)| + if p(xs[n]) then 1 else 0
  {
    var n := |xs| - 1;
    var before := Indices(xs[..n], p);
    if p(xs[n]) {
      assert Indices(xs, p) == before + {n};
    } else {
      assert Indices(xs, p) == before;
    }
  }

  lemma SubsetSize<T>(a: set<T>, b: set<T>)
    requires a <= b
    ensures |a| <= |b|
  {
    assert b == a + (b - a);
  }

  function Without<T>(xs: seq<T>, k: nat): seq<T>
    requires k < |xs|
  {
    xs[..k] + xs[k + 1..]
  }

  /** Leaving out an element before the last keeps the last where it is. */
  lemma WithoutInit<T>(xs: seq<T>, k: nat)
    requires k < |xs|
    ensures var n, rest := |xs| - 1, Without(xs, k);
            if k == n then rest == xs[..n]
            else rest != [] && rest[..|rest| - 1] == Without(xs[..n], k) && rest[|rest| - 1] == xs[n]
  {
  }

  // ----- stable sorting by a "comes before" relation -----

  /** Places `x` after every element it does not come before. */
  function InsertBy<T>(x: T, ys: seq<T>, before: (T, T) -> bool): (zs: seq<T>)
    ensures |zs| == |ys| + 1
  {
    var n := |ys| - 1;
    if ys == [] || !before(x, ys[n]) then ys + [x] else InsertBy(x, ys[..n], before) + [ys[n]]
  }

  function SortBy<T>(xs: seq<T>, before: (T, T) -> bool): (ys: seq<T>)
    ensures |ys| == |xs|
  {
    if xs == [] then [] else InsertBy(xs[|xs| - 1], SortBy(xs[..|xs| - 1], before), before)
  }

  predicate OrderedBy<T>(xs: seq<T>, before: (T, T) -> bool)
  {
    forall i, j :: 0 <= i < j < |xs| ==> !before(xs[j], xs[i])
  }

  ghost predicate WeakOrder<T(!new)>(before: (T, T) -> bool)
  {
    && (forall a, b :: before(a, b) ==> !before(b, a))
    && (forall a, b, c :: !before(b, a) && !before(c, b) ==> !before(c, a))
  }

  lemma OrderedByInit<T>(xs: seq<T>, before: (T, T) -> bool)
    requires OrderedBy(xs, before) && xs != []
    ensures OrderedBy(xs[..|xs| - 1], before)
    ensures |xs| > 1 ==> !before(xs[|xs| - 1], xs[|xs| - 2])
  {
  }

  lemma OrderedBySnoc<T(!new)>(xs: seq<T>, x: T, before: (T, T) -> bool)
    requires WeakOrder(before) && OrderedBy(xs, before)
    requires xs != [] ==> !before(x, xs[|xs| - 1])
    ensures OrderedBy(xs + [x], before)
  {
    forall i, j | 0 <= i < j < |xs| + 1 ensures !before((xs + [x])[j], (xs + [x])[i]) {
      if j == |xs| && i < |xs| - 1 {
        assert !before(xs[|xs| - 1], xs[i]);
      }
    }
  }

  lemma {:induction false} InsertOrders<T(!new)>(x: T, ys: seq<T>, before: (T, T) -> bool)
    requires WeakOrder(before) && OrderedBy(ys, before)
    ensures OrderedBy(InsertBy(x, ys, before), before)
    ensures InsertBy(x, ys, before)[|ys|] == if ys == [] || !before(x, ys[|ys| - 1]) then x else ys[|ys| - 1]
  {
    hide OrderedBy;
    var n := |ys| - 1;
    if ys == [] || !before(x, ys[n]) {
      OrderedBySnoc(ys, x, before);
    } else {
      OrderedByInit(ys, before);
      InsertOrders(x, ys[..n], before);
      OrderedBySnoc(InsertBy(x, ys[..n], before), ys[n], before);
    }
  }

  lemma {:induction false} InsertKeeps<T>(x: T, ys: seq<T>, before: (T, T) -> bool)
    ensures multiset(InsertBy(x, ys, before)) == multiset(ys) + multiset{x}
  {
    var n := |ys| - 1;
    if ys != [] && before(x, ys[n]) {
      InsertKeeps(x, ys[..n], before);
      assert ys == ys[..n] + [ys[n]];
    }
  }

  lemma {:induction false} SortKeeps<T>(xs: seq<T>, before: (T, T) -> bool)
    ensures multiset(SortBy(xs, before)) == multiset(xs)
  {
    if xs != [] {
      var n := |xs| - 1;
      SortKeeps(xs[..n], before);
      InsertKeeps(xs[n], SortBy(xs[..n], before), before);
      assert xs == xs[..n] + [xs[n]];
    }
  }

  lemma {:induction false} SortOrders<T(!new)>(xs: seq<T>, before: (T, T) -> bool)
    requires WeakOrder(before)
    ensures OrderedBy(SortBy(xs, before), before)
  {
    hide InsertBy;
    if xs != [] {
      SortOrders(xs[..|xs| - 1], before);
      InsertOrders(xs[|xs| - 1], SortBy(xs[..|xs| - 1], before), before);
    }
  }

  /** Sorting an ordered sequence leaves it alone, ties included. */
  lemma {:induction false} SortOrdered<T>(xs: seq<T>, before: (T, T) -> bool)
    requires OrderedBy(xs, before)
    ensures SortBy(xs, before) == xs
  {
    hide OrderedBy;
    if xs != [] {
      var n := |xs| - 1;
      OrderedByInit(xs, before);
      SortOrdered(xs[..n], before);
      assert xs == xs[..n] + [xs[n]];
    }
  }

  lemma {:induction false} InsertFirst<T>(x: T, ys: seq<T>, before: (T, T) -> bool)
    requires forall y :: y in ys ==> before(x, y)
    ensures InsertBy(x, ys, before) == [x] + ys
  {
    if ys != [] {
      InsertFirst(x, ys[..|ys| - 1], before);
      assert ys == ys[..|ys| - 1] + [ys[|ys| - 1]];
    }
  }

  /** Sorting a sequence in strictly opposite order reverses it. */
  lemma {:induction false} SortOpposite<T>(xs: seq<T>, before: (T, T) -> bool)
    requires forall i, j :: 0 <= i < j < |xs| ==> before(xs[j], xs[i])
    ensures SortBy(xs, before) == Reverse(xs)
  {
    hide Reverse, InsertBy;
    if xs == [] {
      NothingReversed<T>();
    } else {
      var n := |xs| - 1;
      var x := xs[n];
      SortOpposite(xs[..n], before);
      forall y | y in Reverse(xs[..n]) ensures before(x, y) {
        InReverse(xs[..n], y);
      }
      InsertFirst(x, Reverse(xs[..n]), before);
      ReverseSnoc(xs[..n], x);
      assert xs == xs[..n] + [x];
    }
  }

  lemma NothingReversed<T>()
    ensures Reverse<T>([]) == []
  {
  }
}

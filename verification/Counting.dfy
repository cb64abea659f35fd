/**
 Sizes of finite sets and sums over sequences, stated so that proofs need not unfold
 them: what a union, a removal or a subset does to a size, and what joining, splitting,
 permuting, mapping or filtering does to a sum.
 */
module Counting {

  lemma UnionSize<T>(a: set<T>, b: set<T>, c: set<T>)
    requires c == a + b && a !! b
    ensures |c| == |a| + |b|
  {
  }

  lemma RemoveSize<T>(s: set<T>, x: T)
    requires x in s
    ensures |s - {x}| == |s| - 1
  {
  }

  lemma {:induction false} SubsetSize<T>(a: set<T>, b: set<T>)
    requires a <= b
    ensures |a| <= |b|
  {
    if a != {} {
      var x :| x in a;
      RemoveSize(a, x);
      RemoveSize(b, x);
      SubsetSize(a - {x}, b - {x});
    }
  }

  lemma UnionAtMost<T>(a: set<T>, b: set<T>)
    ensures |a + b| <= |a| + |b|
  {
    UnionSize(a, b - a, a + b);
    SubsetSize(b - a, b);
  }

  lemma SameSizeSubset<T>(a: set<T>, b: set<T>)
    requires a <= b && |a| == |b|
    ensures a == b
  {
    UnionSize(a, b - a, b);
  }

  /** Two elements of `b` outside a subset at least two smaller. */
  lemma TwoOutside<T>(b: set<T>, a: set<T>) returns (x: T, y: T)
    requires a <= b && |a| + 2 <= |b|
    ensures x in b - a && y in b - a && x != y
  {
    UnionSize(a, b - a, b);
    x :| x in b - a;
    RemoveSize(b - a, x);
    y :| y in b - a - {x};
  }

  function SumBy<T>(s: seq<T>, f: T -> int): int {
    if s == [] then 0 else f(s[0]) + SumBy(s[1..], f)
  }

  lemma {:induction false} SumByJoins<T>(a: seq<T>, b: seq<T>, f: T -> int)
    ensures SumBy(a + b, f) == SumBy(a, f) + SumBy(b, f)
  {
    if a == [] {
      assert a + b == b;
    } else {
      assert (a + b)[1..] == a[1..] + b;
      SumByJoins(a[1..], b, f);
    }
  }

  lemma SumByOne<T>(x: T, f: T -> int)
    ensures SumBy([x], f) == f(x)
  {
  }

  lemma SumBySplits<T>(s: seq<T>, i: nat, f: T -> int)
    requires i < |s|
    ensures SumBy(s, f) == SumBy(s[..i] + s[i + 1..], f) + f(s[i])
    ensures multiset(s) == multiset(s[..i] + s[i + 1..]) + multiset{s[i]}
  {
    var rest := s[i + 1..];
    assert s == s[..i] + ([s[i]] + rest);
    SumByJoins(s[..i], [s[i]] + rest, f);
    SumByJoins([s[i]], rest, f);
    SumByJoins(s[..i], rest, f);
    SumByOne(s[i], f);
  }

  lemma CancelOne<T>(a: multiset<T>, b: multiset<T>, x: T)
    requires a + multiset{x} == b + multiset{x}
    ensures a == b
  {
    assert a == (a + multiset{x}) - multiset{x};
    assert b == (b + multiset{x}) - multiset{x};
  }

  lemma SomewhereIn<T>(t: seq<T>, x: T) returns (i: nat)
    requires x in multiset(t)
    ensures i < |t| && t[i] == x
  {
    i :| 0 <= i < |t| && t[i] == x;
  }

  /** A sum does not depend on the order of its terms. */
  lemma {:induction false} SumByPermutes<T>(s: seq<T>, t: seq<T>, f: T -> int)
    requires multiset(s) == multiset(t)
    ensures SumBy(s, f) == SumBy(t, f)
  {
    if s == [] {
      assert |multiset(t)| == 0;
    } else {
      assert s[0] in multiset(s);
      var i := SomewhereIn(t, s[0]);
      SumBySplits(t, i, f);
      SumBySplits(s, 0, f);
      assert s[..0] + s[1..] == s[1..];
      var rest := t[..i] + t[i + 1..];
      hide *;
      CancelOne(multiset(s[1..]), multiset(rest), s[0]);
      SumByPermutes(s[1..], rest, f);
    }
  }

  function Map<T, U>(s: seq<T>, f: T -> U): seq<U> {
    seq(|s|, i requires 0 <= i < |s| => f(s[i]))
  }

  ghost function Hits<T, U>(f: T -> U, y: U): T -> int {
    (x: T) => if f(x) == y then 1 else 0
  }

  lemma {:induction false} MapCounts<T, U>(s: seq<T>, f: T -> U, y: U)
    ensures multiset(Map(s, f))[y] == SumBy(s, Hits(f, y))
  {
    if s != [] {
      MapCounts(s[1..], f, y);
      assert Map(s, f) == [f(s[0])] + Map(s[1..], f);
    }
  }

  lemma MapPermutes<T, U(!new)>(s: seq<T>, t: seq<T>, f: T -> U)
    requires multiset(s) == multiset(t)
    ensures multiset(Map(s, f)) == multiset(Map(t, f))
  {
    forall y
      ensures multiset(Map(s, f))[y] == multiset(Map(t, f))[y]
    {
      MapCounts(s, f, y);
      MapCounts(t, f, y);
      SumByPermutes(s, t, Hits(f, y));
    }
    assert multiset(Map(s, f)) == multiset(Map(t, f));
  }

  function Filter<T>(s: seq<T>, keep: T -> bool): (r: seq<T>)
    ensures forall x | x in r :: x in s && keep(x)
  {
    if s == [] then [] else (if keep(s[0]) then [s[0]] else []) + Filter(s[1..], keep)
  }

  lemma {:induction false} FilterCounts<T>(s: seq<T>, keep: T -> bool, x: T)
    ensures multiset(Filter(s, keep))[x] == if keep(x) then multiset(s)[x] else 0
  {
    if s != [] {
      FilterCounts(s[1..], keep, x);
      assert s == [s[0]] + s[1..];
    }
  }

  lemma FilterPermutes<T(!new)>(s: seq<T>, t: seq<T>, keep: T -> bool)
    requires multiset(s) == multiset(t)
    ensures multiset(Filter(s, keep)) == multiset(Filter(t, keep))
  {
    forall x
      ensures multiset(Filter(s, keep))[x] == multiset(Filter(t, keep))[x]
    {
      FilterCounts(s, keep, x);
      FilterCounts(t, keep, x);
    }
    assert multiset(Filter(s, keep)) == multiset(Filter(t, keep));
  }

  lemma {:induction false} FilterHolds<T>(s: seq<T>, keep: T -> bool, x: T)
    ensures x in Filter(s, keep) <==> x in s && keep(x)
  {
    if s != [] {
      FilterHolds(s[1..], keep, x);
    }
  }

  lemma {:induction false} FilterJoins<T>(a: seq<T>, b: seq<T>, keep: T -> bool)
    ensures Filter(a + b, keep) == Filter(a, keep) + Filter(b, keep)
  {
    if a == [] {
      assert a + b == b;
    } else {
      assert (a + b)[1..] == a[1..] + b;
      FilterJoins(a[1..], b, keep);
    }
  }

  lemma {:induction false} FilterAll<T>(s: seq<T>, keep: T -> bool)
    requires forall x | x in s :: keep(x)
    ensures Filter(s, keep) == s
  {
    if s != [] {
      FilterAll(s[1..], keep);
    }
  }

  lemma {:induction false} FilterNone<T>(s: seq<T>, keep: T -> bool)
    requires forall x | x in s :: !keep(x)
    ensures Filter(s, keep) == []
  {
    if s != [] {
      FilterNone(s[1..], keep);
    }
  }

  lemma SameMembers<T>(s: seq<T>, t: seq<T>)
    requires multiset(s) == multiset(t)
    ensures |s| == |t|
    ensures forall x :: x in s <==> x in t
  {
    assert |multiset(s)| == |multiset(t)|;
    forall x
      ensures x in s <==> x in t
    {
      assert x in s <==> x in multiset(s);
      assert x in t <==> x in multiset(t);
    }
  }

  lemma FrontAndLast<T>(s: seq<T>)
    requires s != []
    ensures s == s[..|s| - 1] + [s[|s| - 1]]
  {
  }

  lemma Regroup<T>(a: seq<T>, b: seq<T>, c: seq<T>)
    ensures a + (b + c) == a + b + c
  {
  }

  lemma NoMore<T>(s: seq<T>)
    ensures s + [] == s
  {
  }
}

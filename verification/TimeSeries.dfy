/**
 Lists kept in time order and volume kept by the minute, as both
 packages/market-data/src/market-tape.ts and packages/chain/src/market-indexer.ts
 keep them.
 */
module TimeSeries {
  import opened Counting

  const MINUTE: int := 60_000

  /** A list kept under a key, empty where there is none. */
  function ListOf<K, T>(m: map<K, seq<T>>, k: K): seq<T> {
    if k in m then m[k] else []
  }

  ghost predicate InTime<T>(list: seq<T>, at: T -> int) {
    forall i, j | 0 <= i < j < |list| :: at(list[i]) <= at(list[j])
  }

  /** `entry` after everything not later than it, seen from the end. */
  ghost function Placed<T>(list: seq<T>, entry: T, at: T -> int): seq<T> {
    if list == [] then [entry]
    else
      var n := |list| - 1;
      if at(list[n]) > at(entry) then Placed(list[..n], entry, at) + [list[n]] else list + [entry]
  }

  method InsertByTime<T>(list: seq<T>, entry: T, at: T -> int) returns (r: seq<T>)
    ensures r == Placed(list, entry, at)
  {
    hide Placed;
    var index := |list|;
    assert list[..|list|] == list && list[|list|..] == [];
    while index > 0 && at(list[index - 1]) > at(entry)
      invariant 0 <= index <= |list|
      invariant Placed(list, entry, at) == Placed(list[..index], entry, at) + list[index..]
    {
      PlacedEarlier(list, index, entry, at);
      index := index - 1;
    }
    PlacedHere(list[..index], entry, at);
    r := list[..index] + [entry] + list[index..];
  }

  lemma PlacedEarlier<T>(list: seq<T>, index: nat, entry: T, at: T -> int)
    requires 0 < index <= |list| && at(list[index - 1]) > at(entry)
    ensures Placed(list[..index], entry, at) + list[index..] == Placed(list[..index - 1], entry, at) + list[index - 1..]
  {
    assert list[..index][..index - 1] == list[..index - 1];
    assert list[index - 1..] == [list[index - 1]] + list[index..];
  }

  lemma PlacedHere<T>(list: seq<T>, entry: T, at: T -> int)
    requires list == [] || at(list[|list| - 1]) <= at(entry)
    ensures Placed(list, entry, at) == list + [entry]
  {
  }

  /** A run of arrivals into a list. */
  ghost function PlacedAll<T>(list: seq<T>, entries: seq<T>, at: T -> int): seq<T>
    decreases |entries|
  {
    if entries == [] then list
    else
      var n := |entries| - 1;
      Placed(PlacedAll(list, entries[..n], at), entries[n], at)
  }

  lemma {:induction false} PlacedIsSorted<T>(list: seq<T>, entry: T, at: T -> int)
    requires InTime(list, at)
    ensures InTime(Placed(list, entry, at), at)
    ensures multiset(Placed(list, entry, at)) == multiset(list) + multiset{entry}
    decreases |list|
  {
    if list != [] {
      var n := |list| - 1;
      assert list == list[..n] + [list[n]];
      if at(list[n]) > at(entry) {
        PlacedIsSorted(list[..n], entry, at);
        var r := Placed(list[..n], entry, at);
        forall x | x in r
          ensures at(x) <= at(list[n])
        {
          assert x in multiset(r);
          assert x in multiset(list[..n]) || x == entry;
          assert x in list[..n] || x == entry;
        }
        AppendInTime(r, list[n], at);
      } else {
        forall x | x in list
          ensures at(x) <= at(entry)
        {
        }
        AppendInTime(list, entry, at);
      }
    }
  }

  lemma AppendInTime<T>(list: seq<T>, x: T, at: T -> int)
    requires InTime(list, at) && forall y | y in list :: at(y) <= at(x)
    ensures InTime(list + [x], at)
  {
  }

  /** Arrivals in any order leave a list in time order, with each arrival once. */
  lemma {:induction false} PlacedAllIsSorted<T>(list: seq<T>, entries: seq<T>, at: T -> int)
    requires InTime(list, at)
    ensures InTime(PlacedAll(list, entries, at), at)
    ensures multiset(PlacedAll(list, entries, at)) == multiset(list) + multiset(entries)
    decreases |entries|
  {
    hide Placed, InTime;
    if entries != [] {
      var n := |entries| - 1;
      PlacedAllIsSorted(list, entries[..n], at);
      PlacedIsSorted(PlacedAll(list, entries[..n], at), entries[n], at);
      FrontAndLast(entries);
    }
  }

  lemma {:induction false} PlacedAllJoins<T>(list: seq<T>, a: seq<T>, b: seq<T>, at: T -> int)
    ensures PlacedAll(list, a + b, at) == PlacedAll(PlacedAll(list, a, at), b, at)
    decreases |b|
  {
    hide Placed;
    if b == [] {
      assert a + b == a;
    } else {
      var n := |b| - 1;
      PlacedAllJoins(list, a, b[..n], at);
      assert (a + b)[..|a + b| - 1] == a + b[..n];
    }
  }

  lemma FilterOne<T>(x: T, keep: T -> bool)
    ensures Filter([x], keep) == if keep(x) then [x] else []
  {
    assert [x][1..] == [];
  }

  lemma FilterSplits<T>(list: seq<T>, keep: T -> bool)
    requires list != []
    ensures var n := |list| - 1;
            Filter(list, keep) == if keep(list[n]) then Filter(list[..n], keep) + [list[n]] else Filter(list[..n], keep)
  {
    hide Filter;
    var n := |list| - 1;
    FrontAndLast(list);
    FilterAppends(list[..n], list[n], keep);
  }

  lemma FilterAppends<T>(front: seq<T>, last: T, keep: T -> bool)
    ensures Filter(front + [last], keep) == if keep(last) then Filter(front, keep) + [last] else Filter(front, keep)
  {
    hide Filter;
    FilterJoins(front, [last], keep);
    FilterOne(last, keep);
  }

  lemma FilterInTime<T>(list: seq<T>, keep: T -> bool, at: T -> int)
    requires InTime(list, at)
    ensures InTime(Filter(list, keep), at)
    decreases |list|
  {
    if list != [] {
      var n := |list| - 1;
      FilterInTime(list[..n], keep, at);
      FilterSplits(list, keep);
      assert forall y | y in Filter(list[..n], keep) :: y in list[..n] && at(y) <= at(list[n]);
      if keep(list[n]) {
        AppendInTime(Filter(list[..n], keep), list[n], at);
      }
    }
  }

  lemma PlacedUnfolds<T>(front: seq<T>, last: T, entry: T, at: T -> int)
    ensures Placed(front + [last], entry, at)
            == if at(last) > at(entry) then Placed(front, entry, at) + [last] else front + [last] + [entry]
  {
    assert (front + [last])[..|front|] == front;
  }

  /** Selecting from a list kept in time order is keeping the selection in time order. */
  lemma {:induction false} PlacedFilters<T>(list: seq<T>, entry: T, keep: T -> bool, at: T -> int)
    requires InTime(list, at)
    ensures Filter(Placed(list, entry, at), keep)
            == if keep(entry) then Placed(Filter(list, keep), entry, at) else Filter(list, keep)
    decreases |list|
  {
    if list == [] {
      FilterOne(entry, keep);
    } else {
      var n := |list| - 1;
      var front, last := list[..n], list[n];
      assert InTime(front, at);
      if at(last) <= at(entry) {
        AllNotLater(list, entry, keep, at);
      }
      hide *;
      FrontAndLast(list);
      FilterAppends(front, last, keep);
      PlacedUnfolds(front, last, entry, at);
      if at(last) > at(entry) {
        PlacedFilters(front, entry, keep, at);
        FilterAppends(Placed(front, entry, at), last, keep);
        PlacedUnfolds(Filter(front, keep), last, entry, at);
      } else {
        FilterAppends(list, entry, keep);
      }
    }
  }

  lemma AllNotLater<T>(list: seq<T>, entry: T, keep: T -> bool, at: T -> int)
    requires list != [] && InTime(list, at) && at(list[|list| - 1]) <= at(entry)
    ensures Placed(Filter(list, keep), entry, at) == Filter(list, keep) + [entry]
  {
    var f := Filter(list, keep);
    hide Filter;
    if f != [] {
      var last := f[|f| - 1];
      assert last in f;
      assert last in list;
      hide InTime;
    }
    PlacedHere(f, entry, at);
  }

  lemma PlacedAllUnfolds<T>(list: seq<T>, entries: seq<T>, last: T, at: T -> int)
    ensures PlacedAll(list, entries + [last], at) == Placed(PlacedAll(list, entries, at), last, at)
  {
    hide Placed;
    assert (entries + [last])[..|entries|] == entries;
  }

  lemma {:induction false} PlacedAllFilters<T>(list: seq<T>, entries: seq<T>, keep: T -> bool, at: T -> int)
    requires InTime(list, at)
    ensures Filter(PlacedAll(list, entries, at), keep) == PlacedAll(Filter(list, keep), Filter(entries, keep), at)
    decreases |entries|
  {
    hide Filter, Placed, InTime;
    if entries == [] {
      NoneFiltered(keep);
    } else {
      hide PlacedAll;
      var n := |entries| - 1;
      var front, last := entries[..n], entries[n];
      FrontAndLast(entries);
      PlacedAllUnfolds(list, front, last, at);
      PlacedAllIsSorted(list, front, at);
      PlacedAllFilters(list, front, keep, at);
      PlacedFilters(PlacedAll(list, front, at), last, keep, at);
      FilterSplits(entries, keep);
      PlacedAllUnfolds(Filter(list, keep), Filter(front, keep), last, at);
    }
  }

  lemma NoneFiltered<T>(keep: T -> bool)
    ensures Filter([], keep) == []
  {
  }

  // ---------------------------------------------------------------------
  // Reading a span
  // ---------------------------------------------------------------------

  method LowerBound<T>(list: seq<T>, t: int, at: T -> int) returns (low: nat)
    requires InTime(list, at)
    ensures low <= |list|
    ensures forall i | 0 <= i < low :: at(list[i]) < t
    ensures forall i | low <= i < |list| :: at(list[i]) >= t
  {
    low := 0;
    var high: nat := |list|;
    while low < high
      invariant low <= high <= |list|
      invariant forall i | 0 <= i < low :: at(list[i]) < t
      invariant forall i | high <= i < |list| :: at(list[i]) >= t
      decreases high - low
    {
      var middle := (low + high) / 2;
      if at(list[middle]) < t {
        low := middle + 1;
      } else {
        high := middle;
      }
    }
  }

  /** Where a selection is one stretch of the list. */
  lemma FilterIsStretch<T>(list: seq<T>, a: nat, b: nat, keep: T -> bool)
    requires a <= b <= |list|
    requires forall i | 0 <= i < |list| :: keep(list[i]) <==> a <= i < b
    ensures Filter(list, keep) == list[a..b]
  {
    hide Filter;
    var x, y, z := list[..a], list[a..b], list[b..];
    forall i | 0 <= i < |x|
      ensures !keep(x[i])
    {
      assert x[i] == list[i];
    }
    forall i | 0 <= i < |y|
      ensures keep(y[i])
    {
      assert y[i] == list[a + i];
    }
    forall i | 0 <= i < |z|
      ensures !keep(z[i])
    {
      assert z[i] == list[b + i];
    }
    FilterNone(x, keep);
    FilterAll(y, keep);
    FilterNone(z, keep);
    ThreeParts(list, a, b);
    FilterJoins(x, y + z, keep);
    FilterJoins(y, z, keep);
  }

  lemma ThreeParts<T>(list: seq<T>, a: nat, b: nat)
    requires a <= b <= |list|
    ensures list == list[..a] + (list[a..b] + list[b..])
  {
  }

  function InSpan<T>(first: int, end: int, at: T -> int): T -> bool {
    x => first <= at(x) < end
  }

  function Since<T>(cutoff: int, at: T -> int): T -> bool {
    x => at(x) >= cutoff
  }

  /** The entries inside `[first, end)`. */
  method Between<T>(list: seq<T>, first: int, end: int, at: T -> int) returns (r: seq<T>)
    requires InTime(list, at)
    ensures r == Filter(list, InSpan(first, end, at))
  {
    var a := LowerBound(list, first, at);
    var b := LowerBound(list, end, at);
    if a <= b {
      r := list[a..b];
      FilterIsStretch(list, a, b, InSpan(first, end, at));
    } else {
      r := [];
      FilterNone(list, InSpan(first, end, at));
    }
  }

  method DropBefore<T>(list: seq<T>, cutoff: int, at: T -> int) returns (r: seq<T>)
    requires InTime(list, at)
    ensures r == Filter(list, Since(cutoff, at))
  {
    var count := LowerBound(list, cutoff, at);
    r := list[count..];
    FilterIsStretch(list, count, |list|, Since(cutoff, at));
  }

  // ---------------------------------------------------------------------
  // Volume by the minute
  // ---------------------------------------------------------------------

  /** A dictionary of minutes, as the list of its entries. */
  type Minutes = seq<(int, int)>

  ghost predicate DistinctKeys(m: Minutes) {
    forall i, j | 0 <= i < j < |m| :: m[i].0 != m[j].0
  }

  function Get(m: Minutes, minute: int): int {
    if m == [] then 0 else if m[0].0 == minute then m[0].1 else Get(m[1..], minute)
  }

  function Add(m: Minutes, minute: int, value: int): Minutes {
    if m == [] then [(minute, value)]
    else if m[0].0 == minute then [(minute, m[0].1 + value)] + m[1..]
    else [m[0]] + Add(m[1..], minute, value)
  }

  predicate HasKey(m: Minutes, minute: int) {
    exists i | 0 <= i < |m| :: m[i].0 == minute
  }

  lemma {:induction false} AddKeys(m: Minutes, minute: int, value: int)
    ensures forall k :: HasKey(Add(m, minute, value), k) <==> HasKey(m, k) || k == minute
    ensures DistinctKeys(m) ==> DistinctKeys(Add(m, minute, value))
  {
    var r := Add(m, minute, value);
    if m == [] {
      assert r[0].0 == minute;
    } else if m[0].0 == minute {
      assert forall i | 0 <= i < |m| :: r[i].0 == m[i].0;
      assert r[0].0 == minute;
    } else {
      var tail := Add(m[1..], minute, value);
      AddKeys(m[1..], minute, value);
      assert r[1..] == tail;
      forall k
        ensures HasKey(r, k) <==> HasKey(m, k) || k == minute
      {
        HasKeySplits(r, k);
        HasKeySplits(m, k);
      }
      if DistinctKeys(m) {
        assert forall i, j | 0 <= i < j < |m| - 1 :: m[1..][i].0 != m[1..][j].0;
        assert !HasKey(m[1..], m[0].0);
        forall i, j | 0 <= i < j < |r|
          ensures r[i].0 != r[j].0
        {
          if i == 0 {
            assert r[j] == tail[j - 1];
            assert !HasKey(tail, m[0].0);
          } else {
            assert r[i] == tail[i - 1] && r[j] == tail[j - 1];
          }
        }
      }
    }
  }

  lemma HasKeySplits(m: Minutes, k: int)
    requires m != []
    ensures HasKey(m, k) <==> m[0].0 == k || HasKey(m[1..], k)
  {
    if HasKey(m, k) && m[0].0 != k {
      var i :| 0 <= i < |m| && m[i].0 == k;
      assert m[1..][i - 1].0 == k;
    }
    if HasKey(m[1..], k) {
      var i :| 0 <= i < |m| - 1 && m[1..][i].0 == k;
      assert m[i + 1].0 == k;
    }
  }

  lemma {:induction false} AddAdds(m: Minutes, minute: int, value: int, k: int)
    ensures Get(Add(m, minute, value), k) == Get(m, k) + if k == minute then value else 0
  {
    if m == [] {
      assert [(minute, value)][1..] == [];
    } else if m[0].0 != minute {
      AddAdds(m[1..], minute, value, k);
      assert Add(m, minute, value)[1..] == Add(m[1..], minute, value);
    } else {
      assert Add(m, minute, value)[1..] == m[1..];
    }
  }

  /** The minutes from `first` up to `end`, summed entry by entry. */
  ghost function VolumeIn(m: Minutes, first: int, end: int): int {
    SumBy(m, Counted(first, end))
  }

  ghost function Counted(first: int, end: int): ((int, int)) -> int {
    (e: (int, int)) => if first <= e.0 < end then e.1 else 0
  }

  lemma {:induction false} AddCounts(m: Minutes, minute: int, value: int, first: int, end: int)
    ensures VolumeIn(Add(m, minute, value), first, end) == VolumeIn(m, first, end) + if first <= minute < end then value else 0
  {
    if m == [] {
      assert [(minute, value)][1..] == [];
    } else if m[0].0 != minute {
      AddCounts(m[1..], minute, value, first, end);
      assert Add(m, minute, value)[1..] == Add(m[1..], minute, value);
    } else {
      assert Add(m, minute, value)[1..] == m[1..];
    }
  }

  /** The same minutes, summed one by one. */
  ghost function RangeSum(m: Minutes, first: int, end: int): int
    decreases end - first
  {
    if end <= first then 0 else RangeSum(m, first, end - 1) + Get(m, end - 1)
  }

  lemma {:induction false} GetAbsent(m: Minutes, k: int)
    requires !HasKey(m, k)
    ensures Get(m, k) == 0
  {
    if m != [] {
      HasKeySplits(m, k);
      GetAbsent(m[1..], k);
    }
  }

  lemma {:induction false} RangeOfOneMore(m: Minutes, first: int, end: int)
    requires m != [] && !HasKey(m[1..], m[0].0)
    ensures RangeSum(m, first, end) == RangeSum(m[1..], first, end) + if first <= m[0].0 < end then m[0].1 else 0
    decreases end - first
  {
    if first < end {
      RangeOfOneMore(m, first, end - 1);
      if m[0].0 == end - 1 {
        GetAbsent(m[1..], end - 1);
      }
    }
  }

  lemma {:induction false} RangeOfNone(first: int, end: int)
    ensures RangeSum([], first, end) == 0
    decreases end - first
  {
    if first < end {
      RangeOfNone(first, end - 1);
    }
  }

  lemma DistinctTail(m: Minutes)
    requires m != [] && DistinctKeys(m)
    ensures DistinctKeys(m[1..]) && !HasKey(m[1..], m[0].0)
  {
    assert forall i | 0 <= i < |m| - 1 :: m[1..][i] == m[i + 1];
  }

  /** Walking the span and walking the dictionary come to the same sum. */
  lemma {:induction false} RangeIsVolume(m: Minutes, first: int, end: int)
    requires DistinctKeys(m)
    ensures RangeSum(m, first, end) == VolumeIn(m, first, end)
  {
    if m == [] {
      RangeOfNone(first, end);
    } else {
      DistinctTail(m);
      RangeOfOneMore(m, first, end);
      RangeIsVolume(m[1..], first, end);
    }
  }

  lemma SumByLast<T>(s: seq<T>, i: nat, f: T -> int)
    requires i < |s|
    ensures SumBy(s[..i + 1], f) == SumBy(s[..i], f) + f(s[i])
  {
    assert s[..i + 1] == s[..i] + [s[i]];
    SumByJoins(s[..i], [s[i]], f);
    SumByOne(s[i], f);
  }

  method WalkEntries(m: Minutes, first: int, end: int) returns (total: int)
    ensures total == VolumeIn(m, first, end)
  {
    total := 0;
    for i := 0 to |m|
      invariant total == SumBy(m[..i], Counted(first, end))
    {
      SumByLast(m, i, Counted(first, end));
      if first <= m[i].0 < end {
        total := total + m[i].1;
      }
    }
    assert m[..|m|] == m;
  }

  /** Whichever is shorter is walked, the span or what is kept. */
  method VolumeBetween(m: Minutes, first: int, end: int) returns (total: int)
    requires DistinctKeys(m)
    ensures total == VolumeIn(m, first, end)
  {
    if end - first <= |m| {
      total := 0;
      var minute := first;
      while minute < end
        invariant first <= minute && (minute <= end || minute == first)
        invariant total == RangeSum(m, first, minute)
        decreases end - minute
      {
        total := total + Get(m, minute);
        minute := minute + 1;
      }
      RangeIsVolume(m, first, minute);
      if end < first {
        RangeIsVolume(m, first, end);
      }
    } else {
      total := WalkEntries(m, first, end);
    }
  }

  /** Rounding up to a whole minute. */
  function CeilMinute(t: int): int {
    -((-t) / MINUTE)
  }

  lemma CeilIs(t: int, minute: int)
    ensures minute < CeilMinute(t) <==> minute * MINUTE < t
  {
  }
}

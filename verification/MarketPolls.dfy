/**
 The polls a range of blocks is read in leave no trace: any split of it gives the
 market one read would have given, packages/chain/src/market-indexer.ts.
 */
module MarketPolls {
  import opened Counting
  import opened DexPrice
  import opened MarketIndexer
  import opened MarketReading
  import opened TimeSeries
  import opened Wrappers

  // ---------------------------------------------------------------------
  // Two reads in a row
  // ---------------------------------------------------------------------

  /** Dropping, placing more and dropping again is placing all and dropping once. */
  lemma DexJoins(list: seq<DexTrade>, a: seq<DexTrade>, b: seq<DexTrade>, early: int, late: int)
    requires InTime(list, TradeTime) && early <= late
    ensures Filter(PlacedAll(Filter(PlacedAll(list, a, TradeTime), Since(early, TradeTime)), b, TradeTime), Since(late, TradeTime))
            == Filter(PlacedAll(list, a + b, TradeTime), Since(late, TradeTime))
  {
    hide PlacedAll, Filter, InTime;
    var kept, last := Since(early, TradeTime), Since(late, TradeTime);
    var x := PlacedAll(list, a, TradeTime);
    PlacedAllIsSorted(list, a, TradeTime);
    FilterInTime(x, kept, TradeTime);
    PlacedAllFilters(Filter(x, kept), b, last, TradeTime);
    FilterAbsorbs(x, early, late, TradeTime);
    PlacedAllFilters(x, b, last, TradeTime);
    PlacedAllJoins(list, a, b, TradeTime);
  }

  lemma SplitParts<T>(a: seq<T>, b: seq<T>)
    ensures multiset(a + b) == multiset(a) + multiset(b)
  {
  }

  lemma PonsJoins(list: seq<PonsTrade>, mid: seq<PonsTrade>, a: seq<PonsTrade>, b: seq<PonsTrade>, early: int,
      late: int)
    requires early <= late && multiset(mid) == multiset(Filter(list + a, Since(early, PonsTime)))
    ensures multiset(Filter(mid + b, Since(late, PonsTime))) == multiset(Filter(list + (a + b), Since(late, PonsTime)))
  {
    hide Filter;
    var kept, last := Since(early, PonsTime), Since(late, PonsTime);
    FilterJoins(mid, b, last);
    FilterPermutes(mid, Filter(list + a, kept), last);
    FilterAbsorbs(list + a, early, late, PonsTime);
    FilterJoins(list + a, b, last);
    Regroup(list, a, b);
    SplitParts(Filter(mid, last), Filter(b, last));
    SplitParts(Filter(list + a, last), Filter(b, last));
  }

  lemma OldestGrows(env: Env, early: int, late: int)
    requires early <= late
    ensures OldestMinute(env, early) <= OldestMinute(env, late)
  {
  }

  lemma JoinFor(env: Env, launched: Launches, m: Market, s: Market, t: Market, a: seq<Log>, b: seq<Log>, k: Ticker,
      minute: int)
    requires Tidy(m) && s.covered <= t.covered
    requires ReadFor(env, launched, m, s, a, k, minute) && ReadFor(env, launched, s, t, b, k, minute)
    requires DexOf(s.usdgPools, k, a) == DexOf(t.usdgPools, k, a)
    requires PonsOf(env, s.usdgPools, s.ponsPools, launched, k, a) == PonsOf(env, t.usdgPools, t.ponsPools, launched, k, a)
    ensures ReadFor(env, launched, m, t, a + b, k, minute)
  {
    hide DexOf, PonsOf, PlacedAll, Filter, SumBy, Get, Tidy, InTime;
    TidyLists(m, k);
    TradesJoin(env, t.usdgPools, t.ponsPools, launched, k, a, b);
    var da, db := DexOf(t.usdgPools, k, a), DexOf(t.usdgPools, k, b);
    DexJoins(ListOf(m.dex, k), da, db, s.covered - env.tradeRetention, t.covered - env.tradeRetention);
    SumByJoins(da, db, MinutePart(env, minute));
    OldestGrows(env, s.covered, t.covered);
    PonsJoins(ListOf(m.pons, k), ListOf(s.pons, k),
              PonsOf(env, t.usdgPools, t.ponsPools, launched, k, a), PonsOf(env, t.usdgPools, t.ponsPools, launched, k, b),
              s.covered - env.ponsRetention, t.covered - env.ponsRetention);
  }

  lemma ReadAt(env: Env, launched: Launches, m: Market, s: Market, logs: seq<Log>, k: Ticker, minute: int)
    requires Reads(env, launched, m, s, logs)
    ensures ReadFor(env, launched, m, s, logs, k, minute)
  {
  }

  lemma IdsJoin(a: seq<Log>, b: seq<Log>)
    ensures Ids(a + b) == Ids(a) + Ids(b)
  {
  }

  lemma TidyOf(env: Env, launched: Launches, m: Market)
    requires Settled(env, launched, m)
    ensures Tidy(m)
  {
  }

  /** Reading some logs and then more is reading them all. */
  lemma ReadsJoin(env: Env, launched: Launches, m: Market, s: Market, t: Market, a: seq<Log>, b: seq<Log>)
    requires Settled(env, launched, m) && PoolsExist(a + b)
    requires Reads(env, launched, m, s, a) && Reads(env, launched, s, t, b)
    ensures Reads(env, launched, m, t, a + b)
  {
    PoolsJoin(env, m.usdgPools, m.ponsPools, a, b);
    IdsJoin(a, b);
    TidyOf(env, launched, m);
    hide Settled, ReadFor, UsdgAfter, PonsAfter, Ids, PoolsExist, DexOf, PonsOf, Tidy;
    forall k, minute
      ensures ReadFor(env, launched, m, t, a + b, k, minute)
    {
      ReadAt(env, launched, m, s, a, k, minute);
      ReadAt(env, launched, s, t, b, k, minute);
      EarlierTradesStay(env, m.usdgPools, m.ponsPools, launched, k, a, b);
      JoinFor(env, launched, m, s, t, a, b, k, minute);
    }
  }

  // ---------------------------------------------------------------------
  // Any number of polls
  // ---------------------------------------------------------------------

  ghost function LogsOf(bs: seq<Batch>): seq<Log>
    decreases |bs|
  {
    if bs == [] then [] else LogsOf(bs[..|bs| - 1]) + bs[|bs| - 1].logs
  }

  /** Consecutive ranges: blocks and times only go up, and every log lies within its range's end. */
  ghost predicate Consecutive(m: Market, bs: seq<Batch>) {
    && (forall i | 0 <= i < |bs| :: m.covered <= bs[i].toAt && Within(bs[i].logs, bs[i].to))
    && (forall i, j | 0 <= i < j < |bs| :: bs[i].to <= bs[j].to && bs[i].toAt <= bs[j].toAt)
  }

  /** What is asked of the chain: log ids of their own, and pools and curves that exist before they trade. */
  ghost predicate WellFormed(env: Env, launched: Launches, m: Market, logs: seq<Log>) {
    DistinctIds(logs) && Unseen(m.seen, logs) && PoolsExist(logs) && CurvesExist(env, launched, logs)
  }

  lemma FrontWellFormed(env: Env, launched: Launches, m: Market, a: seq<Log>, b: seq<Log>)
    requires WellFormed(env, launched, m, a + b)
    ensures WellFormed(env, launched, m, a) && CurvesExist(env, launched, b) && DistinctIds(b) && Unseen(m.seen + Ids(a), b)
  {
    var all := a + b;
    assert forall i | 0 <= i < |a| :: all[i] == a[i];
    assert forall i | 0 <= i < |b| :: all[|a| + i] == b[i];
    forall i | 0 <= i < |b|
      ensures b[i].id !in m.seen + Ids(a)
    {
      forall l | l in a
        ensures l.id != b[i].id
      {
        var j :| 0 <= j < |a| && a[j] == l;
        assert all[j].id != all[|a| + i].id;
      }
    }
  }

  lemma UnseenLess(seen: set<EventId>, more: set<EventId>, logs: seq<Log>)
    requires Unseen(more, logs) && seen <= more
    ensures Unseen(seen, logs)
  {
  }

  /** However many polls the logs came in, the state reads exactly those logs. */
  lemma {:induction false} PollsRead(env: Env, launched: Launches, m: Market, bs: seq<Batch>)
    requires bs != [] && Settled(env, launched, m) && Consecutive(m, bs) && WellFormed(env, launched, m, LogsOf(bs))
    ensures Reads(env, launched, m, PolledAll(env, m, bs), LogsOf(bs))
    ensures PolledAll(env, m, bs).covered == bs[|bs| - 1].toAt
    decreases |bs|
  {
    var n := |bs| - 1;
    var front, last := bs[..n], bs[n];
    assert Within(last.logs, last.to) && m.covered <= last.toAt;
    FrontWellFormed(env, launched, m, LogsOf(front), last.logs);
    if n == 0 {
      FirstPoll(env, launched, m, last);
      assert bs[..0] == [];
      hide Polled, Reads;
    } else {
      assert Consecutive(m, front);
      assert front[n - 1].toAt <= last.toAt;
      hide Consecutive, Polled, Settled, DistinctIds, Unseen, PoolsExist, CurvesExist, Within, Ids;
      PollsRead(env, launched, m, front);
      var s := PolledAll(env, m, front);
      UnseenLess(s.seen, m.seen + Ids(LogsOf(front)), last.logs);
      PollReads(env, launched, s, last);
      ReadsJoin(env, launched, m, s, Polled(env, s, last), LogsOf(front), last.logs);
    }
  }

  lemma FirstPoll(env: Env, launched: Launches, m: Market, b: Batch)
    requires Settled(env, launched, m) && WellFormed(env, launched, m, [] + b.logs) && Within(b.logs, b.to) && m.covered <= b.toAt
    ensures Reads(env, launched, m, Polled(env, m, b), [] + b.logs) && Polled(env, m, b).covered == b.toAt
  {
    assert [] + b.logs == b.logs;
    hide Polled, Reads;
    PollReads(env, launched, m, b);
  }

  lemma {:induction false} AllWithin(m: Market, bs: seq<Batch>, to: nat)
    requires forall i | 0 <= i < |bs| :: Within(bs[i].logs, bs[i].to) && bs[i].to <= to
    ensures Within(LogsOf(bs), to)
    decreases |bs|
  {
    if bs != [] {
      var n := |bs| - 1;
      AllWithin(m, bs[..n], to);
      assert Within(bs[n].logs, bs[n].to) && bs[n].to <= to;
    }
  }

  /** The same market, up to the order of Pons trades of one instant. */
  ghost predicate SameMarket(s: Market, t: Market) {
    && s.usdgPools == t.usdgPools && s.ponsPools == t.ponsPools && s.covered == t.covered && s.keepFrom == t.keepFrom
    && (forall k :: ListOf(s.dex, k) == ListOf(t.dex, k))
    && (forall k, minute :: Get(ListOf(s.volume, k), minute) == Get(ListOf(t.volume, k), minute))
    && (forall k :: InTime(ListOf(s.pons, k), PonsTime) && InTime(ListOf(t.pons, k), PonsTime)
                    && multiset(ListOf(s.pons, k)) == multiset(ListOf(t.pons, k)))
  }

  lemma SameReading(env: Env, launched: Launches, m: Market, s: Market, t: Market, logs: seq<Log>)
    requires Reads(env, launched, m, s, logs) && Reads(env, launched, m, t, logs) && s.covered == t.covered
    ensures SameMarket(s, t)
  {
    hide DexOf, PonsOf, PlacedAll, Filter, SumBy, Get, InTime, UsdgAfter, PonsAfter, Ids, ReadFor, Truthful, Tidy, DistinctKeys;
    TidyOf(env, launched, s);
    TidyOf(env, launched, t);
    forall k, minute
      ensures Get(ListOf(s.volume, k), minute) == Get(ListOf(t.volume, k), minute)
    {
      SameFor(env, launched, m, s, t, logs, k, minute);
    }
    forall k
      ensures ListOf(s.dex, k) == ListOf(t.dex, k)
      ensures InTime(ListOf(s.pons, k), PonsTime) && InTime(ListOf(t.pons, k), PonsTime) && multiset(ListOf(s.pons, k)) == multiset(ListOf(t.pons, k))
    {
      SameFor(env, launched, m, s, t, logs, k, 0);
      TidyLists(s, k);
      TidyLists(t, k);
    }
  }

  lemma SameFor(env: Env, launched: Launches, m: Market, s: Market, t: Market, logs: seq<Log>, k: Ticker, minute: int)
    requires Reads(env, launched, m, s, logs) && Reads(env, launched, m, t, logs) && s.covered == t.covered
    ensures ListOf(s.dex, k) == ListOf(t.dex, k) && Get(ListOf(s.volume, k), minute) == Get(ListOf(t.volume, k), minute)
    ensures multiset(ListOf(s.pons, k)) == multiset(ListOf(t.pons, k))
  {
    hide DexOf, PonsOf, PlacedAll, Filter, SumBy, Get, Settled, UsdgAfter, PonsAfter, Ids;
    ReadAt(env, launched, m, s, logs, k, minute);
    ReadAt(env, launched, m, t, logs, k, minute);
  }

  /**
   Splitting a range of blocks into any sequence of polls leaves the market that
   reading it at once would have left: the same pools, the same trades in the same
   order, the same volume in every minute, the same Pons trades in time order.
  */
  lemma SplitsAgree(env: Env, launched: Launches, m: Market, bs: seq<Batch>)
    requires bs != [] && Settled(env, launched, m) && Consecutive(m, bs) && WellFormed(env, launched, m, LogsOf(bs))
    ensures var last := bs[|bs| - 1];
            SameMarket(PolledAll(env, m, bs), Polled(env, m, Batch(LogsOf(bs), last.to, last.toAt)))
  {
    var last := bs[|bs| - 1];
    var all := LogsOf(bs);
    var whole := Batch(all, last.to, last.toAt);
    assert forall i | 0 <= i < |bs| :: Within(bs[i].logs, bs[i].to) && bs[i].to <= last.to && m.covered <= bs[i].toAt;
    AllWithin(m, bs, last.to);
    PollsRead(env, launched, m, bs);
    hide PolledAll, Polled, Settled, Consecutive, Reads, SameMarket, LogsOf, PoolsExist;
    PollReads(env, launched, m, whole);
    SameReading(env, launched, m, PolledAll(env, m, bs), Polled(env, m, whole), all);
  }

  // ---------------------------------------------------------------------
  // Volume is a filter and a sum
  // ---------------------------------------------------------------------

  ghost function CountedIn(env: Env, first: int, end: int): DexTrade -> int {
    (t: DexTrade) => if t.quoteAmount >= env.minTradeQuote && first <= t.at / MINUTE < end then t.quoteAmount else 0
  }

  lemma {:induction false} OneMoreMinute(env: Env, trades: seq<DexTrade>, first: int, end: int)
    requires first < end
    ensures SumBy(trades, CountedIn(env, first, end)) == SumBy(trades, CountedIn(env, first, end - 1)) + SumBy(trades, MinutePart(env, end - 1))
  {
    if trades != [] {
      OneMoreMinute(env, trades[1..], first, end);
    }
  }

  lemma {:induction false} NoMinutes(env: Env, trades: seq<DexTrade>, first: int, end: int)
    requires end <= first
    ensures SumBy(trades, CountedIn(env, first, end)) == 0
  {
    if trades != [] {
      NoMinutes(env, trades[1..], first, end);
    }
  }

  lemma {:induction false} RangeOfTrades(env: Env, s: Minutes, m: Minutes, trades: seq<DexTrade>, first: int, end: int)
    requires forall minute | first <= minute :: Get(s, minute) == Get(m, minute) + SumBy(trades, MinutePart(env, minute))
    ensures RangeSum(s, first, end) == RangeSum(m, first, end) + SumBy(trades, CountedIn(env, first, end))
    decreases end - first
  {
    if end <= first {
      NoMinutes(env, trades, first, end);
    } else {
      RangeOfTrades(env, s, m, trades, first, end - 1);
      OneMoreMinute(env, trades, first, end);
      assert Get(s, end - 1) == Get(m, end - 1) + SumBy(trades, MinutePart(env, end - 1));
    }
  }

  /** Within the retention, volume is what was kept before plus a plain filter and sum over the trades read since. */
  lemma VolumeIsSum(env: Env, launched: Launches, m: Market, s: Market, logs: seq<Log>, k: Ticker, first: int, end: int)
    requires Settled(env, launched, m) && Reads(env, launched, m, s, logs) && OldestMinute(env, s.covered) <= first
    ensures VolumeIn(ListOf(s.volume, k), first, end)
            == VolumeIn(ListOf(m.volume, k), first, end) + SumBy(DexOf(s.usdgPools, k, logs), CountedIn(env, first, end))
  {
    var d := DexOf(s.usdgPools, k, logs);
    hide DexOf, PonsOf, PlacedAll, Filter, SumBy, Get, InTime, UsdgAfter, PonsAfter, Ids, Truthful, Tidy, DistinctKeys, VolumeIn, RangeSum;
    forall minute | first <= minute
      ensures Get(ListOf(s.volume, k), minute) == Get(ListOf(m.volume, k), minute) + SumBy(d, MinutePart(env, minute))
    {
      ReadAt(env, launched, m, s, logs, k, minute);
    }
    TidyLists(m, k);
    TidyLists(s, k);
    RangeOfTrades(env, ListOf(s.volume, k), ListOf(m.volume, k), d, first, end);
    RangeIsVolume(ListOf(s.volume, k), first, end);
    RangeIsVolume(ListOf(m.volume, k), first, end);
  }
}

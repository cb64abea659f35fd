/**
 What the indexer's state says of the logs it has read, and why the polls they came
 in do not matter: packages/chain/src/market-indexer.ts.

 The market is read off the logs list by list: the pools they create, the trades they
 stand for given those pools, the minutes those trades add to, and the curves the
 factory launched.
 */
module MarketReading {
  import opened Counting
  import opened DexPrice
  import opened MarketIndexer
  import opened TimeSeries
  import opened Wrappers

  // ---------------------------------------------------------------------
  // The market as plain lists over the logs
  // ---------------------------------------------------------------------

  ghost function UsdgAfter(env: Env, pools: map<PoolId, Side>, logs: seq<Log>): map<PoolId, Side>
    decreases |logs|
  {
    if logs == [] then pools
    else
      var n := |logs| - 1;
      UsdgWith(env, UsdgAfter(env, pools, logs[..n]), logs[n].event)
  }

  ghost function PonsAfter(env: Env, pools: map<PoolId, Side>, logs: seq<Log>): map<PoolId, Side>
    decreases |logs|
  {
    if logs == [] then pools
    else
      var n := |logs| - 1;
      PonsWith(env, PonsAfter(env, pools, logs[..n]), logs[n].event)
  }

  /** The dollar trade of a ticker a log stands for, given the pools. */
  ghost function DexFrom(pools: map<PoolId, Side>, k: Ticker, log: Log): seq<DexTrade> {
    if log.event.Swap? && log.event.pool in pools && pools[log.event.pool].ticker == k && TokenAmount(pools[log.event.pool], log.event) > 0
    then [DexTradeOf(pools[log.event.pool], log)] else []
  }

  ghost function DexOf(pools: map<PoolId, Side>, k: Ticker, logs: seq<Log>): seq<DexTrade>
    decreases |logs|
  {
    if logs == [] then []
    else
      var n := |logs| - 1;
      DexOf(pools, k, logs[..n]) + DexFrom(pools, k, logs[n])
  }

  /** The factory's last word on a curve. */
  type Launches = Address -> Option<Ticker>

  ghost function PonsFrom(env: Env, usdg: map<PoolId, Side>, pons: map<PoolId, Side>, launched: Launches, k: Ticker,
      log: Log): seq<PonsTrade> {
    match log.event
    case Swap(pool, _, _) =>
      if pool !in usdg && pool in pons && pons[pool].ticker == k then [PonsSwapOf(env, pons[pool], log)] else []
    case CurveTrade(curve, _, _) => if launched(curve) == Some(k) then [CurveTradeOf(env, log)] else []
    case _ => []
  }

  ghost function PonsOf(env: Env, usdg: map<PoolId, Side>, pons: map<PoolId, Side>, launched: Launches, k: Ticker,
      logs: seq<Log>): seq<PonsTrade>
    decreases |logs|
  {
    if logs == [] then []
    else
      var n := |logs| - 1;
      PonsOf(env, usdg, pons, launched, k, logs[..n]) + PonsFrom(env, usdg, pons, launched, k, logs[n])
  }

  /** A trade's part of one minute's volume. */
  ghost function MinutePart(env: Env, minute: int): DexTrade -> int {
    (t: DexTrade) => if t.quoteAmount >= env.minTradeQuote && t.at / MINUTE == minute then t.quoteAmount else 0
  }

  // ---------------------------------------------------------------------
  // Applying logs that create nothing
  // ---------------------------------------------------------------------

  ghost predicate DistinctIds(logs: seq<Log>) {
    forall i, j | 0 <= i < j < |logs| :: logs[i].id != logs[j].id
  }

  ghost predicate Unseen(seen: set<EventId>, logs: seq<Log>) {
    forall i | 0 <= i < |logs| :: logs[i].id !in seen
  }

  ghost function Ids(logs: seq<Log>): set<EventId> {
    set l | l in logs :: l.id
  }

  /** The curve trades a state cannot place yet. */
  ghost function Waiting(m: Market, logs: seq<Log>): seq<Log>
    decreases |logs|
  {
    if logs == [] then []
    else
      var n := |logs| - 1;
      var e := logs[n].event;
      Waiting(m, logs[..n]) + if e.CurveTrade? && e.curve !in m.curves && e.curve !in m.notCurves then [logs[n]] else []
  }

  /** A state whose curves are known by `curves`, for placing trades at once. */
  ghost function KnownLaunches(m: Market): Launches {
    (c: Address) => if c in m.curves then Some(m.curves[c]) else None
  }

  ghost predicate SamePlaces(m: Market, s: Market) {
    && s.usdgPools == m.usdgPools && s.ponsPools == m.ponsPools && s.curves == m.curves && s.notCurves == m.notCurves
    && s.keepFrom == m.keepFrom && s.covered == m.covered
  }

  /** What logs that create nothing add to a state. */
  ghost predicate Added(env: Env, m: Market, s: Market, logs: seq<Log>) {
    && SamePlaces(m, s)
    && (forall k :: ListOf(s.dex, k) == PlacedAll(ListOf(m.dex, k), Filter(DexOf(m.usdgPools, k, logs), Since(m.keepFrom, TradeTime)), TradeTime))
    && (forall k, minute :: Get(ListOf(s.volume, k), minute) == Get(ListOf(m.volume, k), minute) + SumBy(DexOf(m.usdgPools, k, logs), MinutePart(env, minute)))
    && (forall k :: ListOf(s.pons, k) == PlacedAll(ListOf(m.pons, k), PonsOf(env, m.usdgPools, m.ponsPools, KnownLaunches(m), k, logs), PonsTime))
    && (forall k :: DistinctKeys(ListOf(m.volume, k)) ==> DistinctKeys(ListOf(s.volume, k)))
  }

  // One log's part, list by list

  lemma WithDexLists(env: Env, m: Market, ticker: Ticker, t: DexTrade, k: Ticker)
    ensures var s := WithDex(env, m, ticker, t);
            && ListOf(s.dex, k) == (if k == ticker && t.at >= m.keepFrom then Placed(ListOf(m.dex, k), t, TradeTime) else ListOf(m.dex, k))
            && ListOf(s.volume, k) == (if k == ticker && t.quoteAmount >= env.minTradeQuote
                                       then Add(ListOf(m.volume, k), t.at / MINUTE, t.quoteAmount) else ListOf(m.volume, k))
            && s.pons == m.pons && SamePlaces(m, s) && s.seen == m.seen && s.pending == m.pending
  {
    hide Placed, Add;
  }

  lemma WithPonsLists(m: Market, ticker: Ticker, t: PonsTrade, k: Ticker)
    ensures var s := WithPons(m, ticker, t);
            && ListOf(s.pons, k) == (if k == ticker then Placed(ListOf(m.pons, k), t, PonsTime) else ListOf(m.pons, k))
            && s.dex == m.dex && s.volume == m.volume && SamePlaces(m, s) && s.seen == m.seen && s.pending == m.pending
  {
    hide Placed;
  }

  /** What recording a log that creates nothing does: a dollar trade, a Pons trade, a trade left waiting, or nothing. */
  lemma Recorded(env: Env, m: Market, log: Log)
    requires CreatesNothing(log)
    ensures var s := RecordIn(env, m, log);
            match log.event
            case Swap(pool, _, _) =>
              if pool in m.usdgPools then
                s == if TokenAmount(m.usdgPools[pool], log.event) > 0 then WithDex(env, m, m.usdgPools[pool].ticker, DexTradeOf(m.usdgPools[pool], log)) else m
              else if pool in m.ponsPools then s == WithPons(m, m.ponsPools[pool].ticker, PonsSwapOf(env, m.ponsPools[pool], log))
              else s == m
            case CurveTrade(curve, _, _) =>
              if curve in m.curves then s == WithPons(m, m.curves[curve], CurveTradeOf(env, log))
              else s == if curve !in m.notCurves then m.(pending := m.pending + [log]) else m
            case _ => s == m
  {
    hide WithDex, WithPons;
  }

  lemma RecordDex(env: Env, m: Market, log: Log, k: Ticker)
    requires CreatesNothing(log)
    ensures var d := DexFrom(m.usdgPools, k, log);
            ListOf(RecordIn(env, m, log).dex, k)
            == if d != [] && d[0].at >= m.keepFrom then Placed(ListOf(m.dex, k), d[0], TradeTime) else ListOf(m.dex, k)
  {
    hide Placed, RecordIn, WithDex, WithPons, TokenAmount, QuoteAmount;
    Recorded(env, m, log);
    TouchLists(env, m, log, k);
  }

  /** The lists of `k` after the trade a log stands for. */
  lemma TouchLists(env: Env, m: Market, log: Log, k: Ticker)
    ensures log.event.Swap? && log.event.pool in m.usdgPools ==>
              var side := m.usdgPools[log.event.pool];
              var t := DexTradeOf(side, log);
              var s := WithDex(env, m, side.ticker, t);
              && ListOf(s.dex, k) == (if k == side.ticker && t.at >= m.keepFrom then Placed(ListOf(m.dex, k), t, TradeTime) else ListOf(m.dex, k))
              && ListOf(s.volume, k) == (if k == side.ticker && t.quoteAmount >= env.minTradeQuote
                                         then Add(ListOf(m.volume, k), t.at / MINUTE, t.quoteAmount) else ListOf(m.volume, k))
              && s.pons == m.pons && SamePlaces(m, s) && s.seen == m.seen && s.pending == m.pending
    ensures log.event.Swap? && log.event.pool in m.ponsPools ==>
              var side := m.ponsPools[log.event.pool];
              var t := PonsSwapOf(env, side, log);
              var s := WithPons(m, side.ticker, t);
              && ListOf(s.pons, k) == (if k == side.ticker then Placed(ListOf(m.pons, k), t, PonsTime) else ListOf(m.pons, k))
              && s.dex == m.dex && s.volume == m.volume && SamePlaces(m, s) && s.seen == m.seen && s.pending == m.pending
    ensures log.event.CurveTrade? && log.event.curve in m.curves ==>
              var t := CurveTradeOf(env, log);
              var s := WithPons(m, m.curves[log.event.curve], t);
              && ListOf(s.pons, k) == (if k == m.curves[log.event.curve] then Placed(ListOf(m.pons, k), t, PonsTime) else ListOf(m.pons, k))
              && s.dex == m.dex && s.volume == m.volume && SamePlaces(m, s) && s.seen == m.seen && s.pending == m.pending
  {
    hide WithDex, WithPons, SamePlaces, Placed, Add, TokenAmount, QuoteAmount;
    if log.event.Swap? {
      if log.event.pool in m.usdgPools {
        var side := m.usdgPools[log.event.pool];
        WithDexLists(env, m, side.ticker, DexTradeOf(side, log), k);
      }
      if log.event.pool in m.ponsPools {
        var side := m.ponsPools[log.event.pool];
        WithPonsLists(m, side.ticker, PonsSwapOf(env, side, log), k);
      }
    } else if log.event.CurveTrade? && log.event.curve in m.curves {
      WithPonsLists(m, m.curves[log.event.curve], CurveTradeOf(env, log), k);
    }
  }

  lemma RecordVolume(env: Env, m: Market, log: Log, k: Ticker, minute: int)
    requires CreatesNothing(log)
    ensures Get(ListOf(RecordIn(env, m, log).volume, k), minute)
            == Get(ListOf(m.volume, k), minute) + SumBy(DexFrom(m.usdgPools, k, log), MinutePart(env, minute))
    ensures DistinctKeys(ListOf(m.volume, k)) ==> DistinctKeys(ListOf(RecordIn(env, m, log).volume, k))
  {
    hide Placed, Add, Get, DistinctKeys, RecordIn, WithDex, WithPons, TokenAmount, QuoteAmount;
    Recorded(env, m, log);
    TouchLists(env, m, log, k);
    var d := DexFrom(m.usdgPools, k, log);
    if d != [] {
      SumByOne(d[0], MinutePart(env, minute));
      AddAdds(ListOf(m.volume, k), d[0].at / MINUTE, d[0].quoteAmount, minute);
      AddKeys(ListOf(m.volume, k), d[0].at / MINUTE, d[0].quoteAmount);
    }
  }

  lemma RecordPons(env: Env, m: Market, log: Log, k: Ticker)
    requires CreatesNothing(log)
    ensures var d := PonsFrom(env, m.usdgPools, m.ponsPools, KnownLaunches(m), k, log);
            ListOf(RecordIn(env, m, log).pons, k)
            == if d != [] then Placed(ListOf(m.pons, k), d[0], PonsTime) else ListOf(m.pons, k)
  {
    hide Placed, RecordIn, WithDex, WithPons, TokenAmount, QuoteAmount;
    Recorded(env, m, log);
    TouchLists(env, m, log, k);
  }

  lemma RecordPlaces(env: Env, m: Market, log: Log)
    requires CreatesNothing(log)
    ensures SamePlaces(m, RecordIn(env, m, log))
    ensures RecordIn(env, m, log).seen == m.seen
    ensures var e := log.event;
            RecordIn(env, m, log).pending
            == m.pending + if e.CurveTrade? && e.curve !in m.curves && e.curve !in m.notCurves then [log] else []
  {
    hide Placed, RecordIn, WithDex, WithPons, TokenAmount, QuoteAmount, DexTradeOf, PonsSwapOf, CurveTradeOf, Add, SamePlaces;
    SamePlacesItself(m);
    Recorded(env, m, log);
    TouchLists(env, m, log, 0);
  }

  lemma RecordKeepsSeen(env: Env, m: Market, log: Log)
    ensures RecordIn(env, m, log).seen == m.seen
  {
    if CreatesNothing(log) {
      RecordPlaces(env, m, log);
      hide RecordIn;
    } else {
      hide UsdgWith, PonsWith, WithDex, WithPons, DexTradeOf, PonsSwapOf, CurveTradeOf, TokenAmount;
    }
  }

  /** Once logs were applied, their ids are known. */
  lemma {:induction false} AppliedIsSeen(env: Env, m: Market, logs: seq<Log>, log: Log)
    ensures m.seen <= ApplyAll(env, m, logs).seen
    ensures log in logs ==> log.event.Foreign? || log.id in ApplyAll(env, m, logs).seen
    decreases |logs|
  {
    hide RecordIn;
    if logs != [] {
      var n := |logs| - 1;
      AppliedIsSeen(env, m, logs[..n], log);
      var s := ApplyAll(env, m, logs[..n]);
      RecordKeepsSeen(env, s.(seen := s.seen + {logs[n].id}), logs[n]);
      FrontAndLast(logs);
    }
  }

  /** Logs applied before are applied again without effect, in any order and any number of times. */
  lemma {:induction false} ReadingAgainChangesNothing(env: Env, m: Market, logs: seq<Log>, again: seq<Log>)
    requires forall log | log in again :: log in logs
    ensures ApplyAll(env, ApplyAll(env, m, logs), again) == ApplyAll(env, m, logs)
    decreases |again|
  {
    if again != [] {
      var n := |again| - 1;
      assert again[n] in again && forall log | log in again[..n] :: log in again;
      ReadingAgainChangesNothing(env, m, logs, again[..n]);
      AppliedIsSeen(env, m, logs, again[n]);
      var s := ApplyAll(env, m, logs);
      hide RecordIn;
      assert ApplyIn(env, s, again[n]) == s;
      hide ApplyIn;
    }
  }

  lemma SamePlacesItself(m: Market)
    ensures SamePlaces(m, m) && forall p :: SamePlaces(m, m.(pending := p))
  {
  }

  // Many logs

  lemma OneMoreDex(list: seq<DexTrade>, d: seq<DexTrade>, more: seq<DexTrade>, from: int)
    requires |more| <= 1
    ensures var keep := Since(from, TradeTime);
            PlacedAll(list, Filter(d + more, keep), TradeTime)
            == if more != [] && more[0].at >= from then Placed(PlacedAll(list, Filter(d, keep), TradeTime), more[0], TradeTime)
               else PlacedAll(list, Filter(d, keep), TradeTime)
  {
    var keep := Since(from, TradeTime);
    if more == [] {
      assert d + more == d;
    } else {
      assert more == [more[0]] && TradeTime(more[0]) == more[0].at;
      hide Filter, PlacedAll, Placed;
      FilterAppends(d, more[0], keep);
      PlacedAllUnfolds(list, Filter(d, keep), more[0], TradeTime);
    }
  }

  lemma OneMorePons(list: seq<PonsTrade>, d: seq<PonsTrade>, more: seq<PonsTrade>)
    requires |more| <= 1
    ensures PlacedAll(list, d + more, PonsTime)
            == if more != [] then Placed(PlacedAll(list, d, PonsTime), more[0], PonsTime) else PlacedAll(list, d, PonsTime)
  {
    if more == [] {
      assert d + more == d;
    } else {
      assert more == [more[0]];
      hide PlacedAll, Placed;
      PlacedAllUnfolds(list, d, more[0], PonsTime);
    }
  }

  lemma Unfolds(env: Env, m: Market, logs: seq<Log>, log: Log, k: Ticker, launched: Launches)
    ensures DexOf(m.usdgPools, k, logs + [log]) == DexOf(m.usdgPools, k, logs) + DexFrom(m.usdgPools, k, log)
    ensures PonsOf(env, m.usdgPools, m.ponsPools, launched, k, logs + [log])
            == PonsOf(env, m.usdgPools, m.ponsPools, launched, k, logs) + PonsFrom(env, m.usdgPools, m.ponsPools, launched, k, log)
  {
    assert (logs + [log])[..|logs|] == logs;
  }

  lemma AddedOneMore(env: Env, m: Market, before: Market, logs: seq<Log>, log: Log)
    requires Added(env, m, before, logs) && CreatesNothing(log)
    ensures Added(env, m, RecordIn(env, before, log), logs + [log])
  {
    var s := RecordIn(env, before, log);
    RecordPlaces(env, before, log);
    assert KnownLaunches(before) == KnownLaunches(m);
    forall k
      ensures ListOf(s.dex, k) == PlacedAll(ListOf(m.dex, k), Filter(DexOf(m.usdgPools, k, logs + [log]), Since(m.keepFrom, TradeTime)), TradeTime)
      ensures ListOf(s.pons, k) == PlacedAll(ListOf(m.pons, k), PonsOf(env, m.usdgPools, m.ponsPools, KnownLaunches(m), k, logs + [log]), PonsTime)
      ensures forall minute :: Get(ListOf(s.volume, k), minute) == Get(ListOf(m.volume, k), minute) + SumBy(DexOf(m.usdgPools, k, logs + [log]), MinutePart(env, minute))
      ensures DistinctKeys(ListOf(m.volume, k)) ==> DistinctKeys(ListOf(s.volume, k))
    {
      AddedDexMore(env, m, before, logs, log, k);
      AddedPonsMore(env, m, before, logs, log, k);
      forall minute
        ensures Get(ListOf(s.volume, k), minute) == Get(ListOf(m.volume, k), minute) + SumBy(DexOf(m.usdgPools, k, logs + [log]), MinutePart(env, minute))
      {
        AddedVolumeMore(env, m, before, logs, log, k, minute);
      }
      RecordVolume(env, before, log, k, 0);
    }
    hide RecordIn, DexOf, PonsOf, PlacedAll, Filter, SumBy, Get, DistinctKeys;
  }

  lemma AddedDexMore(env: Env, m: Market, before: Market, logs: seq<Log>, log: Log, k: Ticker)
    requires Added(env, m, before, logs) && CreatesNothing(log)
    ensures ListOf(RecordIn(env, before, log).dex, k)
            == PlacedAll(ListOf(m.dex, k), Filter(DexOf(m.usdgPools, k, logs + [log]), Since(m.keepFrom, TradeTime)), TradeTime)
  {
    assert ListOf(before.dex, k) == PlacedAll(ListOf(m.dex, k), Filter(DexOf(m.usdgPools, k, logs), Since(m.keepFrom, TradeTime)), TradeTime);
    hide RecordIn, DexOf, PonsOf, PlacedAll, Placed, Filter, DexFrom;
    RecordDex(env, before, log, k);
    Unfolds(env, m, logs, log, k, KnownLaunches(m));
    AtMostOne(m.usdgPools, k, log);
    OneMoreDex(ListOf(m.dex, k), DexOf(m.usdgPools, k, logs), DexFrom(m.usdgPools, k, log), m.keepFrom);
  }

  lemma AtMostOne(pools: map<PoolId, Side>, k: Ticker, log: Log)
    ensures |DexFrom(pools, k, log)| <= 1
  {
  }

  lemma AddedPonsMore(env: Env, m: Market, before: Market, logs: seq<Log>, log: Log, k: Ticker)
    requires Added(env, m, before, logs) && CreatesNothing(log)
    ensures ListOf(RecordIn(env, before, log).pons, k)
            == PlacedAll(ListOf(m.pons, k), PonsOf(env, m.usdgPools, m.ponsPools, KnownLaunches(m), k, logs + [log]), PonsTime)
  {
    hide RecordIn, DexOf, PonsOf, PlacedAll, Placed, Filter, PonsFrom;
    assert KnownLaunches(before) == KnownLaunches(m);
    RecordPons(env, before, log, k);
    Unfolds(env, m, logs, log, k, KnownLaunches(m));
    AtMostOnePons(env, m.usdgPools, m.ponsPools, KnownLaunches(m), k, log);
    OneMorePons(ListOf(m.pons, k), PonsOf(env, m.usdgPools, m.ponsPools, KnownLaunches(m), k, logs), PonsFrom(env, m.usdgPools, m.ponsPools, KnownLaunches(m), k, log));
  }

  lemma AtMostOnePons(env: Env, usdg: map<PoolId, Side>, pons: map<PoolId, Side>, launched: Launches, k: Ticker,
      log: Log)
    ensures |PonsFrom(env, usdg, pons, launched, k, log)| <= 1
  {
  }

  lemma AddedVolumeMore(env: Env, m: Market, before: Market, logs: seq<Log>, log: Log, k: Ticker, minute: int)
    requires Added(env, m, before, logs) && CreatesNothing(log)
    ensures Get(ListOf(RecordIn(env, before, log).volume, k), minute)
            == Get(ListOf(m.volume, k), minute) + SumBy(DexOf(m.usdgPools, k, logs + [log]), MinutePart(env, minute))
  {
    RecordVolume(env, before, log, k, minute);
    Unfolds(env, m, logs, log, k, KnownLaunches(m));
    SumByJoins(DexOf(m.usdgPools, k, logs), DexFrom(m.usdgPools, k, log), MinutePart(env, minute));
    hide RecordIn, DexOf, PonsOf, PlacedAll, Placed, Filter, SumBy, Get;
  }

  lemma AddedNothing(env: Env, m: Market)
    ensures Added(env, m, m, [])
  {
  }

  lemma AddedWhateverSeen(env: Env, m: Market, s: Market, logs: seq<Log>, seen: set<EventId>)
    requires Added(env, m, s, logs)
    ensures Added(env, m, s.(seen := seen), logs)
  {
    hide DexOf, PonsOf, PlacedAll, Filter, SumBy, Get, DistinctKeys;
  }

  ghost predicate AllCreateNothing(logs: seq<Log>) {
    forall i | 0 <= i < |logs| :: CreatesNothing(logs[i])
  }

  lemma ForeignAddsNothing(env: Env, m: Market, s: Market, logs: seq<Log>, log: Log)
    requires Added(env, m, s, logs) && log.event.Foreign?
    ensures Added(env, m, s, logs + [log])
  {
    assert RecordIn(env, s, log) == s;
    AddedOneMore(env, m, s, logs, log);
  }

  lemma ApplyUnfolds(env: Env, m: Market, logs: seq<Log>, log: Log)
    ensures ApplyAll(env, m, logs + [log]) == ApplyIn(env, ApplyAll(env, m, logs), log)
  {
    hide ApplyIn;
    assert (logs + [log])[..|logs|] == logs;
  }

  lemma FrontOf(logs: seq<Log>, seen: set<EventId>)
    requires logs != [] && DistinctIds(logs) && Unseen(seen, logs)
    ensures var n := |logs| - 1;
            && DistinctIds(logs[..n]) && Unseen(seen, logs[..n]) && logs[n].id !in seen && logs[n].id !in Ids(logs[..n])
            && Ids(logs) == Ids(logs[..n]) + {logs[n].id}
  {
    var n := |logs| - 1;
    assert forall i | 0 <= i < n :: logs[..n][i] == logs[i];
    FrontAndLast(logs);
  }

  /** Logs that create nothing, none seen before, are each recorded; curves not known yet are left waiting. */
  lemma {:induction false} ApplyOthers(env: Env, m: Market, logs: seq<Log>)
    requires AllCreateNothing(logs) && DistinctIds(logs) && Unseen(m.seen, logs)
    ensures var s := ApplyAll(env, m, logs);
            Added(env, m, s, logs) && s.seen <= m.seen + Ids(logs) && s.pending == m.pending + Waiting(m, logs)
    decreases |logs|
  {
    if logs == [] {
      AddedNothing(env, m);
      assert m.pending + Waiting(m, logs) == m.pending;
    } else {
      var n := |logs| - 1;
      var front, log := logs[..n], logs[n];
      assert CreatesNothing(log) && AllCreateNothing(front);
      hide ApplyAll, ApplyIn, Added, DistinctIds, Unseen, Ids, Waiting, AllCreateNothing, Creates;
      FrontOf(logs, m.seen);
      ApplyOthers(env, m, front);
      FrontAndLast(logs);
      ApplyUnfolds(env, m, front, log);
      ApplyOne(env, m, ApplyAll(env, m, front), front, log);
      WaitingMore(m, front, log);
    }
  }

  lemma WaitingMore(m: Market, logs: seq<Log>, log: Log)
    ensures var e := log.event;
            Waiting(m, logs + [log]) == Waiting(m, logs) + if e.CurveTrade? && e.curve !in m.curves && e.curve !in m.notCurves then [log] else []
  {
    assert (logs + [log])[..|logs|] == logs;
  }

  lemma ApplyOne(env: Env, m: Market, before: Market, logs: seq<Log>, log: Log)
    requires Added(env, m, before, logs) && CreatesNothing(log) && log.id !in before.seen
    ensures var s := ApplyIn(env, before, log);
            && Added(env, m, s, logs + [log]) && s.seen <= before.seen + {log.id}
            && s.pending == before.pending
               + if log.event.CurveTrade? && log.event.curve !in m.curves && log.event.curve !in m.notCurves then [log] else []
  {
    if log.event.Foreign? {
      ForeignAddsNothing(env, m, before, logs, log);
    } else {
      var noted := before.(seen := before.seen + {log.id});
      AddedWhateverSeen(env, m, before, logs, before.seen + {log.id});
      AddedOneMore(env, m, noted, logs, log);
      RecordPlaces(env, noted, log);
      assert SamePlaces(m, noted);
    }
    hide RecordIn, Added;
  }

  lemma {:induction false} ApplyCreates(env: Env, m: Market, logs: seq<Log>)
    requires (forall i | 0 <= i < |logs| :: Creates(logs[i])) && DistinctIds(logs) && Unseen(m.seen, logs)
    ensures ApplyAll(env, m, logs)
            == m.(usdgPools := UsdgAfter(env, m.usdgPools, logs), ponsPools := PonsAfter(env, m.ponsPools, logs), seen := m.seen + Ids(logs))
    decreases |logs|
  {
    if logs == [] {
      assert m.seen + Ids(logs) == m.seen;
    } else {
      var n := |logs| - 1;
      ApplyCreates(env, m, logs[..n]);
      assert logs[n].id !in m.seen + Ids(logs[..n]);
      assert m.seen + Ids(logs[..n]) + {logs[n].id} == m.seen + Ids(logs);
    }
  }

  // ---------------------------------------------------------------------
  // The whole range through its two halves
  // ---------------------------------------------------------------------

  lemma PoolsMore(env: Env, usdg: map<PoolId, Side>, pons: map<PoolId, Side>, logs: seq<Log>, log: Log)
    ensures UsdgAfter(env, usdg, logs + [log]) == UsdgWith(env, UsdgAfter(env, usdg, logs), log.event)
    ensures PonsAfter(env, pons, logs + [log]) == PonsWith(env, PonsAfter(env, pons, logs), log.event)
  {
    hide UsdgWith, PonsWith;
    assert (logs + [log])[..|logs|] == logs;
  }

  lemma NoPoolFrom(env: Env, usdg: map<PoolId, Side>, pons: map<PoolId, Side>, log: Log)
    requires CreatesNothing(log)
    ensures UsdgWith(env, usdg, log.event) == usdg && PonsWith(env, pons, log.event) == pons
  {
  }

  lemma {:induction false} CreatesSuffice(env: Env, usdg: map<PoolId, Side>, pons: map<PoolId, Side>, logs: seq<Log>)
    ensures UsdgAfter(env, usdg, CreatesIn(logs)) == UsdgAfter(env, usdg, logs)
    ensures PonsAfter(env, pons, CreatesIn(logs)) == PonsAfter(env, pons, logs)
    decreases |logs|
  {
    if logs != [] {
      hide UsdgAfter, PonsAfter, UsdgWith, PonsWith, Filter;
      var n := |logs| - 1;
      var front, log := logs[..n], logs[n];
      CreatesSuffice(env, usdg, pons, front);
      FrontAndLast(logs);
      FilterSplits(logs, Creates);
      PoolsMore(env, usdg, pons, front, log);
      PoolsMore(env, usdg, pons, CreatesIn(front), log);
      if !Creates(log) {
        NoPoolFrom(env, UsdgAfter(env, usdg, front), PonsAfter(env, pons, front), log);
      }
    }
  }

  lemma {:induction false} OthersSuffice(env: Env, usdg: map<PoolId, Side>, pons: map<PoolId, Side>,
      launched: Launches, k: Ticker, logs: seq<Log>)
    ensures DexOf(usdg, k, OthersIn(logs)) == DexOf(usdg, k, logs)
    ensures PonsOf(env, usdg, pons, launched, k, OthersIn(logs)) == PonsOf(env, usdg, pons, launched, k, logs)
    decreases |logs|
  {
    if logs != [] {
      hide DexOf, PonsOf, DexFrom, PonsFrom, Filter;
      var n := |logs| - 1;
      var front, log := logs[..n], logs[n];
      OthersSuffice(env, usdg, pons, launched, k, front);
      FrontAndLast(logs);
      FilterSplits(logs, CreatesNothing);
      DexUnfolds(usdg, k, front, log);
      DexUnfolds(usdg, k, OthersIn(front), log);
      PonsUnfolds(env, usdg, pons, launched, k, front, log);
      PonsUnfolds(env, usdg, pons, launched, k, OthersIn(front), log);
      if Creates(log) {
        NoTradeFrom(env, usdg, pons, launched, k, log);
        NoMore(DexOf(usdg, k, front));
        NoMore(PonsOf(env, usdg, pons, launched, k, front));
      }
    }
  }

  lemma NoTradeFrom(env: Env, usdg: map<PoolId, Side>, pons: map<PoolId, Side>, launched: Launches, k: Ticker, log: Log)
    requires Creates(log)
    ensures DexFrom(usdg, k, log) == [] && PonsFrom(env, usdg, pons, launched, k, log) == []
  {
  }

  lemma {:induction false} FilterDistinct(logs: seq<Log>, keep: Log -> bool)
    requires DistinctIds(logs)
    ensures DistinctIds(Filter(logs, keep))
  {
    if logs != [] {
      assert forall i, j | 0 <= i < j < |logs| - 1 :: logs[1..][i].id != logs[1..][j].id;
      FilterDistinct(logs[1..], keep);
      var f := Filter(logs[1..], keep);
      forall i | 0 <= i < |f|
        ensures f[i].id != logs[0].id
      {
        assert f[i] in f && f[i] in logs[1..];
      }
    }
  }

  // ---------------------------------------------------------------------
  // Curves
  // ---------------------------------------------------------------------

  /** What is known of curves is the factory's last word. */
  ghost predicate Truthful(launched: Launches, m: Market) {
    && (forall c | c in m.curves :: launched(c) == Some(m.curves[c]))
    && (forall c | c in m.notCurves :: launched(c) == None)
  }

  /** A curve exists before it trades: up to any block from its trade on, the factory says the same. */
  ghost predicate CurvesExist(env: Env, launched: Launches, logs: seq<Log>) {
    forall i, to: nat | 0 <= i < |logs| && logs[i].event.CurveTrade? && logs[i].block <= to ::
      env.launchedBy(logs[i].event.curve, to) == launched(logs[i].event.curve)
  }

  ghost predicate Within(logs: seq<Log>, to: nat) {
    forall i | 0 <= i < |logs| :: logs[i].block <= to
  }

  ghost predicate AllCurveTrades(logs: seq<Log>) {
    forall i | 0 <= i < |logs| :: logs[i].event.CurveTrade?
  }

  predicate Knows(m: Market, c: Address) {
    c in m.curves || c in m.notCurves
  }

  ghost predicate AllKnown(m: Market, logs: seq<Log>) {
    forall i | 0 <= i < |logs| && logs[i].event.CurveTrade? :: Knows(m, logs[i].event.curve)
  }

  /** Only what is known of curves changes, and only by learning. */
  ghost predicate Learns(m: Market, s: Market) {
    s == m.(curves := s.curves, notCurves := s.notCurves) && forall c | Knows(m, c) :: Knows(s, c)
  }

  lemma AskedOne(env: Env, launched: Launches, m: Market, curve: Address, to: nat)
    requires Truthful(launched, m) && env.launchedBy(curve, to) == launched(curve)
    ensures var s := Asked(env, m, curve, to); Truthful(launched, s) && Learns(m, s) && Knows(s, curve)
  {
  }

  lemma LearnsOn(m: Market, s: Market, t: Market)
    requires Learns(m, s) && Learns(s, t)
    ensures Learns(m, t)
  {
  }

  lemma KnownLater(m: Market, s: Market, logs: seq<Log>, log: Log)
    requires AllKnown(m, logs) && Learns(m, s) && (log.event.CurveTrade? ==> Knows(s, log.event.curve))
    ensures AllKnown(s, logs + [log])
  {
    hide Knows;
  }

  lemma {:induction false} AskedAllTruthful(env: Env, launched: Launches, m: Market, logs: seq<Log>, to: nat)
    requires Truthful(launched, m) && CurvesExist(env, launched, logs) && Within(logs, to)
    ensures var s := AskedAll(env, m, logs, to); Truthful(launched, s) && Learns(m, s) && AllKnown(s, logs)
    decreases |logs|
  {
    if logs != [] {
      var n := |logs| - 1;
      var front, log := logs[..n], logs[n];
      assert CurvesExist(env, launched, front) && Within(front, to);
      assert log.event.CurveTrade? ==> env.launchedBy(log.event.curve, to) == launched(log.event.curve);
      hide Asked, Knows, Truthful, Learns, AllKnown, CurvesExist, Within;
      AskedAllTruthful(env, launched, m, front, to);
      var before := AskedAll(env, m, front, to);
      LearnsNothing(before);
      if log.event.CurveTrade? {
        AskedOne(env, launched, before, log.event.curve, to);
        LearnsOn(m, before, Asked(env, before, log.event.curve, to));
        KnownLater(before, Asked(env, before, log.event.curve, to), front, log);
      } else {
        KnownLater(before, before, front, log);
      }
      FrontAndLast(logs);
    } else {
      LearnsNothing(m);
    }
  }

  lemma LearnsNothing(m: Market)
    ensures Learns(m, m)
  {
  }

  lemma {:induction false} WaitingAreCurveTrades(m: Market, logs: seq<Log>)
    ensures forall l | l in Waiting(m, logs) :: l in logs && l.event.CurveTrade?
    decreases |logs|
  {
    if logs != [] {
      WaitingAreCurveTrades(m, logs[..|logs| - 1]);
    }
  }

  lemma {:induction false} CurveTradesAreNotDex(pools: map<PoolId, Side>, k: Ticker, logs: seq<Log>)
    requires AllCurveTrades(logs)
    ensures DexOf(pools, k, logs) == []
    decreases |logs|
  {
    if logs != [] {
      CurveTradesAreNotDex(pools, k, logs[..|logs| - 1]);
    }
  }

  /** Recording trades whose curves are all known adds them at once. */
  lemma {:induction false} RecordKnown(env: Env, m: Market, logs: seq<Log>)
    requires AllCurveTrades(logs) && AllKnown(m, logs)
    ensures var s := RecordAll(env, m, logs); Added(env, m, s, logs) && s.seen == m.seen && s.pending == m.pending
    decreases |logs|
  {
    if logs == [] {
      AddedNothing(env, m);
    } else {
      var n := |logs| - 1;
      var front, log := logs[..n], logs[n];
      assert log.event.CurveTrade? && Knows(m, log.event.curve);
      assert AllCurveTrades(front) && AllKnown(m, front);
      RecordKnown(env, m, front);
      var before := RecordAll(env, m, front);
      assert SamePlaces(m, before);
      hide Added, RecordIn, AllKnown, AllCurveTrades;
      AddedOneMore(env, m, before, front, log);
      RecordPlaces(env, before, log);
      FrontAndLast(logs);
    }
  }

  lemma SplitStep<T>(a: seq<T>, w: seq<T>, c: seq<T>, x: seq<T>, y: seq<T>, more: seq<T>, waits: bool)
    requires multiset(a) + multiset(w) == multiset(c)
    requires if waits then x == [] && more == w + y else x == y && more == w
    ensures multiset(a + x) + multiset(more) == multiset(c + y)
  {
    assert a + [] == a;
  }

  /** Placed at once or after asking, the Pons trades of the logs are the same. */
  lemma {:induction false} SplitByKnowledge(env: Env, launched: Launches, m: Market, logs: seq<Log>, k: Ticker)
    requires Truthful(launched, m)
    ensures var u, p := m.usdgPools, m.ponsPools;
            multiset(PonsOf(env, u, p, KnownLaunches(m), k, logs)) + multiset(PonsOf(env, u, p, launched, k, Waiting(m, logs)))
            == multiset(PonsOf(env, u, p, launched, k, logs))
    decreases |logs|
  {
    if logs != [] {
      var u, p := m.usdgPools, m.ponsPools;
      var n := |logs| - 1;
      var front, log := logs[..n], logs[n];
      var waits := log.event.CurveTrade? && log.event.curve !in m.curves && log.event.curve !in m.notCurves;
      var x, y := PonsFrom(env, u, p, KnownLaunches(m), k, log), PonsFrom(env, u, p, launched, k, log);
      assert if waits then x == [] else x == y;
      hide PonsOf, PonsFrom, Waiting, DexOf, Truthful, KnownLaunches;
      SplitByKnowledge(env, launched, m, front, k);
      var w := Waiting(m, front);
      WaitingMore(m, front, log);
      Unfolds(env, m, front, log, k, KnownLaunches(m));
      Unfolds(env, m, front, log, k, launched);
      Unfolds(env, m, w, log, k, launched);
      FrontAndLast(logs);
      NoMore(w);
      SplitStep(PonsOf(env, u, p, KnownLaunches(m), k, front), PonsOf(env, u, p, launched, k, w), PonsOf(env, u, p, launched, k, front),
                x, y, PonsOf(env, u, p, launched, k, Waiting(m, logs)), waits);
    }
  }

  // ---------------------------------------------------------------------
  // One poll
  // ---------------------------------------------------------------------

  ghost predicate Tidy(m: Market) {
    && (forall k :: InTime(ListOf(m.dex, k), TradeTime))
    && (forall k :: InTime(ListOf(m.pons, k), PonsTime))
    && (forall k :: DistinctKeys(ListOf(m.volume, k)))
  }

  /** A state between polls: nothing waiting, lists in order, trades kept since the retention. */
  ghost predicate Settled(env: Env, launched: Launches, m: Market) {
    Truthful(launched, m) && Tidy(m) && m.pending == [] && m.keepFrom == m.covered - env.tradeRetention
  }

  /** The logs of a range, as the chain gives them. */
  ghost predicate Readable(env: Env, launched: Launches, m: Market, b: Batch) {
    DistinctIds(b.logs) && Unseen(m.seen, b.logs) && CurvesExist(env, launched, b.logs) && Within(b.logs, b.to) && m.covered <= b.toAt
  }

  /** What reading logs makes of a state, list by list, before anything is forgotten. */
  ghost predicate Gathered(env: Env, launched: Launches, m: Market, s: Market, logs: seq<Log>) {
    && s.usdgPools == UsdgAfter(env, m.usdgPools, logs) && s.ponsPools == PonsAfter(env, m.ponsPools, logs)
    && Truthful(launched, s) && s.pending == [] && s.seen <= m.seen + Ids(logs)
    && ListsGathered(env, launched, m, s, logs)
  }

  ghost predicate ListsGathered(env: Env, launched: Launches, m: Market, s: Market, logs: seq<Log>) {
    forall k, minute :: TickerGathered(env, launched, m, s, logs, k, minute)
  }

  /** One ticker's lists: its trades in time order, one minute of its volume, its Pons trades in time order. */
  ghost predicate TickerGathered(env: Env, launched: Launches, m: Market, s: Market, logs: seq<Log>, k: Ticker,
      minute: int) {
    && InTime(ListOf(s.dex, k), TradeTime) && InTime(ListOf(s.pons, k), PonsTime) && DistinctKeys(ListOf(s.volume, k))
    && ListOf(s.dex, k) == PlacedAll(ListOf(m.dex, k), Filter(DexOf(s.usdgPools, k, logs), Since(m.keepFrom, TradeTime)), TradeTime)
    && Get(ListOf(s.volume, k), minute) == Get(ListOf(m.volume, k), minute) + SumBy(DexOf(s.usdgPools, k, logs), MinutePart(env, minute))
    && multiset(ListOf(s.pons, k)) == multiset(ListOf(m.pons, k)) + multiset(PonsOf(env, s.usdgPools, s.ponsPools, launched, k, logs))
  }

  lemma OthersCreateNothing(logs: seq<Log>)
    ensures AllCreateNothing(OthersIn(logs))
  {
    var f := OthersIn(logs);
    forall i | 0 <= i < |f|
      ensures CreatesNothing(f[i])
    {
      assert f[i] in f;
    }
  }

  lemma CreatesCreate(logs: seq<Log>)
    ensures forall i | 0 <= i < |CreatesIn(logs)| :: Creates(CreatesIn(logs)[i])
  {
    var f := CreatesIn(logs);
    forall i | 0 <= i < |f|
      ensures Creates(f[i])
    {
      assert f[i] in f;
    }
  }

  lemma PartIds(logs: seq<Log>, keep: Log -> bool, seen: set<EventId>)
    requires DistinctIds(logs) && Unseen(seen, logs)
    ensures DistinctIds(Filter(logs, keep)) && Unseen(seen, Filter(logs, keep)) && Ids(Filter(logs, keep)) <= Ids(logs)
  {
    FilterDistinct(logs, keep);
    var f := Filter(logs, keep);
    forall i | 0 <= i < |f|
      ensures f[i].id !in seen
    {
      assert f[i] in f && f[i] in logs;
    }
  }

  /** The second half of a range is unseen after the first. */
  lemma OtherHalfUnseen(logs: seq<Log>, seen: set<EventId>)
    requires DistinctIds(logs) && Unseen(seen, logs)
    ensures Unseen(seen + Ids(CreatesIn(logs)), OthersIn(logs))
  {
    var c, o := CreatesIn(logs), OthersIn(logs);
    forall i, l | 0 <= i < |o| && l in c
      ensures o[i].id !in seen && l.id != o[i].id
    {
      assert o[i] in o && Creates(l) && CreatesNothing(o[i]);
      SameIdSameLog(logs, l, o[i]);
      InRangeUnseen(logs, seen, o[i]);
    }
    forall i | 0 <= i < |o|
      ensures o[i].id !in seen
    {
      assert o[i] in o;
      InRangeUnseen(logs, seen, o[i]);
    }
  }

  lemma SameIdSameLog(logs: seq<Log>, x: Log, y: Log)
    requires DistinctIds(logs) && x in logs && y in logs
    ensures x.id == y.id ==> x == y
  {
  }

  lemma InRangeUnseen(logs: seq<Log>, seen: set<EventId>, x: Log)
    requires Unseen(seen, logs) && x in logs
    ensures x.id !in seen
  {
  }

  /** After the pools of the range: its trades, some placed and some waiting. */
  lemma AfterTrades(env: Env, m: Market, logs: seq<Log>)
    requires DistinctIds(logs) && Unseen(m.seen, logs) && m.pending == []
    ensures var m1 := ApplyAll(env, m, CreatesIn(logs));
            var m2 := ApplyAll(env, m1, OthersIn(logs));
            && m1 == m.(usdgPools := UsdgAfter(env, m.usdgPools, logs), ponsPools := PonsAfter(env, m.ponsPools, logs), seen := m1.seen)
            && Added(env, m1, m2, OthersIn(logs)) && m2.seen <= m.seen + Ids(logs) && m2.pending == Waiting(m1, OthersIn(logs))
  {
    PartIds(logs, Creates, m.seen);
    PartIds(logs, CreatesNothing, m.seen);
    OtherHalfUnseen(logs, m.seen);
    CreatesCreate(logs);
    OthersCreateNothing(logs);
    CreatesSuffice(env, m.usdgPools, m.ponsPools, logs);
    hide ApplyAll, UsdgAfter, PonsAfter, Filter, Added, DistinctIds, Unseen, AllCreateNothing, Ids, Waiting, Creates;
    ApplyCreates(env, m, CreatesIn(logs));
    var m1 := ApplyAll(env, m, CreatesIn(logs));
    ApplyOthers(env, m1, OthersIn(logs));
    NoneBefore(m1, OthersIn(logs));
  }

  lemma NoneBefore(m: Market, logs: seq<Log>)
    ensures [] + Waiting(m, logs) == Waiting(m, logs)
  {
  }

  lemma WaitingPart(env: Env, launched: Launches, m: Market, logs: seq<Log>, to: nat)
    requires CurvesExist(env, launched, logs) && Within(logs, to)
    ensures var w := Waiting(m, OthersIn(logs));
            CurvesExist(env, launched, w) && Within(w, to) && AllCurveTrades(w)
  {
    var w := Waiting(m, OthersIn(logs));
    WaitingAreCurveTrades(m, OthersIn(logs));
    hide Waiting;
    forall i | 0 <= i < |w|
      ensures w[i].event.CurveTrade? && w[i].block <= to
      ensures forall t: nat | w[i].block <= t :: env.launchedBy(w[i].event.curve, t) == launched(w[i].event.curve)
    {
      assert w[i] in w && w[i] in OthersIn(logs) && w[i] in logs;
      var j :| 0 <= j < |logs| && logs[j] == w[i];
    }
  }

  lemma TidyLists(m: Market, k: Ticker)
    requires Tidy(m)
    ensures InTime(ListOf(m.dex, k), TradeTime) && InTime(ListOf(m.pons, k), PonsTime) && DistinctKeys(ListOf(m.volume, k))
  {
  }

  /** What logs added, for one ticker. */
  lemma AddedFor(env: Env, m: Market, s: Market, logs: seq<Log>, k: Ticker, minute: int)
    requires Added(env, m, s, logs)
    ensures ListOf(s.dex, k) == PlacedAll(ListOf(m.dex, k), Filter(DexOf(m.usdgPools, k, logs), Since(m.keepFrom, TradeTime)), TradeTime)
    ensures Get(ListOf(s.volume, k), minute) == Get(ListOf(m.volume, k), minute) + SumBy(DexOf(m.usdgPools, k, logs), MinutePart(env, minute))
    ensures ListOf(s.pons, k) == PlacedAll(ListOf(m.pons, k), PonsOf(env, m.usdgPools, m.ponsPools, KnownLaunches(m), k, logs), PonsTime)
    ensures DistinctKeys(ListOf(m.volume, k)) ==> DistinctKeys(ListOf(s.volume, k))
    ensures SamePlaces(m, s)
  {
  }

  /** Curve trades add nothing to dollar trades or volume. */
  lemma CurveTradesFor(env: Env, m: Market, s: Market, logs: seq<Log>, k: Ticker, minute: int)
    requires Added(env, m, s, logs) && AllCurveTrades(logs)
    ensures ListOf(s.dex, k) == ListOf(m.dex, k)
    ensures Get(ListOf(s.volume, k), minute) == Get(ListOf(m.volume, k), minute)
    ensures ListOf(s.pons, k) == PlacedAll(ListOf(m.pons, k), PonsOf(env, m.usdgPools, m.ponsPools, KnownLaunches(m), k, logs), PonsTime)
    ensures DistinctKeys(ListOf(m.volume, k)) ==> DistinctKeys(ListOf(s.volume, k))
  {
    AddedFor(env, m, s, logs, k, minute);
    CurveTradesAreNotDex(m.usdgPools, k, logs);
    hide DexOf, PonsOf, Added;
  }

  /** With every curve known, what is known is the factory's word. */
  lemma {:induction false} KnownIsTrue(env: Env, launched: Launches, m: Market, logs: seq<Log>, k: Ticker)
    requires Truthful(launched, m) && AllKnown(m, logs)
    ensures PonsOf(env, m.usdgPools, m.ponsPools, KnownLaunches(m), k, logs) == PonsOf(env, m.usdgPools, m.ponsPools, launched, k, logs)
    decreases |logs|
  {
    if logs != [] {
      var n := |logs| - 1;
      assert AllKnown(m, logs[..n]);
      KnownIsTrue(env, launched, m, logs[..n], k);
      assert logs[n].event.CurveTrade? ==> Knows(m, logs[n].event.curve);
    }
  }

  /** The Pons trades of a range, placed in two goes, are the factory's word on all of them. */
  lemma PonsInTwo(env: Env, launched: Launches, m: Market, list: seq<PonsTrade>, others: seq<Log>, after: Market,
      k: Ticker)
    requires Truthful(launched, m) && Truthful(launched, after) && InTime(list, PonsTime)
    requires after.usdgPools == m.usdgPools && after.ponsPools == m.ponsPools && AllKnown(after, Waiting(m, others))
    ensures var u, p := m.usdgPools, m.ponsPools;
            var placed := PlacedAll(PlacedAll(list, PonsOf(env, u, p, KnownLaunches(m), k, others), PonsTime),
                                    PonsOf(env, u, p, KnownLaunches(after), k, Waiting(m, others)), PonsTime);
            InTime(placed, PonsTime) && multiset(placed) == multiset(list) + multiset(PonsOf(env, u, p, launched, k, others))
  {
    var u, p := m.usdgPools, m.ponsPools;
    KnownIsTrue(env, launched, after, Waiting(m, others), k);
    SplitByKnowledge(env, launched, m, others, k);
    hide PonsOf, PlacedAll, InTime, Waiting, AllKnown, Truthful, KnownLaunches;
    var a, b := PonsOf(env, u, p, KnownLaunches(m), k, others), PonsOf(env, u, p, KnownLaunches(after), k, Waiting(m, others));
    PlacedAllIsSorted(list, a, PonsTime);
    PlacedAllIsSorted(PlacedAll(list, a, PonsTime), b, PonsTime);
  }

  lemma TruthfulAlike(launched: Launches, m: Market, s: Market)
    requires Truthful(launched, m) && s.curves == m.curves && s.notCurves == m.notCurves
    ensures Truthful(launched, s)
  {
  }

  /** After the curves were asked about: the trades that waited are placed. */
  lemma AfterCurves(env: Env, launched: Launches, m1: Market, m2: Market, others: seq<Log>, to: nat) returns (m3: Market)
    requires Truthful(launched, m1) && Added(env, m1, m2, others) && m2.pending == Waiting(m1, others)
    requires CurvesExist(env, launched, m2.pending) && Within(m2.pending, to) && AllCurveTrades(m2.pending)
    ensures m3 == m2.(curves := m3.curves, notCurves := m3.notCurves, pending := [])
    ensures Truthful(launched, m3) && AllKnown(m3, m2.pending)
    ensures var m4 := Resolved(env, m2, to); Added(env, m3, m4, m2.pending) && m4.pending == [] && m4.seen == m2.seen && Truthful(launched, m4)
  {
    assert SamePlaces(m1, m2);
    hide Added, Truthful, CurvesExist, Within, AllCurveTrades, Waiting, AskedAll, RecordAll, Knows;
    TruthfulAlike(launched, m1, m2);
    AskedAllTruthful(env, launched, m2, m2.pending, to);
    var asked := AskedAll(env, m2, m2.pending, to);
    m3 := asked.(pending := []);
    TruthfulAlike(launched, asked, m3);
    KnownAlike(asked, m3, m2.pending);
    RecordKnown(env, m3, m2.pending);
    var m4 := RecordAll(env, m3, m2.pending);
    AddedFor(env, m3, m4, m2.pending, 0, 0);
    TruthfulAlike(launched, m3, m4);
  }

  lemma KnownAlike(m: Market, s: Market, logs: seq<Log>)
    requires AllKnown(m, logs) && s.curves == m.curves && s.notCurves == m.notCurves
    ensures AllKnown(s, logs)
  {
  }

  /** The state after the logs of a poll were applied and its curves resolved. */
  ghost function Read(env: Env, m: Market, b: Batch): Market {
    Resolved(env, ApplyAll(env, ApplyAll(env, m, CreatesIn(b.logs)), OthersIn(b.logs)), b.to)
  }

  lemma Gathers(env: Env, launched: Launches, m: Market, b: Batch)
    requires Settled(env, launched, m) && Readable(env, launched, m, b)
    ensures Gathered(env, launched, m, Read(env, m, b), b.logs)
  {
    hide DexOf, PonsOf, PlacedAll, Filter, SumBy, Get, DistinctKeys, InTime, Added, ApplyAll, Resolved, Waiting, Truthful, UsdgAfter, PonsAfter, Ids,
         DistinctIds, Unseen, CurvesExist, Within, Tidy, TickerGathered, AllKnown, AllCurveTrades;
    var m1 := ApplyAll(env, m, CreatesIn(b.logs));
    var others := OthersIn(b.logs);
    var m2 := ApplyAll(env, m1, others);
    var m4 := Read(env, m, b);
    AfterTrades(env, m, b.logs);
    WaitingPart(env, launched, m1, b.logs, b.to);
    TruthfulAlike(launched, m, m1);
    var m3 := AfterCurves(env, launched, m1, m2, others, b.to);
    forall k, minute
      ensures TickerGathered(env, launched, m, m4, b.logs, k, minute)
    {
      GathersFor(env, launched, m, m1, m2, m3, m4, b.logs, k, minute);
    }
    AddedFor(env, m1, m2, others, 0, 0);
    AddedFor(env, m3, m4, m2.pending, 0, 0);
  }

  /** One ticker's lists through the stages of a poll. */
  lemma GathersFor(env: Env, launched: Launches, m: Market, m1: Market, m2: Market, m3: Market, m4: Market,
      logs: seq<Log>, k: Ticker, minute: int)
    requires Tidy(m) && Truthful(launched, m1) && Truthful(launched, m3)
    requires (m1.dex, m1.volume, m1.pons, m1.keepFrom) == (m.dex, m.volume, m.pons, m.keepFrom)
    requires Added(env, m1, m2, OthersIn(logs)) && AllCurveTrades(Waiting(m1, OthersIn(logs)))
    requires m3 == m2.(curves := m3.curves, notCurves := m3.notCurves, pending := [])
    requires AllKnown(m3, Waiting(m1, OthersIn(logs))) && Added(env, m3, m4, Waiting(m1, OthersIn(logs)))
    ensures TickerGathered(env, launched, m, m4, logs, k, minute)
  {
    hide DexOf, PonsOf, PlacedAll, Filter, SumBy, Get, DistinctKeys, InTime, Added, Waiting, Truthful, AllKnown, AllCurveTrades, Tidy, KnownLaunches;
    var others := OthersIn(logs);
    TidyLists(m, k);
    AddedFor(env, m1, m2, others, k, minute);
    AddedFor(env, m3, m4, Waiting(m1, others), k, minute);
    CurveTradesFor(env, m3, m4, Waiting(m1, others), k, minute);
    OthersSuffice(env, m1.usdgPools, m1.ponsPools, launched, k, logs);
    PlacedAllIsSorted(ListOf(m.dex, k), Filter(DexOf(m1.usdgPools, k, others), Since(m.keepFrom, TradeTime)), TradeTime);
    PonsInTwo(env, launched, m1, ListOf(m.pons, k), others, m3, k);
  }

  // ---------------------------------------------------------------------
  // Forgetting
  // ---------------------------------------------------------------------

  lemma {:induction false} FilterAbsorbs<T>(list: seq<T>, early: int, late: int, at: T -> int)
    requires early <= late
    ensures Filter(Filter(list, Since(early, at)), Since(late, at)) == Filter(list, Since(late, at))
  {
    if list != [] {
      FilterAbsorbs(list[1..], early, late, at);
      var f := Filter(list[1..], Since(early, at));
      var x := list[0];
      assert Since(early, at)(x) == (at(x) >= early) && Since(late, at)(x) == (at(x) >= late);
      assert ([x] + f)[1..] == f && [] + f == f;
    }
  }

  lemma {:induction false} GetFiltered(m: Minutes, oldest: int, minute: int)
    ensures Get(Filter(m, Since(oldest, MinuteOf)), minute) == if minute >= oldest then Get(m, minute) else 0
  {
    if m != [] {
      GetFiltered(m[1..], oldest, minute);
      var f := Filter(m[1..], Since(oldest, MinuteOf));
      assert MinuteOf(m[0]) == m[0].0;
      assert Since(oldest, MinuteOf)(m[0]) == (MinuteOf(m[0]) >= oldest);
      assert ([m[0]] + f)[1..] == f && [] + f == f;
    }
  }

  /** What a settled state says of the logs read since an earlier one, for one ticker and one minute. */
  ghost predicate ReadFor(env: Env, launched: Launches, m: Market, s: Market, logs: seq<Log>, k: Ticker, minute: int) {
    && ListOf(s.dex, k) == Filter(PlacedAll(ListOf(m.dex, k), DexOf(s.usdgPools, k, logs), TradeTime), Since(s.covered - env.tradeRetention, TradeTime))
    && Get(ListOf(s.volume, k), minute)
       == (if minute >= (s.covered - env.volumeRetention) / MINUTE
           then Get(ListOf(m.volume, k), minute) + SumBy(DexOf(s.usdgPools, k, logs), MinutePart(env, minute)) else 0)
    && multiset(ListOf(s.pons, k))
       == multiset(Filter(ListOf(m.pons, k) + PonsOf(env, s.usdgPools, s.ponsPools, launched, k, logs), Since(s.covered - env.ponsRetention, PonsTime)))
  }

  lemma PrunedLists(env: Env, g: Market, k: Ticker)
    ensures var s := Pruned(env, g);
            && ListOf(s.dex, k) == Filter(ListOf(g.dex, k), Since(g.covered - env.tradeRetention, TradeTime))
            && ListOf(s.volume, k) == Filter(ListOf(g.volume, k), Since(OldestMinute(env, g.covered), MinuteOf))
            && ListOf(s.pons, k) == Filter(ListOf(g.pons, k), Since(g.covered - env.ponsRetention, PonsTime))
  {
    NoneFiltered(Since(g.covered - env.tradeRetention, TradeTime));
    NoneFiltered(Since(OldestMinute(env, g.covered), MinuteOf));
    NoneFiltered(Since(g.covered - env.ponsRetention, PonsTime));
    hide Filter;
  }

  lemma PruneFor(env: Env, launched: Launches, m: Market, g: Market, logs: seq<Log>, toAt: int, k: Ticker, minute: int)
    requires TickerGathered(env, launched, m, g, logs, k, minute) && InTime(ListOf(m.dex, k), TradeTime)
    requires m.keepFrom <= toAt - env.tradeRetention
    ensures var s := Pruned(env, g.(covered := toAt));
            && ReadFor(env, launched, m, s, logs, k, minute)
            && InTime(ListOf(s.dex, k), TradeTime) && InTime(ListOf(s.pons, k), PonsTime) && DistinctKeys(ListOf(s.volume, k))
  {
    hide DexOf, PonsOf, PlacedAll, Filter, SumBy, Get, DistinctKeys, InTime;
    PrunedLists(env, g.(covered := toAt), k);
    var cut := toAt - env.tradeRetention;
    var keep := Since(cut, TradeTime);
    var d := DexOf(g.usdgPools, k, logs);
    var list := ListOf(m.dex, k);
    PlacedAllFilters(list, Filter(d, Since(m.keepFrom, TradeTime)), keep, TradeTime);
    PlacedAllFilters(list, d, keep, TradeTime);
    FilterAbsorbs(d, m.keepFrom, cut, TradeTime);
    GetFiltered(ListOf(g.volume, k), OldestMinute(env, toAt), minute);
    FilterKeys(ListOf(g.volume, k), Since(OldestMinute(env, toAt), MinuteOf));
    FilterInTime(ListOf(g.dex, k), keep, TradeTime);
    FilterInTime(ListOf(g.pons, k), Since(toAt - env.ponsRetention, PonsTime), PonsTime);
    FilterPermutes(ListOf(g.pons, k), ListOf(m.pons, k) + PonsOf(env, g.usdgPools, g.ponsPools, launched, k, logs), Since(toAt - env.ponsRetention, PonsTime));
  }

  /** A state settled after reading logs from an earlier one. */
  ghost predicate Reads(env: Env, launched: Launches, m: Market, s: Market, logs: seq<Log>) {
    && s.usdgPools == UsdgAfter(env, m.usdgPools, logs) && s.ponsPools == PonsAfter(env, m.ponsPools, logs)
    && Settled(env, launched, s) && s.seen <= m.seen + Ids(logs) && m.covered <= s.covered
    && forall k, minute :: ReadFor(env, launched, m, s, logs, k, minute)
  }

  /** A poll leaves a settled state that reads its logs. */
  lemma PollReads(env: Env, launched: Launches, m: Market, b: Batch)
    requires Settled(env, launched, m) && Readable(env, launched, m, b)
    ensures Reads(env, launched, m, Polled(env, m, b), b.logs)
    ensures Polled(env, m, b).covered == b.toAt
  {
    hide DexOf, PonsOf, PlacedAll, Filter, SumBy, Get, DistinctKeys, InTime, Pruned, Read, TickerGathered, ReadFor, Truthful, Tidy,
         UsdgAfter, PonsAfter, Ids, ListsGathered, Polled, DistinctIds, Unseen, CurvesExist, Within, ApplyAll, Resolved;
    Gathers(env, launched, m, b);
    var g := Read(env, m, b);
    PolledIs(env, m, b);
    var s := Polled(env, m, b);
    forall k, minute
      ensures ReadFor(env, launched, m, s, b.logs, k, minute)
    {
      TickerOf(env, launched, m, g, b.logs, k, minute);
      TidyLists(m, k);
      PruneFor(env, launched, m, g, b.logs, b.toAt, k, minute);
    }
    forall k
      ensures InTime(ListOf(s.dex, k), TradeTime) && InTime(ListOf(s.pons, k), PonsTime) && DistinctKeys(ListOf(s.volume, k))
    {
      TickerOf(env, launched, m, g, b.logs, k, 0);
      TidyLists(m, k);
      PruneFor(env, launched, m, g, b.logs, b.toAt, k, 0);
    }
    TidyFrom(s);
    TruthfulAlike(launched, g, s);
  }

  lemma TidyFrom(s: Market)
    requires forall k :: InTime(ListOf(s.dex, k), TradeTime) && InTime(ListOf(s.pons, k), PonsTime) && DistinctKeys(ListOf(s.volume, k))
    ensures Tidy(s)
  {
  }

  /** The state an indexer starts reading from: nothing read, covered up to an instant, and pruned. */
  lemma FreshIsSettled(env: Env, launched: Launches, at: int)
    ensures Settled(env, launched, Pruned(env, EMPTY.(covered := at)))
  {
  }

  lemma PolledIs(env: Env, m: Market, b: Batch)
    ensures var g, s := Read(env, m, b), Polled(env, m, b);
            && s == Pruned(env, g.(covered := b.toAt))
            && s == g.(dex := s.dex, volume := s.volume, pons := s.pons, covered := b.toAt, keepFrom := b.toAt - env.tradeRetention)
  {
    hide ApplyAll, Resolved, Filter;
  }

  lemma TickerOf(env: Env, launched: Launches, m: Market, g: Market, logs: seq<Log>, k: Ticker, minute: int)
    requires Gathered(env, launched, m, g, logs)
    ensures TickerGathered(env, launched, m, g, logs, k, minute)
  {
  }

  // ---------------------------------------------------------------------
  // Polls join
  // ---------------------------------------------------------------------

  /** Pools exist before they trade: no trade in a pool comes before its creation. */
  ghost predicate PoolsExist(logs: seq<Log>) {
    forall i, j | 0 <= i < |logs| && 0 <= j < |logs| && logs[i].event.Swap? && Creates(logs[j]) && logs[j].event.pool == logs[i].event.pool :: j < i
  }

  ghost predicate CreatesNot(pool: PoolId, logs: seq<Log>) {
    forall j | 0 <= j < |logs| && Creates(logs[j]) :: logs[j].event.pool != pool
  }

  lemma {:induction false} PoolsJoin(env: Env, usdg: map<PoolId, Side>, pons: map<PoolId, Side>, a: seq<Log>,
      b: seq<Log>)
    ensures UsdgAfter(env, usdg, a + b) == UsdgAfter(env, UsdgAfter(env, usdg, a), b)
    ensures PonsAfter(env, pons, a + b) == PonsAfter(env, PonsAfter(env, pons, a), b)
    decreases |b|
  {
    if b == [] {
      NoMore(a);
    } else {
      hide UsdgAfter, PonsAfter, UsdgWith, PonsWith;
      var n := |b| - 1;
      PoolsJoin(env, usdg, pons, a, b[..n]);
      FrontAndLast(b);
      PoolsMore(env, usdg, pons, a + b[..n], b[n]);
      PoolsMore(env, UsdgAfter(env, usdg, a), PonsAfter(env, pons, a), b[..n], b[n]);
      assert a + b == a + b[..n] + [b[n]];
    }
  }

  ghost predicate SameEntry(pool: PoolId, a: map<PoolId, Side>, b: map<PoolId, Side>) {
    (pool in a <==> pool in b) && (pool in a ==> a[pool] == b[pool])
  }

  lemma {:induction false} EntryStays(env: Env, usdg: map<PoolId, Side>, pons: map<PoolId, Side>, logs: seq<Log>,
      pool: PoolId)
    requires CreatesNot(pool, logs)
    ensures SameEntry(pool, usdg, UsdgAfter(env, usdg, logs)) && SameEntry(pool, pons, PonsAfter(env, pons, logs))
    decreases |logs|
  {
    if logs != [] {
      var n := |logs| - 1;
      assert CreatesNot(pool, logs[..n]);
      EntryStays(env, usdg, pons, logs[..n], pool);
      assert Creates(logs[n]) ==> logs[n].event.pool != pool;
    }
  }

  /** What trades say depends only on the pools they trade in. */
  lemma {:induction false} SamePoolsSameTrades(env: Env, u: map<PoolId, Side>, p: map<PoolId, Side>,
      u2: map<PoolId, Side>, p2: map<PoolId, Side>,
                                               launched: Launches, k: Ticker, logs: seq<Log>)
    requires forall i | 0 <= i < |logs| && logs[i].event.Swap? :: SameEntry(logs[i].event.pool, u, u2) && SameEntry(logs[i].event.pool, p, p2)
    ensures DexOf(u, k, logs) == DexOf(u2, k, logs)
    ensures PonsOf(env, u, p, launched, k, logs) == PonsOf(env, u2, p2, launched, k, logs)
    decreases |logs|
  {
    if logs != [] {
      var n := |logs| - 1;
      assert forall i | 0 <= i < n :: logs[..n][i] == logs[i];
      SamePoolsSameTrades(env, u, p, u2, p2, launched, k, logs[..n]);
      assert logs[n].event.Swap? ==> SameEntry(logs[n].event.pool, u, u2) && SameEntry(logs[n].event.pool, p, p2);
      hide DexOf, PonsOf;
      SameFrom(env, u, p, u2, p2, launched, k, logs[n]);
      FrontAndLast(logs);
      DexUnfolds(u, k, logs[..n], logs[n]);
      DexUnfolds(u2, k, logs[..n], logs[n]);
      PonsUnfolds(env, u, p, launched, k, logs[..n], logs[n]);
      PonsUnfolds(env, u2, p2, launched, k, logs[..n], logs[n]);
    }
  }

  lemma SameFrom(env: Env, u: map<PoolId, Side>, p: map<PoolId, Side>, u2: map<PoolId, Side>, p2: map<PoolId, Side>,
      launched: Launches, k: Ticker, log: Log)
    requires log.event.Swap? ==> SameEntry(log.event.pool, u, u2) && SameEntry(log.event.pool, p, p2)
    ensures DexFrom(u, k, log) == DexFrom(u2, k, log)
    ensures PonsFrom(env, u, p, launched, k, log) == PonsFrom(env, u2, p2, launched, k, log)
  {
  }

  lemma DexUnfolds(u: map<PoolId, Side>, k: Ticker, logs: seq<Log>, log: Log)
    ensures DexOf(u, k, logs + [log]) == DexOf(u, k, logs) + DexFrom(u, k, log)
  {
    assert (logs + [log])[..|logs|] == logs;
  }

  lemma PonsUnfolds(env: Env, u: map<PoolId, Side>, p: map<PoolId, Side>, launched: Launches, k: Ticker,
      logs: seq<Log>, log: Log)
    ensures PonsOf(env, u, p, launched, k, logs + [log]) == PonsOf(env, u, p, launched, k, logs) + PonsFrom(env, u, p, launched, k, log)
  {
    assert (logs + [log])[..|logs|] == logs;
  }

  lemma {:induction false} TradesJoin(env: Env, u: map<PoolId, Side>, p: map<PoolId, Side>, launched: Launches,
      k: Ticker, a: seq<Log>, b: seq<Log>)
    ensures DexOf(u, k, a + b) == DexOf(u, k, a) + DexOf(u, k, b)
    ensures PonsOf(env, u, p, launched, k, a + b) == PonsOf(env, u, p, launched, k, a) + PonsOf(env, u, p, launched, k, b)
    decreases |b|
  {
    if b == [] {
      NoMore(a);
      NoMore(DexOf(u, k, a));
      NoMore(PonsOf(env, u, p, launched, k, a));
    } else {
      hide DexOf, PonsOf, DexFrom, PonsFrom;
      var n := |b| - 1;
      TradesJoin(env, u, p, launched, k, a, b[..n]);
      FrontAndLast(b);
      assert a + b == a + b[..n] + [b[n]];
      DexUnfolds(u, k, a + b[..n], b[n]);
      DexUnfolds(u, k, b[..n], b[n]);
      PonsUnfolds(env, u, p, launched, k, a + b[..n], b[n]);
      PonsUnfolds(env, u, p, launched, k, b[..n], b[n]);
      Regroup(DexOf(u, k, a), DexOf(u, k, b[..n]), DexFrom(u, k, b[n]));
      Regroup(PonsOf(env, u, p, launched, k, a), PonsOf(env, u, p, launched, k, b[..n]), PonsFrom(env, u, p, launched, k, b[n]));
    }
  }

  /** Pools created later do not change what earlier trades say. */
  lemma EarlierTradesStay(env: Env, usdg: map<PoolId, Side>, pons: map<PoolId, Side>, launched: Launches, k: Ticker,
      a: seq<Log>, b: seq<Log>)
    requires PoolsExist(a + b)
    ensures DexOf(UsdgAfter(env, usdg, a), k, a) == DexOf(UsdgAfter(env, usdg, a + b), k, a)
    ensures PonsOf(env, UsdgAfter(env, usdg, a), PonsAfter(env, pons, a), launched, k, a)
            == PonsOf(env, UsdgAfter(env, usdg, a + b), PonsAfter(env, pons, a + b), launched, k, a)
  {
    PoolsJoin(env, usdg, pons, a, b);
    var u, p := UsdgAfter(env, usdg, a), PonsAfter(env, pons, a);
    forall i | 0 <= i < |a| && a[i].event.Swap?
      ensures SameEntry(a[i].event.pool, u, UsdgAfter(env, u, b)) && SameEntry(a[i].event.pool, p, PonsAfter(env, p, b))
    {
      NotCreatedLater(a, b, i);
      hide PoolsExist, CreatesNot;
      EntryStays(env, u, p, b, a[i].event.pool);
    }
    hide DexOf, PonsOf, UsdgAfter, PonsAfter, PoolsExist;
    SamePoolsSameTrades(env, u, p, UsdgAfter(env, u, b), PonsAfter(env, p, b), launched, k, a);
  }

  lemma NotCreatedLater(a: seq<Log>, b: seq<Log>, i: nat)
    requires PoolsExist(a + b) && i < |a| && a[i].event.Swap?
    ensures CreatesNot(a[i].event.pool, b)
  {
    var all := a + b;
    forall j | 0 <= j < |b| && Creates(b[j])
      ensures b[j].event.pool != a[i].event.pool
    {
      assert all[i] == a[i] && all[|a| + j] == b[j];
    }
  }
}

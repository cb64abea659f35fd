/**
 The chain as a market, packages/chain/src/market-indexer.ts: logs applied, curves
 resolved and history pruned, poll by poll.
 */
module MarketIndexer {
  import opened Counting
  import opened DexPrice
  import opened Text
  import opened TimeSeries
  import opened Wrappers

  /** A place in the roster. */
  type Ticker = nat
  type EventId = string
  type PoolId = string
  type Address = string

  datatype Side = Side(ticker: Ticker, tickerIs0: bool)

  /** A decoded log; `Foreign` stands for one that is not the market's, or comes from the wrong contract. */
  datatype Event =
    | PoolInitialized(pool: PoolId, currency0: Address, currency1: Address)
    | PoolRegistered(pool: PoolId, quote: Address, memecoin: Address)
    | Swap(pool: PoolId, amount0: int, amount1: int)
    | CurveTrade(curve: Address, trader: Address, quoteAmount: int)
    | Foreign

  datatype Log = Log(id: EventId, tx: string, block: nat, at: int, event: Event)

  datatype PonsTrade = PonsTrade(eventId: EventId, wallet: Address, blockNumber: nat, at: int, tokenAmount: int)

  function TradeTime(t: DexTrade): int { t.at }

  function PonsTime(t: PonsTrade): int { t.at }

  /** The registry, the retention periods, and two fixed facts of the chain: who sent a transaction, and what a launch up to a block says. */
  datatype Env = Env(
    usdg: Address,
    tickerOf: map<Address, Ticker>,
    routers: set<Address>,
    minTradeQuote: int,
    tradeRetention: nat,
    volumeRetention: nat,
    ponsRetention: nat,
    sender: string -> Address,
    launchedBy: (Address, nat) -> Option<Ticker>)

  datatype Market = Market(
    usdgPools: map<PoolId, Side>,
    ponsPools: map<PoolId, Side>,
    curves: map<Address, Ticker>,
    notCurves: set<Address>,
    pending: seq<Log>,
    dex: map<Ticker, seq<DexTrade>>,
    volume: map<Ticker, Minutes>,
    pons: map<Ticker, seq<PonsTrade>>,
    seen: set<EventId>,
    keepFrom: int,
    covered: int)

  const EMPTY: Market := Market(map[], map[], map[], {}, [], map[], map[], map[], {}, 0, 0)

  function Abs(x: int): int {
    if x < 0 then -x else x
  }

  // ---------------------------------------------------------------------
  // One log
  // ---------------------------------------------------------------------

  predicate Creates(log: Log) {
    log.event.PoolInitialized? || log.event.PoolRegistered?
  }

  predicate CreatesNothing(log: Log) {
    !Creates(log)
  }

  function UsdgWith(env: Env, pools: map<PoolId, Side>, e: Event): map<PoolId, Side> {
    if !e.PoolInitialized? then pools
    else if e.currency1 in env.tickerOf && e.currency0 == env.usdg then pools[e.pool := Side(env.tickerOf[e.currency1], false)]
    else if e.currency0 in env.tickerOf && e.currency1 == env.usdg then pools[e.pool := Side(env.tickerOf[e.currency0], true)]
    else pools
  }

  function PonsWith(env: Env, pools: map<PoolId, Side>, e: Event): map<PoolId, Side> {
    if e.PoolRegistered? && e.quote in env.tickerOf then pools[e.pool := Side(env.tickerOf[e.quote], Before(e.quote, e.memecoin))] else pools
  }

  function TokenAmount(side: Side, e: Event): int
    requires e.Swap?
  {
    Abs(if side.tickerIs0 then e.amount0 else e.amount1)
  }

  function QuoteAmount(side: Side, e: Event): int
    requires e.Swap?
  {
    Abs(if side.tickerIs0 then e.amount1 else e.amount0)
  }

  function DexTradeOf(side: Side, log: Log): DexTrade
    requires log.event.Swap?
  {
    DexTrade(log.id, log.event.pool, log.block, log.at, QuoteAmount(side, log.event), TokenAmount(side, log.event))
  }

  function PonsSwapOf(env: Env, side: Side, log: Log): PonsTrade
    requires log.event.Swap?
  {
    PonsTrade(log.id, env.sender(log.tx), log.block, log.at, TokenAmount(side, log.event))
  }

  function CurveTradeOf(env: Env, log: Log): PonsTrade
    requires log.event.CurveTrade?
  {
    PonsTrade(log.id, if log.event.trader in env.routers then env.sender(log.tx) else log.event.trader,
              log.block, log.at, log.event.quoteAmount)
  }

  ghost function WithDex(env: Env, m: Market, ticker: Ticker, t: DexTrade): Market {
    m.(volume := if t.quoteAmount >= env.minTradeQuote
                 then m.volume[ticker := Add(ListOf(m.volume, ticker), t.at / MINUTE, t.quoteAmount)] else m.volume,
       dex := if t.at >= m.keepFrom then m.dex[ticker := Placed(ListOf(m.dex, ticker), t, TradeTime)] else m.dex)
  }

  ghost function WithPons(m: Market, ticker: Ticker, t: PonsTrade): Market {
    m.(pons := m.pons[ticker := Placed(ListOf(m.pons, ticker), t, PonsTime)])
  }

  /** `record`: what one log does to the market. */
  ghost function RecordIn(env: Env, m: Market, log: Log): Market {
    match log.event
    case PoolInitialized(_, _, _) => m.(usdgPools := UsdgWith(env, m.usdgPools, log.event))
    case PoolRegistered(_, _, _) => m.(ponsPools := PonsWith(env, m.ponsPools, log.event))
    case Swap(pool, _, _) =>
      if pool in m.usdgPools then
        var side := m.usdgPools[pool];
        if TokenAmount(side, log.event) > 0 then WithDex(env, m, side.ticker, DexTradeOf(side, log)) else m
      else if pool in m.ponsPools then
        var side := m.ponsPools[pool];
        WithPons(m, side.ticker, PonsSwapOf(env, side, log))
      else m
    case CurveTrade(curve, _, _) =>
      if curve in m.curves then WithPons(m, m.curves[curve], CurveTradeOf(env, log))
      else if curve !in m.notCurves then m.(pending := m.pending + [log])
      else m
    case Foreign => m
  }

  ghost function ApplyIn(env: Env, m: Market, log: Log): Market {
    if log.id in m.seen || log.event.Foreign? then m else RecordIn(env, m.(seen := m.seen + {log.id}), log)
  }

  ghost function ApplyAll(env: Env, m: Market, logs: seq<Log>): Market
    decreases |logs|
  {
    if logs == [] then m
    else
      var n := |logs| - 1;
      ApplyIn(env, ApplyAll(env, m, logs[..n]), logs[n])
  }

  ghost function RecordAll(env: Env, m: Market, logs: seq<Log>): Market
    decreases |logs|
  {
    if logs == [] then m
    else
      var n := |logs| - 1;
      RecordIn(env, RecordAll(env, m, logs[..n]), logs[n])
  }

  // ---------------------------------------------------------------------
  // Curves, pruning, polls
  // ---------------------------------------------------------------------

  /** What the factory says of a curve not asked about before. */
  function Asked(env: Env, m: Market, curve: Address, to: nat): Market {
    if curve in m.curves || curve in m.notCurves then m
    else if env.launchedBy(curve, to).Some? then m.(curves := m.curves[curve := env.launchedBy(curve, to).value])
    else m.(notCurves := m.notCurves + {curve})
  }

  ghost function AskedAll(env: Env, m: Market, logs: seq<Log>, to: nat): Market
    decreases |logs|
  {
    if logs == [] then m
    else
      var n := |logs| - 1;
      var before := AskedAll(env, m, logs[..n], to);
      if logs[n].event.CurveTrade? then Asked(env, before, logs[n].event.curve, to) else before
  }

  /** The contracts waiting are looked up, and then their trades recorded. */
  ghost function Resolved(env: Env, m: Market, to: nat): Market {
    RecordAll(env, AskedAll(env, m, m.pending, to).(pending := []), m.pending)
  }

  function MinuteOf(e: (int, int)): int { e.0 }

  function OldestMinute(env: Env, covered: int): int {
    (covered - env.volumeRetention) / MINUTE
  }

  /** Every list, cut down to what is kept. */
  function Selected<T>(m: map<Ticker, seq<T>>, keep: T -> bool): map<Ticker, seq<T>> {
    map k | k in m :: Filter(m[k], keep)
  }

  ghost function Pruned(env: Env, m: Market): Market {
    m.(keepFrom := m.covered - env.tradeRetention,
       dex := Selected(m.dex, Since(m.covered - env.tradeRetention, TradeTime)),
       volume := Selected(m.volume, Since(OldestMinute(env, m.covered), MinuteOf)),
       pons := Selected(m.pons, Since(m.covered - env.ponsRetention, PonsTime)))
  }

  /** What one poll reads: the logs of its range in chain order, its last block and that block's time. */
  datatype Batch = Batch(logs: seq<Log>, to: nat, toAt: int)

  function CreatesIn(logs: seq<Log>): seq<Log> {
    Filter(logs, Creates)
  }

  function OthersIn(logs: seq<Log>): seq<Log> {
    Filter(logs, CreatesNothing)
  }

  /** New pools first, then what trades in them, then the curves that were waiting. */
  ghost function Polled(env: Env, m: Market, b: Batch): Market {
    var applied := ApplyAll(env, ApplyAll(env, m, CreatesIn(b.logs)), OthersIn(b.logs));
    Pruned(env, Resolved(env, applied, b.to).(covered := b.toAt))
  }

  ghost function PolledAll(env: Env, m: Market, bs: seq<Batch>): Market
    decreases |bs|
  {
    if bs == [] then m
    else
      var n := |bs| - 1;
      Polled(env, PolledAll(env, m, bs[..n]), bs[n])
  }

  ghost predicate ListsInTime(m: Market) {
    && (forall k | k in m.dex :: InTime(m.dex[k], TradeTime))
    && (forall k | k in m.pons :: InTime(m.pons[k], PonsTime))
    && (forall k | k in m.volume :: DistinctKeys(m.volume[k]))
  }

  // ---------------------------------------------------------------------
  // Every step keeps the lists in order
  // ---------------------------------------------------------------------

  lemma DexStaysInTime(env: Env, m: Market, ticker: Ticker, t: DexTrade)
    requires ListsInTime(m)
    ensures ListsInTime(WithDex(env, m, ticker, t))
  {
    hide Placed, Add;
    var list, minutes := ListOf(m.dex, ticker), ListOf(m.volume, ticker);
    PlacedIsSorted(list, t, TradeTime);
    AddKeys(minutes, t.at / MINUTE, t.quoteAmount);
    hide InTime, DistinctKeys;
  }

  lemma PonsStaysInTime(m: Market, ticker: Ticker, t: PonsTrade)
    requires ListsInTime(m)
    ensures ListsInTime(WithPons(m, ticker, t))
  {
    hide Placed;
    PlacedIsSorted(ListOf(m.pons, ticker), t, PonsTime);
    hide InTime, DistinctKeys;
  }

  lemma RecordStaysInTime(env: Env, m: Market, log: Log)
    requires ListsInTime(m)
    ensures ListsInTime(RecordIn(env, m, log))
  {
    hide WithDex, WithPons, InTime, DistinctKeys;
    match log.event
    case Swap(pool, _, _) =>
      if pool in m.usdgPools {
        DexStaysInTime(env, m, m.usdgPools[pool].ticker, DexTradeOf(m.usdgPools[pool], log));
      } else if pool in m.ponsPools {
        PonsStaysInTime(m, m.ponsPools[pool].ticker, PonsSwapOf(env, m.ponsPools[pool], log));
      }
    case CurveTrade(curve, _, _) =>
      if curve in m.curves {
        PonsStaysInTime(m, m.curves[curve], CurveTradeOf(env, log));
      }
    case _ =>
  }

  lemma {:induction false} ApplyingStaysInTime(env: Env, m: Market, logs: seq<Log>)
    requires ListsInTime(m)
    ensures ListsInTime(ApplyAll(env, m, logs))
    decreases |logs|
  {
    hide RecordIn, InTime, DistinctKeys;
    if logs != [] {
      var n := |logs| - 1;
      ApplyingStaysInTime(env, m, logs[..n]);
      var s := ApplyAll(env, m, logs[..n]);
      RecordStaysInTime(env, s.(seen := s.seen + {logs[n].id}), logs[n]);
    }
  }

  lemma {:induction false} RecordingStaysInTime(env: Env, m: Market, logs: seq<Log>)
    requires ListsInTime(m)
    ensures ListsInTime(RecordAll(env, m, logs))
    decreases |logs|
  {
    hide RecordIn, InTime, DistinctKeys;
    if logs != [] {
      var n := |logs| - 1;
      RecordingStaysInTime(env, m, logs[..n]);
      RecordStaysInTime(env, RecordAll(env, m, logs[..n]), logs[n]);
    }
  }

  lemma {:induction false} AskingKeepsLists(env: Env, m: Market, logs: seq<Log>, to: nat)
    ensures var s := AskedAll(env, m, logs, to); s == m.(curves := s.curves, notCurves := s.notCurves)
    decreases |logs|
  {
    if logs != [] {
      AskingKeepsLists(env, m, logs[..|logs| - 1], to);
    }
  }

  lemma ResolvingStaysInTime(env: Env, m: Market, to: nat)
    requires ListsInTime(m)
    ensures ListsInTime(Resolved(env, m, to))
  {
    hide RecordAll, AskedAll, InTime, DistinctKeys;
    AskingKeepsLists(env, m, m.pending, to);
    RecordingStaysInTime(env, AskedAll(env, m, m.pending, to).(pending := []), m.pending);
  }

  lemma {:induction false} FilterKeys(m: Minutes, keep: ((int, int)) -> bool)
    requires DistinctKeys(m)
    ensures DistinctKeys(Filter(m, keep))
    decreases |m|
  {
    if m != [] {
      FilterKeys(m[1..], keep);
      var rest := Filter(m[1..], keep);
      assert forall x | x in rest :: x in m[1..];
      forall i | 0 <= i < |rest|
        ensures rest[i].0 != m[0].0
      {
        assert rest[i] in m[1..];
      }
    }
  }

  lemma PruningStaysInTime(env: Env, m: Market)
    requires ListsInTime(m)
    ensures ListsInTime(Pruned(env, m))
  {
    hide Filter, Since, OldestMinute;
    forall k | k in m.dex
      ensures InTime(Filter(m.dex[k], Since(m.covered - env.tradeRetention, TradeTime)), TradeTime)
    {
      FilterInTime(m.dex[k], Since(m.covered - env.tradeRetention, TradeTime), TradeTime);
    }
    forall k | k in m.pons
      ensures InTime(Filter(m.pons[k], Since(m.covered - env.ponsRetention, PonsTime)), PonsTime)
    {
      FilterInTime(m.pons[k], Since(m.covered - env.ponsRetention, PonsTime), PonsTime);
    }
    forall k | k in m.volume
      ensures DistinctKeys(Filter(m.volume[k], Since(OldestMinute(env, m.covered), MinuteOf)))
    {
      FilterKeys(m.volume[k], Since(OldestMinute(env, m.covered), MinuteOf));
    }
    hide InTime, DistinctKeys;
  }

  lemma ListsOf(m: Market)
    requires ListsInTime(m)
    ensures forall k | k in m.dex :: InTime(m.dex[k], TradeTime)
    ensures forall k | k in m.pons :: InTime(m.pons[k], PonsTime)
  {
    hide InTime, DistinctKeys;
  }

  lemma PrunedIs(env: Env, m: Market)
    ensures Pruned(env, m)
         == m.(keepFrom := m.covered - env.tradeRetention,
               dex := Selected(m.dex, Since(m.covered - env.tradeRetention, TradeTime)),
               volume := Selected(m.volume, Since(OldestMinute(env, m.covered), MinuteOf)),
               pons := Selected(m.pons, Since(m.covered - env.ponsRetention, PonsTime)))
  {
    hide Selected, Since, OldestMinute;
  }

  // ---------------------------------------------------------------------
  // Forgetting in place
  // ---------------------------------------------------------------------

  /** Deletes the minutes before `oldest`, entry by entry. */
  method DropMinutes(minutes: Minutes, oldest: int) returns (kept: Minutes)
    ensures kept == Filter(minutes, Since(oldest, MinuteOf))
  {
    kept := [];
    assert minutes[..0] == [];
    for i := 0 to |minutes|
      invariant kept == Filter(minutes[..i], Since(oldest, MinuteOf))
    {
      FilterAppends(minutes[..i], minutes[i], Since(oldest, MinuteOf));
      assert minutes[..i + 1] == minutes[..i] + [minutes[i]];
      if minutes[i].0 >= oldest {
        kept := kept + [minutes[i]];
      }
    }
    assert minutes[..|minutes|] == minutes;
  }

  /** Each ticker's list cut at `cutoff`. */
  method DropAll<T>(lists: map<Ticker, seq<T>>, cutoff: int, at: T -> int) returns (kept: map<Ticker, seq<T>>)
    requires forall k | k in lists :: InTime(lists[k], at)
    ensures kept == Selected(lists, Since(cutoff, at))
  {
    hide Filter, InTime, Since;
    kept := lists;
    var tickers := lists.Keys;
    while tickers != {}
      invariant tickers <= lists.Keys && kept.Keys == lists.Keys
      invariant forall k | k in tickers :: kept[k] == lists[k]
      invariant forall k | k in lists.Keys - tickers :: kept[k] == Filter(lists[k], Since(cutoff, at))
      decreases tickers
    {
      var k :| k in tickers;
      var list := DropBefore(kept[k], cutoff, at);
      kept := kept[k := list];
      tickers := tickers - {k};
    }
  }

  method DropAllMinutes(lists: map<Ticker, Minutes>, oldest: int) returns (kept: map<Ticker, Minutes>)
    ensures kept == Selected(lists, Since(oldest, MinuteOf))
  {
    hide Filter, Since;
    kept := lists;
    var tickers := lists.Keys;
    while tickers != {}
      invariant tickers <= lists.Keys && kept.Keys == lists.Keys
      invariant forall k | k in tickers :: kept[k] == lists[k]
      invariant forall k | k in lists.Keys - tickers :: kept[k] == Filter(lists[k], Since(oldest, MinuteOf))
      decreases tickers
    {
      var k :| k in tickers;
      var minutes := DropMinutes(kept[k], oldest);
      kept := kept[k := minutes];
      tickers := tickers - {k};
    }
  }

  // ---------------------------------------------------------------------
  // The indexer
  // ---------------------------------------------------------------------

  class RobinhoodMarketIndexer {
    const env: Env
    var usdgPools: map<PoolId, Side>
    var ponsPools: map<PoolId, Side>
    var curves: map<Address, Ticker>
    var notCurves: set<Address>
    var pendingCurveTrades: seq<Log>
    var dexTrades: map<Ticker, seq<DexTrade>>
    var minuteVolume: map<Ticker, Minutes>
    var ponsTrades: map<Ticker, seq<PonsTrade>>
    var seen: set<EventId>
    var keepTradesFrom: int
    var covered: int

    ghost function Now(): Market
      reads this
    {
      Market(usdgPools, ponsPools, curves, notCurves, pendingCurveTrades, dexTrades, minuteVolume, ponsTrades, seen, keepTradesFrom, covered)
    }

    ghost predicate Valid()
      reads this
    {
      ListsInTime(Now())
    }

    constructor (env: Env)
      ensures Valid() && this.env == env && Now() == EMPTY
    {
      this.env := env;
      usdgPools, ponsPools, curves, notCurves, pendingCurveTrades := map[], map[], map[], {}, [];
      dexTrades, minuteVolume, ponsTrades, seen, keepTradesFrom, covered := map[], map[], map[], {}, 0, 0;
    }

    method RecordSwap(log: Log)
      requires log.event.Swap?
      modifies this`dexTrades, this`minuteVolume, this`ponsTrades
      ensures Now() == RecordIn(env, old(Now()), log)
    {
      hide Placed, Add;
      var pool := log.event.pool;
      if pool in usdgPools {
        var side := usdgPools[pool];
        var trade := DexTradeOf(side, log);
        if trade.tokenAmount > 0 {
          if trade.quoteAmount >= env.minTradeQuote {
            minuteVolume := minuteVolume[side.ticker := Add(ListOf(minuteVolume, side.ticker), log.at / MINUTE, trade.quoteAmount)];
          }
          if log.at >= keepTradesFrom {
            var list := InsertByTime(ListOf(dexTrades, side.ticker), trade, TradeTime);
            dexTrades := dexTrades[side.ticker := list];
          }
        }
      } else if pool in ponsPools {
        var side := ponsPools[pool];
        var list := InsertByTime(ListOf(ponsTrades, side.ticker), PonsSwapOf(env, side, log), PonsTime);
        ponsTrades := ponsTrades[side.ticker := list];
      }
    }

    method Record(log: Log)
      modifies this`usdgPools, this`ponsPools, this`dexTrades, this`minuteVolume, this`ponsTrades, this`pendingCurveTrades
      ensures Now() == RecordIn(env, old(Now()), log)
    {
      hide Placed, Add;
      match log.event
      case PoolInitialized(_, _, _) => usdgPools := UsdgWith(env, usdgPools, log.event);
      case PoolRegistered(_, _, _) => ponsPools := PonsWith(env, ponsPools, log.event);
      case Swap(_, _, _) => RecordSwap(log);
      case CurveTrade(curve, _, _) =>
        if curve !in curves && curve !in notCurves {
          pendingCurveTrades := pendingCurveTrades + [log];
        } else if curve in curves {
          var list := InsertByTime(ListOf(ponsTrades, curves[curve]), CurveTradeOf(env, log), PonsTime);
          ponsTrades := ponsTrades[curves[curve] := list];
        }
      case Foreign =>
    }

    /** Records each log once. */
    method Apply(logs: seq<Log>)
      modifies this
      ensures Now() == ApplyAll(env, old(Now()), logs)
    {
      hide RecordIn;
      assert logs[..0] == [];
      for i := 0 to |logs|
        invariant Now() == ApplyAll(env, old(Now()), logs[..i])
      {
        assert logs[..i + 1][..i] == logs[..i];
        ghost var before := Now();
        if logs[i].id !in seen && !logs[i].event.Foreign? {
          seen := seen + {logs[i].id};
          assert Now() == before.(seen := seen);
          Record(logs[i]);
        }
        assert Now() == ApplyIn(env, before, logs[i]);
      }
      assert logs[..|logs|] == logs;
    }

    /** Looks up every contract seen trading as a curve, then records the trades that were waiting. */
    method ResolveCurves(to: nat)
      modifies this
      ensures Now() == Resolved(env, old(Now()), to)
    {
      hide RecordIn, Asked;
      var waiting := pendingCurveTrades;
      ghost var start := Now();
      assert waiting[..0] == [];
      for i := 0 to |waiting|
        invariant Now() == AskedAll(env, start, waiting[..i], to)
        invariant Now() == start.(curves := curves, notCurves := notCurves)
      {
        assert waiting[..i + 1][..i] == waiting[..i];
        if waiting[i].event.CurveTrade? {
          Ask(waiting[i].event.curve, to);
        }
      }
      assert waiting[..|waiting|] == waiting;
      pendingCurveTrades := [];
      ghost var asked := Now();
      assert asked == AskedAll(env, start, waiting, to).(pending := []);
      for i := 0 to |waiting|
        invariant Now() == RecordAll(env, asked, waiting[..i])
      {
        assert waiting[..i + 1][..i] == waiting[..i];
        Record(waiting[i]);
      }
    }

    method Ask(curve: Address, to: nat)
      modifies this`curves, this`notCurves
      ensures Now() == Asked(env, old(Now()), curve, to)
      ensures Now() == old(Now()).(curves := curves, notCurves := notCurves)
    {
      if curve !in curves && curve !in notCurves {
        var found := env.launchedBy(curve, to);
        if found.Some? {
          curves := curves[curve := found.value];
        } else {
          notCurves := notCurves + {curve};
        }
      }
    }

    /** Forgets what is past: minutes entry by entry, trades by a cut through the sorted lists. */
    method Prune()
      requires Valid()
      modifies this`keepTradesFrom, this`dexTrades, this`minuteVolume, this`ponsTrades
      ensures Valid() && Now() == Pruned(env, old(Now()))
    {
      hide ListsInTime, Pruned, Selected, Since, OldestMinute, Filter, InTime, DistinctKeys;
      PruningStaysInTime(env, Now());
      ListsOf(Now());
      PrunedIs(env, Now());
      var volume := DropAllMinutes(minuteVolume, OldestMinute(env, covered));
      var dex := DropAll(dexTrades, covered - env.tradeRetention, TradeTime);
      var pons := DropAll(ponsTrades, covered - env.ponsRetention, PonsTime);
      keepTradesFrom, minuteVolume, dexTrades, ponsTrades := covered - env.tradeRetention, volume, dex, pons;
    }

    /** Reads one range: its pools, its trades, its curves, and forgets what is past. */
    method Poll(b: Batch)
      requires Valid()
      modifies this
      ensures Valid() && Now() == Polled(env, old(Now()), b)
    {
      hide ApplyAll, Resolved, Pruned, InTime, DistinctKeys;
      ApplyingStaysInTime(env, Now(), CreatesIn(b.logs));
      Apply(CreatesIn(b.logs));
      ApplyingStaysInTime(env, Now(), OthersIn(b.logs));
      Apply(OthersIn(b.logs));
      ResolvingStaysInTime(env, Now(), b.to);
      ResolveCurves(b.to);
      covered := b.toAt;
      Prune();
    }

    /** The kept trades inside a span. */
    method Trades(ticker: Ticker, first: int, end: int) returns (r: seq<DexTrade>)
      requires Valid()
      ensures r == Filter(ListOf(dexTrades, ticker), InSpan(first, end, TradeTime))
    {
      r := Between(ListOf(dexTrades, ticker), first, end, TradeTime);
    }

    /** The volume of the whole minutes starting inside a span. */
    method Notional(ticker: Ticker, first: int, end: int) returns (total: int)
      requires Valid()
      ensures total == VolumeIn(ListOf(minuteVolume, ticker), CeilMinute(first), CeilMinute(end))
    {
      total := VolumeBetween(ListOf(minuteVolume, ticker), CeilMinute(first), CeilMinute(end));
    }
  }
}

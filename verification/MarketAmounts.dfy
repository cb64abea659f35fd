/**
 Which amount of a swap is whose, packages/chain/src/market-indexer.ts: from the tokens a
 pool was made with to the entry a swap in it leaves.
 */
module MarketAmounts {
  import opened Counting
  import opened DexPrice
  import opened MarketIndexer
  import opened MarketReading
  import opened Text
  import opened TimeSeries

  /** An amount without its sign. */
  ghost predicate IsMagnitude(n: nat, x: int) {
    n == x || n == -x
  }

  /** The log makes or registers the pool. */
  predicate Makes(log: Log, pool: PoolId) {
    || (log.event.PoolInitialized? && log.event.pool == pool)
    || (log.event.PoolRegistered? && log.event.pool == pool)
  }

  lemma MakingIs(env: Env, m: Market, log: Log)
    requires Creates(log)
    ensures RecordIn(env, m, log)
            == m.(usdgPools := UsdgWith(env, m.usdgPools, log.event), ponsPools := PonsWith(env, m.ponsPools, log.event))
  {
  }

  lemma MakingLeavesOthers(env: Env, m: Market, log: Log, pool: PoolId)
    requires Creates(log) && !Makes(log, pool)
    ensures var s := RecordIn(env, m, log);
            && (pool in s.usdgPools <==> pool in m.usdgPools)
            && (pool in m.usdgPools ==> s.usdgPools[pool] == m.usdgPools[pool])
            && (pool in s.ponsPools <==> pool in m.ponsPools)
            && (pool in m.ponsPools ==> s.ponsPools[pool] == m.ponsPools[pool])
  {
    MakingIs(env, m, log);
    hide RecordIn, Before;
  }

  lemma SideStays(env: Env, m: Market, log: Log, pool: PoolId)
    requires !Makes(log, pool)
    ensures var s := RecordIn(env, m, log);
            && (pool in s.usdgPools <==> pool in m.usdgPools)
            && (pool in m.usdgPools ==> s.usdgPools[pool] == m.usdgPools[pool])
            && (pool in s.ponsPools <==> pool in m.ponsPools)
            && (pool in m.ponsPools ==> s.ponsPools[pool] == m.ponsPools[pool])
  {
    hide RecordIn;
    if CreatesNothing(log) {
      RecordPlaces(env, m, log);
    } else {
      MakingLeavesOthers(env, m, log, pool);
    }
  }

  /** What a pool was made with stays true of it. */
  lemma {:induction false} SidesStay(env: Env, m: Market, logs: seq<Log>, pool: PoolId)
    requires forall log | log in logs :: !Makes(log, pool)
    ensures var s := RecordAll(env, m, logs);
            && (pool in s.usdgPools <==> pool in m.usdgPools)
            && (pool in m.usdgPools ==> s.usdgPools[pool] == m.usdgPools[pool])
            && (pool in s.ponsPools <==> pool in m.ponsPools)
            && (pool in m.ponsPools ==> s.ponsPools[pool] == m.ponsPools[pool])
    decreases |logs|
  {
    hide RecordIn;
    if logs != [] {
      var n := |logs| - 1;
      assert logs[n] in logs && forall log | log in logs[..n] :: log in logs;
      SidesStay(env, m, logs[..n], pool);
      SideStays(env, RecordAll(env, m, logs[..n]), logs[n], pool);
    }
  }

  /** The pool of the dollar token and a ticker's, whichever comes first; `usd` and `tokens` are what a swap moved of each. */
  ghost predicate DollarSwap(env: Env, made: Event, swap: Event, k: Ticker, usd: nat, tokens: nat)
    requires made.PoolInitialized? && swap.Swap?
  {
    if made.currency0 == env.usdg && made.currency1 in env.tickerOf then
      k == env.tickerOf[made.currency1] && IsMagnitude(usd, swap.amount0) && IsMagnitude(tokens, swap.amount1)
    else
      && made.currency1 == env.usdg && made.currency0 in env.tickerOf
      && k == env.tickerOf[made.currency0] && IsMagnitude(usd, swap.amount1) && IsMagnitude(tokens, swap.amount0)
  }

  /** A list of one ticker is all that changed. */
  ghost predicate OnlyOf<T>(k: Ticker, before: map<Ticker, seq<T>>, after: map<Ticker, seq<T>>) {
    forall other | other != k :: ListOf(after, other) == ListOf(before, other)
  }

  /**
   A swap in a dollar pool, any logs after the pool was made: its trade has the dollars
   moved as its quote and the ticker's tokens moved as its tokens, and the minute grows
   by the dollars. A swap that moved no tokens leaves nothing.
  */
  lemma DollarSwapsAreRead(env: Env, m: Market, made: Log, between: seq<Log>, swap: Log, k: Ticker, usd: nat, tokens: nat)
    requires made.event.PoolInitialized? && swap.event.Swap? && swap.event.pool == made.event.pool
    requires forall log | log in between :: !Makes(log, made.event.pool)
    requires DollarSwap(env, made.event, swap.event, k, usd, tokens)
    ensures var before := RecordAll(env, RecordIn(env, m, made), between);
            var after := RecordIn(env, before, swap);
            var trade := DexTrade(swap.id, swap.event.pool, swap.block, swap.at, usd, tokens);
            if tokens == 0 then after == before
            else
              && after == before.(dex := after.dex, volume := after.volume)
              && OnlyOf(k, before.dex, after.dex) && OnlyOf(k, before.volume, after.volume)
              && ListOf(after.dex, k) == (if swap.at >= before.keepFrom then Placed(ListOf(before.dex, k), trade, TradeTime) else ListOf(before.dex, k))
              && forall minute :: Get(ListOf(after.volume, k), minute)
                                  == Get(ListOf(before.volume, k), minute)
                                     + if minute == swap.at / MINUTE && usd >= env.minTradeQuote then usd else 0
  {
    var pool := made.event.pool;
    var first := RecordIn(env, m, made);
    SidesStay(env, first, between, pool);
    PoolOpened(env, m, made, k);
    var before := RecordAll(env, first, between);
    hide RecordIn, RecordAll, Placed, Get;
    RecordsDollars(env, before, swap, k, usd, tokens);
  }

  lemma PoolOpened(env: Env, m: Market, made: Log, k: Ticker)
    requires made.event.PoolInitialized?
    ensures var e, pools := made.event, RecordIn(env, m, made).usdgPools;
            if e.currency0 == env.usdg && e.currency1 in env.tickerOf then
              e.pool in pools && pools[e.pool] == Side(env.tickerOf[e.currency1], false)
            else if e.currency1 == env.usdg && e.currency0 in env.tickerOf then
              e.pool in pools && pools[e.pool] == Side(env.tickerOf[e.currency0], true)
            else pools == m.usdgPools
  {
  }

  lemma RecordsDollars(env: Env, m: Market, swap: Log, k: Ticker, usd: nat, tokens: nat)
    requires swap.event.Swap? && swap.event.pool in m.usdgPools && m.usdgPools[swap.event.pool].ticker == k
    requires var e := swap.event;
             if m.usdgPools[e.pool].tickerIs0 then IsMagnitude(tokens, e.amount0) && IsMagnitude(usd, e.amount1)
             else IsMagnitude(tokens, e.amount1) && IsMagnitude(usd, e.amount0)
    ensures var after := RecordIn(env, m, swap);
            var trade := DexTrade(swap.id, swap.event.pool, swap.block, swap.at, usd, tokens);
            if tokens == 0 then after == m
            else
              && after == m.(dex := after.dex, volume := after.volume)
              && OnlyOf(k, m.dex, after.dex) && OnlyOf(k, m.volume, after.volume)
              && ListOf(after.dex, k) == (if swap.at >= m.keepFrom then Placed(ListOf(m.dex, k), trade, TradeTime) else ListOf(m.dex, k))
              && forall minute :: Get(ListOf(after.volume, k), minute)
                                  == Get(ListOf(m.volume, k), minute)
                                     + if minute == swap.at / MINUTE && usd >= env.minTradeQuote then usd else 0
  {
    forall minute
      ensures Get(Add(ListOf(m.volume, k), swap.at / MINUTE, usd), minute)
              == Get(ListOf(m.volume, k), minute) + if minute == swap.at / MINUTE then usd else 0
    {
      AddAdds(ListOf(m.volume, k), swap.at / MINUTE, usd, minute);
    }
    hide Placed, Add, Get, Before, WithPons, PonsSwapOf, CurveTradeOf, UsdgWith, PonsWith;
  }

  /** A swap in a registered Pons pool counts what it moved of the quote token; the chain puts the token with the lesser address first. */
  lemma PonsSwapsAreRead(env: Env, m: Market, registered: Log, between: seq<Log>, swap: Log, quoted: nat)
    requires registered.event.PoolRegistered? && registered.event.quote in env.tickerOf
    requires swap.event.Swap? && swap.event.pool == registered.event.pool && swap.event.pool !in m.usdgPools
    requires forall log | log in between :: !Makes(log, registered.event.pool)
    requires IsMagnitude(quoted, if Before(registered.event.quote, registered.event.memecoin) then swap.event.amount0 else swap.event.amount1)
    ensures var before := RecordAll(env, RecordIn(env, m, registered), between);
            var k := env.tickerOf[registered.event.quote];
            var trade := PonsTrade(swap.id, env.sender(swap.tx), swap.block, swap.at, quoted);
            RecordIn(env, before, swap) == before.(pons := before.pons[k := Placed(ListOf(before.pons, k), trade, PonsTime)])
  {
    var first := RecordIn(env, m, registered);
    SidesStay(env, first, between, registered.event.pool);
    hide Placed, Before;
  }

  /** A trade on a known curve counts the quote it moved, for the trader or, through a router, for whoever sent the transaction. */
  lemma CurveTradesAreRead(env: Env, m: Market, log: Log)
    requires log.event.CurveTrade? && log.event.curve in m.curves
    ensures var k := m.curves[log.event.curve];
            var who := if log.event.trader in env.routers then env.sender(log.tx) else log.event.trader;
            var trade := PonsTrade(log.id, who, log.block, log.at, log.event.quoteAmount);
            RecordIn(env, m, log) == m.(pons := m.pons[k := Placed(ListOf(m.pons, k), trade, PonsTime)])
  {
    hide Placed;
  }
}

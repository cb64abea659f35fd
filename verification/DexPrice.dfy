/**
 A price read from trades, packages/market-data/src/dex-price.ts: the
 notional-weighted median, and the reading guarded by an independent reference.
 */
module DexPrice {
  import opened Arithmetic
  import opened Counting
  import opened Feed
  import opened Ordering
  import opened Text
  import opened Wrappers

  datatype Priced = Priced(price: int, weight: nat, id: string)

  // ---------------------------------------------------------------------
  // What a weighted median is
  // ---------------------------------------------------------------------

  function Weight(e: Priced): int {
    e.weight
  }

  function TotalWeight(priced: seq<Priced>): int {
    SumBy(priced, Weight)
  }

  ghost function WeightWithin(lo: int, hi: int): Priced -> int {
    (e: Priced) => if lo <= e.price <= hi then e.weight else 0
  }

  ghost function WeightUpTo(q: int): Priced -> int {
    (e: Priced) => if e.price <= q then e.weight else 0
  }

  /** The lowest price at or below which half the value traded. */
  ghost predicate IsWeightedMedian(priced: seq<Priced>, p: int) {
    && 2 * SumBy(priced, WeightUpTo(p)) >= TotalWeight(priced)
    && forall q | q < p :: 2 * SumBy(priced, WeightUpTo(q)) < TotalWeight(priced)
  }

  lemma MedianIsUnique(priced: seq<Priced>, p: int, q: int)
    requires IsWeightedMedian(priced, p) && IsWeightedMedian(priced, q)
    ensures p == q
  {
    assert !(p < q) && !(q < p);
  }

  /** Arrival order does not show in a median. */
  lemma MedianIgnoresOrder(priced: seq<Priced>, shuffled: seq<Priced>, p: int)
    requires multiset(priced) == multiset(shuffled)
    ensures IsWeightedMedian(priced, p) <==> IsWeightedMedian(shuffled, p)
  {
    SumByPermutes(priced, shuffled, Weight);
    forall q
      ensures SumBy(priced, WeightUpTo(q)) == SumBy(shuffled, WeightUpTo(q))
    {
      SumByPermutes(priced, shuffled, WeightUpTo(q));
    }
  }

  lemma {:induction false} BandAndBelow(priced: seq<Priced>, lo: int, hi: int, q: int)
    ensures q < lo ==> SumBy(priced, WeightUpTo(q)) + SumBy(priced, WeightWithin(lo, hi)) <= TotalWeight(priced)
    ensures SumBy(priced, WeightWithin(lo, hi)) <= SumBy(priced, WeightUpTo(hi))
  {
    if priced != [] {
      BandAndBelow(priced[1..], lo, hi, q);
    }
  }

  lemma MedianIsAbove(priced: seq<Priced>, p: int, q: int)
    requires IsWeightedMedian(priced, p) && q < p
    ensures 2 * SumBy(priced, WeightUpTo(q)) < TotalWeight(priced)
  {
  }

  /** Whoever trades less than half the value cannot move the median out of the band the rest trades in. */
  lemma MedianResistsMinority(priced: seq<Priced>, lo: int, hi: int, p: int)
    requires IsWeightedMedian(priced, p)
    requires 2 * SumBy(priced, WeightWithin(lo, hi)) > TotalWeight(priced)
    ensures lo <= p <= hi
  {
    BandAndBelow(priced, lo, hi, p);
    if p > hi {
      MedianIsAbove(priced, p, hi);
    }
  }

  // ---------------------------------------------------------------------
  // Computing it
  // ---------------------------------------------------------------------

  predicate RanksBefore(a: Priced, b: Priced) {
    if a.price != b.price then a.price < b.price else NotAfter(a.id, b.id)
  }

  lemma RanksBeforeIsPreorder()
    ensures TotalPreorder(RanksBefore)
  {
    forall a: Priced, b: Priced
      ensures RanksBefore(a, b) || RanksBefore(b, a)
    {
      BeforeIsTotal(a.id, b.id);
    }
    forall a: Priced, b: Priced, c: Priced | RanksBefore(a, b) && RanksBefore(b, c)
      ensures RanksBefore(a, c)
    {
      if a.price == c.price {
        NotAfterIsTransitive(a.id, b.id, c.id);
      }
    }
  }

  lemma {:induction false} AllCount(s: seq<Priced>, q: int)
    ensures (forall e | e in s :: e.price <= q) ==> SumBy(s, WeightUpTo(q)) == SumBy(s, Weight)
    ensures (forall e | e in s :: e.price > q) ==> SumBy(s, WeightUpTo(q)) == 0
    ensures 0 <= SumBy(s, WeightUpTo(q)) <= SumBy(s, Weight)
  {
    if s != [] {
      assert s == [s[0]] + s[1..];
      AllCount(s[1..], q);
    }
  }

  lemma PrefixPrices(ordered: seq<Priced>, i: nat, q: int)
    requires SortedBy(ordered, RanksBefore) && i <= |ordered|
    ensures (i == 0 || ordered[i - 1].price <= q) ==> forall e | e in ordered[..i] :: e.price <= q
    ensures (i == |ordered| || ordered[i].price > q) ==> forall e | e in ordered[i..] :: e.price > q
  {
    forall k, m | 0 <= k <= m < |ordered|
      ensures ordered[k].price <= ordered[m].price
    {
      assert k == m || RanksBefore(ordered[k], ordered[m]);
    }
  }

  /** In price order, what lies at or below a price is a prefix. */
  lemma PrefixWeighs(ordered: seq<Priced>, i: nat, q: int)
    requires SortedBy(ordered, RanksBefore) && i <= |ordered|
    ensures (i == 0 || ordered[i - 1].price <= q) ==> SumBy(ordered, WeightUpTo(q)) >= SumBy(ordered[..i], Weight)
    ensures (i == |ordered| || ordered[i].price > q) ==> SumBy(ordered, WeightUpTo(q)) <= SumBy(ordered[..i], Weight)
  {
    PrefixPrices(ordered, i, q);
    var head, tail := ordered[..i], ordered[i..];
    assert ordered == head + tail;
    hide SortedBy, RanksBefore, SumBy;
    SumByJoins(head, tail, WeightUpTo(q));
    AllCount(head, q);
    AllCount(tail, q);
  }

  /** The median of the trades, or nothing when they carry no value. */
  method WeightedMedianPrice(priced: seq<Priced>) returns (r: Option<int>)
    ensures r.None? <==> TotalWeight(priced) == 0
    ensures r.Some? ==> IsWeightedMedian(priced, r.value)
  {
    hide RanksBefore, Sort, SortedBy, TotalPreorder, IsWeightedMedian;
    if |priced| == 0 {
      return None;
    }
    var ordered := Sort(priced, RanksBefore);
    RanksBeforeIsPreorder();
    SortSorts(priced, RanksBefore);
    SumByPermutes(ordered, priced, Weight);
    var total := SumBy(ordered, Weight);
    NonNegative(priced);
    if total <= 0 {
      return None;
    }
    var running := 0;
    assert ordered[..|ordered|] == ordered;
    for i := 0 to |ordered|
      invariant running == SumBy(ordered[..i], Weight)
      invariant 2 * running < total
    {
      hide SumBy;
      var entry := ordered[i];
      assert ordered[..i + 1] == ordered[..i] + [entry];
      SumByJoins(ordered[..i], [entry], Weight);
      SumByOne(entry, Weight);
      running := running + entry.weight;
      if running * 2 >= total {
        MedianAt(ordered, i);
        MedianIgnoresOrder(ordered, priced, entry.price);
        return Some(entry.price);
      }
    }
    assert false;
  }

  lemma {:induction false} NonNegative(priced: seq<Priced>)
    ensures TotalWeight(priced) >= 0
  {
    if priced != [] {
      NonNegative(priced[1..]);
    }
  }

  lemma MedianAt(ordered: seq<Priced>, i: nat)
    requires SortedBy(ordered, RanksBefore) && i < |ordered|
    requires 2 * SumBy(ordered[..i], Weight) < TotalWeight(ordered) <= 2 * SumBy(ordered[..i + 1], Weight)
    ensures IsWeightedMedian(ordered, ordered[i].price)
  {
    PrefixWeighs(ordered, i + 1, ordered[i].price);
    forall q | q < ordered[i].price
      ensures 2 * SumBy(ordered, WeightUpTo(q)) < TotalWeight(ordered)
    {
      PrefixWeighs(ordered, i, q);
    }
  }

  // ---------------------------------------------------------------------
  // The reading
  // ---------------------------------------------------------------------

  const PRICE_SCALE: nat := 100_000_000
  const BPS: nat := 10_000

  datatype DexTrade = DexTrade(
    eventId: string, poolId: string, blockNumber: nat, at: int, quoteAmount: int, tokenAmount: int)

  datatype TradeUnits = TradeUnits(quoteDecimals: nat, tokenDecimals: nat)

  datatype ReferencePrice = ReferencePrice(price: int, updatedAt: int)

  datatype PricePolicy = PricePolicy(
    priceWindowMs: int,
    maxQuietMs: int,
    minTradeQuote: nat,
    maxTradeDeviationBps: int,
    maxPriceDeviationBps: int,
    maxReferenceAgeMs: int,
    minWindowTrades: nat)

  datatype PriceNote = Fine | Thin | Carried | NoReference | NoTrades | ReferenceDivergence

  datatype PriceReading = PriceReading(
    price: Option<int>, health: FeedHealth, note: PriceNote, trades: nat, notional: int, lastTradeAt: Option<int>)

  function Pow10(n: nat): (p: nat)
    ensures p > 0
  {
    if n == 0 then 1 else 10 * Pow10(n - 1)
  }

  function TradePrice(t: DexTrade, units: TradeUnits): int
    requires t.tokenAmount > 0
  {
    t.quoteAmount * PRICE_SCALE * Pow10(units.tokenDecimals) / (t.tokenAmount * Pow10(units.quoteDecimals))
  }

  /** |a - b| as basis points of `b`. */
  function DeviationBps(a: int, b: int): int
    requires b > 0
  {
    (if a > b then a - b else b - a) * BPS / b
  }

  function Trusted(at: int, reference: Option<ReferencePrice>, policy: PricePolicy): Option<int> {
    if reference.Some? && reference.value.price > 0 && at - reference.value.updatedAt <= policy.maxReferenceAgeMs
    then Some(reference.value.price) else None
  }

  /** Recent enough, not dust, and not far from a trusted reference. */
  predicate Counts(t: DexTrade, at: int, units: TradeUnits, trusted: Option<int>, policy: PricePolicy)
    requires trusted.Some? ==> trusted.value > 0
  {
    && t.at <= at && at - t.at < policy.maxQuietMs
    && t.tokenAmount > 0 && t.quoteAmount >= policy.minTradeQuote
    && (trusted.None? || DeviationBps(TradePrice(t, units), trusted.value) <= policy.maxTradeDeviationBps)
  }

  function Newest(trades: seq<DexTrade>): Option<int> {
    if trades == [] then None
    else
      match Newest(trades[1..])
      case None => Some(trades[0].at)
      case Some(rest) => Some(if trades[0].at > rest then trades[0].at else rest)
  }

  lemma {:induction false} NewestIs(trades: seq<DexTrade>)
    ensures Newest(trades).None? <==> trades == []
    ensures Newest(trades).Some? ==>
              && (exists t | t in trades :: t.at == Newest(trades).value)
              && (forall t | t in trades :: t.at <= Newest(trades).value)
  {
    if trades != [] {
      NewestIs(trades[1..]);
      assert trades[0] in trades;
    }
  }

  lemma NewestPermutes(s: seq<DexTrade>, t: seq<DexTrade>)
    requires multiset(s) == multiset(t)
    ensures Newest(s) == Newest(t)
  {
    NewestIs(s);
    NewestIs(t);
    SameMembers(s, t);
    hide Newest;
  }

  function Notional(t: DexTrade): int {
    t.quoteAmount
  }

  function Entry(units: TradeUnits): DexTrade -> Priced {
    (t: DexTrade) => Priced(if t.tokenAmount > 0 then TradePrice(t, units) else 0,
                            if t.quoteAmount >= 0 then t.quoteAmount else 0,
                            t.eventId)
  }

  function CountedTrades(trades: seq<DexTrade>, at: int, units: TradeUnits, trusted: Option<int>, policy: PricePolicy)
    : seq<DexTrade>
    requires trusted.Some? ==> trusted.value > 0
  {
    Filter(trades, (t: DexTrade) => Counts(t, at, units, trusted, policy))
  }

  function InWindow(counted: seq<DexTrade>, at: int, policy: PricePolicy): seq<DexTrade> {
    Filter(counted, (t: DexTrade) => at - t.at < policy.priceWindowMs)
  }

  function Latest(counted: seq<DexTrade>): seq<DexTrade> {
    var newest := Newest(counted);
    Filter(counted, (t: DexTrade) => newest == Some(t.at))
  }

  /** The trades the price is made of: the window's, or the newest block's when the window is empty. */
  function Basis(counted: seq<DexTrade>, at: int, policy: PricePolicy): seq<DexTrade> {
    if InWindow(counted, at, policy) == [] then Latest(counted) else InWindow(counted, at, policy)
  }

  /** What a reading says of its trades. */
  ghost predicate IsReading(trades: seq<DexTrade>, at: int, units: TradeUnits, reference: Option<ReferencePrice>,
                            policy: PricePolicy, r: PriceReading) {
    var trusted := Trusted(at, reference, policy);
    var counted := CountedTrades(trades, at, units, trusted, policy);
    var window := InWindow(counted, at, policy);
    var basis := Map(Basis(counted, at, policy), Entry(units));
    && (r.price.None? <==> TotalWeight(basis) == 0)
    && (r.price.Some? ==> IsWeightedMedian(basis, r.price.value))
    && r.trades == |window| && r.notional == SumBy(window, Notional) && r.lastTradeAt == Newest(counted)
    && (r.health, r.note) ==
       if r.price.None? then (Stale, NoTrades)
       else if trusted.Some? && DeviationBps(r.price.value, trusted.value) > policy.maxPriceDeviationBps
       then (Stale, ReferenceDivergence)
       else if window == [] then (Degraded, Carried)
       else if trusted.None? then (Degraded, NoReference)
       else if |window| < policy.minWindowTrades then (Degraded, Thin)
       else (Healthy, Fine)
  }

  method PriceAt(trades: seq<DexTrade>, at: int, units: TradeUnits, reference: Option<ReferencePrice>,
                 policy: PricePolicy) returns (r: PriceReading)
    ensures IsReading(trades, at, units, reference, policy, r)
  {
    hide Counts, IsWeightedMedian, Newest, TradePrice, Filter, SumBy;
    var trusted := Trusted(at, reference, policy);
    var counted := CountedTrades(trades, at, units, trusted, policy);
    var inWindow := InWindow(counted, at, policy);
    var carried := |inWindow| == 0 && |counted| > 0;
    NewestIs(counted);
    var basis := if carried then Latest(counted) else inWindow;
    var price := WeightedMedianPrice(Map(basis, Entry(units)));
    NothingCounted(counted, at, policy);
    assert basis == [] ==> Map(basis, Entry(units)) == [];
    r := PriceReading(price, Stale, NoTrades, |inWindow|, SumBy(inWindow, Notional), Newest(counted));
    if price.None? {
      return r;
    }
    if trusted.Some? && DeviationBps(price.value, trusted.value) > policy.maxPriceDeviationBps {
      return r.(note := ReferenceDivergence);
    }
    if carried {
      return r.(health := Degraded, note := Carried);
    }
    if trusted.None? {
      return r.(health := Degraded, note := NoReference);
    }
    if |inWindow| < policy.minWindowTrades {
      return r.(health := Degraded, note := Thin);
    }
    return r.(health := Healthy, note := Fine);
  }

  lemma NothingCounted(counted: seq<DexTrade>, at: int, policy: PricePolicy)
    ensures counted == [] ==> InWindow(counted, at, policy) == [] && Basis(counted, at, policy) == []
    ensures TotalWeight([]) == 0
  {
  }

  /** The same trades in any order give the same reading. */
  lemma ReadingIgnoresOrder(trades: seq<DexTrade>, shuffled: seq<DexTrade>, at: int, units: TradeUnits,
                            reference: Option<ReferencePrice>, policy: PricePolicy, r: PriceReading)
    requires multiset(trades) == multiset(shuffled)
    requires IsReading(trades, at, units, reference, policy, r)
    ensures IsReading(shuffled, at, units, reference, policy, r)
  {
    var trusted := Trusted(at, reference, policy);
    var keep := (t: DexTrade) => Counts(t, at, units, trusted, policy);
    var a, b := CountedTrades(trades, at, units, trusted, policy), CountedTrades(shuffled, at, units, trusted, policy);
    FilterPermutes(trades, shuffled, keep);
    BasisPermutes(a, b, at, policy);
    MapPermutes(Basis(a, at, policy), Basis(b, at, policy), Entry(units));
    hide Counts, IsWeightedMedian, TradePrice, Basis, InWindow, SumBy, CountedTrades, Map;
    var c, d := Map(Basis(a, at, policy), Entry(units)), Map(Basis(b, at, policy), Entry(units));
    SumByPermutes(c, d, Weight);
    if r.price.Some? {
      MedianIgnoresOrder(c, d, r.price.value);
    }
    SumByPermutes(InWindow(a, at, policy), InWindow(b, at, policy), Notional);
    SameMembers(InWindow(a, at, policy), InWindow(b, at, policy));
    NewestPermutes(a, b);
  }

  lemma BasisPermutes(a: seq<DexTrade>, b: seq<DexTrade>, at: int, policy: PricePolicy)
    requires multiset(a) == multiset(b)
    ensures multiset(InWindow(a, at, policy)) == multiset(InWindow(b, at, policy))
    ensures multiset(Basis(a, at, policy)) == multiset(Basis(b, at, policy))
  {
    FilterPermutes(a, b, (t: DexTrade) => at - t.at < policy.priceWindowMs);
    NewestPermutes(a, b);
    var newest := Newest(a);
    FilterPermutes(a, b, (t: DexTrade) => newest == Some(t.at));
    SameMembers(InWindow(a, at, policy), InWindow(b, at, policy));
    hide Newest, Filter;
  }

  /** Trades outside the quiet bound, from the future, or too small change no reading. */
  lemma ReadingIgnoresOutsiders(trades: seq<DexTrade>, extra: seq<DexTrade>, at: int, units: TradeUnits,
                                reference: Option<ReferencePrice>, policy: PricePolicy, r: PriceReading)
    requires forall t | t in extra :: t.at > at || at - t.at >= policy.maxQuietMs || t.quoteAmount < policy.minTradeQuote
    ensures IsReading(trades + extra, at, units, reference, policy, r)
       <==> IsReading(trades, at, units, reference, policy, r)
  {
    var trusted := Trusted(at, reference, policy);
    var keep := (t: DexTrade) => Counts(t, at, units, trusted, policy);
    FilterJoins(trades, extra, keep);
    forall t | t in extra
      ensures !keep(t)
    {
    }
    FilterNone(extra, keep);
    assert CountedTrades(trades + extra, at, units, trusted, policy) == CountedTrades(trades, at, units, trusted, policy);
    hide CountedTrades;
  }

  /** `p` lies less than `bps + 1` basis points of `q` away from `q`, on either side. */
  ghost predicate Near(p: int, q: int, bps: int) {
    (p - q) * BPS < (bps + 1) * q && (q - p) * BPS < (bps + 1) * q
  }

  lemma DeviationIsNear(p: int, q: int, bps: int)
    requires q > 0
    ensures DeviationBps(p, q) <= bps <==> Near(p, q, bps)
  {
    var away := if p > q then p - q else q - p;
    FloorAtLeast(away * BPS, q, bps + 1);
    if bps + 1 <= 0 {
      MulMonotone(bps + 1, 0, q);
    }
  }

  /** A trade's price is its dollars over its tokens, each in whole units, at the price scale and rounded down. */
  lemma TradePriceIs(t: DexTrade, units: TradeUnits)
    requires t.tokenAmount > 0
    ensures var p, per := TradePrice(t, units), t.tokenAmount * Pow10(units.quoteDecimals);
            p * per <= t.quoteAmount * PRICE_SCALE * Pow10(units.tokenDecimals) < p * per + per
  {
    MulMonotone(1, t.tokenAmount, Pow10(units.quoteDecimals));
    FloorIs(t.quoteAmount * PRICE_SCALE * Pow10(units.tokenDecimals), t.tokenAmount * Pow10(units.quoteDecimals), TradePrice(t, units));
  }

  lemma TenTo(n: nat)
    ensures Pow10(6) == 1_000_000 && Pow10(18) == 1_000_000_000_000_000_000
    ensures Pow10(n + 1) == 10 * Pow10(n)
  {
    assert Pow10(3) == 1_000;
    assert Pow10(6) == 1_000_000;
    assert Pow10(9) == 1_000_000_000;
    assert Pow10(12) == 1_000_000_000_000;
    assert Pow10(15) == 1_000_000_000_000_000;
    assert Pow10(18) == 1_000_000_000_000_000_000;
  }

  lemma CancelFactor(a: nat, b: nat, f: nat)
    requires b > 0 && f > 0
    ensures b * f > 0 && a * f / (b * f) == a / b
  {
    MulMonotone(1, b, f);
    var q := a / b;
    FloorIs(a, b, q);
    MulMonotone(q * b, a, f);
    MulMonotone(a + 1, q * b + b, f);
    assert (q * b) * f == q * (b * f) && (q * b + b) * f == q * (b * f) + b * f && (a + 1) * f == a * f + f;
    FloorIs(a * f, b * f, q);
  }

  /** Of a dollar with six decimals and a token with eighteen: whole dollars for whole tokens are priced at their quotient. */
  lemma DollarsForTokens(t: DexTrade, dollars: nat, tokens: nat)
    requires tokens > 0
    requires t.quoteAmount == dollars * 1_000_000 && t.tokenAmount == tokens * 1_000_000_000_000_000_000
    ensures TradePrice(t, TradeUnits(6, 18)) == dollars * 100_000_000 / tokens
  {
    TenTo(0);
    hide Pow10;
    var f := 1_000_000_000_000_000_000_000_000;
    assert t.quoteAmount * PRICE_SCALE * Pow10(18) == dollars * 100_000_000 * f;
    assert t.tokenAmount * Pow10(6) == tokens * f;
    CancelFactor(dollars * 100_000_000, tokens, f);
  }

  /** The trades that count: those of the quiet time that moved tokens and enough dollars, near a trusted reference if there is one. */
  lemma CountedIff(trades: seq<DexTrade>, at: int, units: TradeUnits, trusted: Option<int>, policy: PricePolicy, t: DexTrade)
    requires trusted.Some? ==> trusted.value > 0
    ensures t in CountedTrades(trades, at, units, trusted, policy) <==>
              && t in trades && t.at <= at < t.at + policy.maxQuietMs
              && t.tokenAmount > 0 && t.quoteAmount >= policy.minTradeQuote
              && (trusted.Some? ==> Near(TradePrice(t, units), trusted.value, policy.maxTradeDeviationBps))
    ensures multiset(CountedTrades(trades, at, units, trusted, policy)) <= multiset(trades)
  {
    var keep := (t: DexTrade) => Counts(t, at, units, trusted, policy);
    FilterHolds(trades, keep, t);
    forall x
      ensures multiset(Filter(trades, keep))[x] <= multiset(trades)[x]
    {
      FilterCounts(trades, keep, x);
    }
    if trusted.Some? && t.tokenAmount > 0 {
      DeviationIsNear(TradePrice(t, units), trusted.value, policy.maxTradeDeviationBps);
    }
    hide TradePrice, DeviationBps, Near;
  }

  /** A reference vouches while it is positive and no older than the policy allows, and otherwise for nothing. */
  lemma TrustedIff(at: int, reference: Option<ReferencePrice>, policy: PricePolicy)
    ensures var trusted := Trusted(at, reference, policy);
            && (trusted.Some? <==> reference.Some? && reference.value.price > 0 && at <= reference.value.updatedAt + policy.maxReferenceAgeMs)
            && (trusted.Some? ==> trusted.value == reference.value.price)
  {
  }

  /** What each health means of a price that was found. */
  lemma HealthIff(trades: seq<DexTrade>, at: int, units: TradeUnits, reference: Option<ReferencePrice>,
                  policy: PricePolicy, r: PriceReading)
    requires IsReading(trades, at, units, reference, policy, r) && r.price.Some?
    ensures var trusted := Trusted(at, reference, policy);
            var near := trusted.Some? ==> Near(r.price.value, trusted.value, policy.maxPriceDeviationBps);
            && (r.health == Stale <==> !near)
            && (r.health == Healthy <==> trusted.Some? && near && r.trades > 0 && r.trades >= policy.minWindowTrades)
            && (r.note == Carried <==> near && r.trades == 0)
  {
    var trusted := Trusted(at, reference, policy);
    if trusted.Some? {
      DeviationIsNear(r.price.value, trusted.value, policy.maxPriceDeviationBps);
    }
    hide Counts, IsWeightedMedian, TradePrice, SumBy, CountedTrades, Map, Near, DeviationBps, Basis;
  }

  /** The trades of the window make the price, or those of the newest instant when the window has none. */
  lemma BasisIs(counted: seq<DexTrade>, at: int, policy: PricePolicy, t: DexTrade)
    ensures t in InWindow(counted, at, policy) <==> t in counted && at < t.at + policy.priceWindowMs
    ensures t in Basis(counted, at, policy) <==>
              t in counted && if forall o | o in counted :: at >= o.at + policy.priceWindowMs then forall o | o in counted :: o.at <= t.at
                              else at < t.at + policy.priceWindowMs
  {
    var newest := Newest(counted);
    NewestIs(counted);
    forall o
      ensures o in InWindow(counted, at, policy) <==> o in counted && at < o.at + policy.priceWindowMs
    {
      FilterHolds(counted, (t: DexTrade) => at - t.at < policy.priceWindowMs, o);
    }
    FilterHolds(counted, (t: DexTrade) => newest == Some(t.at), t);
    hide InWindow, Newest;
    if InWindow(counted, at, policy) != [] {
      var o := InWindow(counted, at, policy)[0];
      assert o in counted;
    }
  }

  /** The dollars of a trade priced within a band, and of one priced at or below `q`. */
  ghost function DollarsWithin(units: TradeUnits, lo: int, hi: int): DexTrade -> int {
    (t: DexTrade) => if t.tokenAmount > 0 && lo <= TradePrice(t, units) <= hi then t.quoteAmount else 0
  }

  ghost function DollarsUpTo(units: TradeUnits, q: int): DexTrade -> int {
    (t: DexTrade) => if t.tokenAmount > 0 && TradePrice(t, units) <= q then t.quoteAmount else 0
  }

  ghost predicate Priceable(trades: seq<DexTrade>) {
    forall t | t in trades :: t.tokenAmount > 0 && t.quoteAmount >= 0
  }

  /** Entries weigh their dollars, at their own price. */
  lemma {:induction false} EntriesWeighDollars(trades: seq<DexTrade>, units: TradeUnits, lo: int, hi: int)
    requires Priceable(trades)
    ensures SumBy(Map(trades, Entry(units)), WeightWithin(lo, hi)) == SumBy(trades, DollarsWithin(units, lo, hi))
    ensures SumBy(Map(trades, Entry(units)), WeightUpTo(hi)) == SumBy(trades, DollarsUpTo(units, hi))
    ensures TotalWeight(Map(trades, Entry(units))) == SumBy(trades, Notional)
  {
    hide TradePrice;
    if trades != [] {
      assert trades[0] in trades && forall t | t in trades[1..] :: t in trades;
      EntriesWeighDollars(trades[1..], units, lo, hi);
      MapFirst(trades, Entry(units));
    }
  }

  lemma MapFirst(trades: seq<DexTrade>, f: DexTrade -> Priced)
    requires trades != []
    ensures Map(trades, f) != [] && Map(trades, f)[0] == f(trades[0]) && Map(trades, f)[1..] == Map(trades[1..], f)
  {
  }

  lemma BasisIsPriceable(trades: seq<DexTrade>, at: int, units: TradeUnits, trusted: Option<int>, policy: PricePolicy)
    requires trusted.Some? ==> trusted.value > 0
    ensures var counted := CountedTrades(trades, at, units, trusted, policy);
            Priceable(InWindow(counted, at, policy)) && Priceable(Basis(counted, at, policy))
  {
    var counted := CountedTrades(trades, at, units, trusted, policy);
    forall t | t in counted
      ensures t.tokenAmount > 0 && t.quoteAmount >= 0
    {
      CountedIff(trades, at, units, trusted, policy, t);
    }
    hide CountedTrades;
  }

  /**
   A price is the lowest at or below which half the dollars traded, of the trades it is
   made of: half or more up to it, and less than half up to any price below it.
  */
  lemma PriceIsMedianDollar(trades: seq<DexTrade>, at: int, units: TradeUnits, reference: Option<ReferencePrice>,
                            policy: PricePolicy, r: PriceReading, q: int)
    requires IsReading(trades, at, units, reference, policy, r)
    ensures var basis := Basis(CountedTrades(trades, at, units, Trusted(at, reference, policy), policy), at, policy);
            && (r.price.None? <==> SumBy(basis, Notional) == 0)
            && (r.price.Some? ==>
                  && (q >= r.price.value ==> 2 * SumBy(basis, DollarsUpTo(units, q)) >= SumBy(basis, Notional))
                  && (q < r.price.value ==> 2 * SumBy(basis, DollarsUpTo(units, q)) < SumBy(basis, Notional)))
  {
    var trusted := Trusted(at, reference, policy);
    BasisIsPriceable(trades, at, units, trusted, policy);
    var basis := Basis(CountedTrades(trades, at, units, trusted, policy), at, policy);
    EntriesWeighDollars(basis, units, 0, q);
    if r.price.Some? {
      EntriesWeighDollars(basis, units, 0, r.price.value);
      if q >= r.price.value {
        UpToGrows(Map(basis, Entry(units)), r.price.value, q);
      }
    }
    hide Basis, CountedTrades, Map, SumBy, DollarsUpTo, DollarsWithin, Notional;
  }

  lemma {:induction false} UpToGrows(priced: seq<Priced>, p: int, q: int)
    requires p <= q
    ensures SumBy(priced, WeightUpTo(p)) <= SumBy(priced, WeightUpTo(q))
  {
    if priced != [] {
      UpToGrows(priced[1..], p, q);
    }
  }

  /**
   A healthy price had a fresh reference within the integrity bound and enough
   trades in the window, and no minority of the traded value could have placed
   it: whatever band holds more than half the window's value holds the price.
   */
  lemma HealthyIsGuarded(trades: seq<DexTrade>, at: int, units: TradeUnits, reference: Option<ReferencePrice>,
                         policy: PricePolicy, r: PriceReading, lo: int, hi: int)
    requires IsReading(trades, at, units, reference, policy, r) && r.health == Healthy
    ensures reference.Some? && reference.value.price > 0 && at - reference.value.updatedAt <= policy.maxReferenceAgeMs
    ensures r.price.Some? && Near(r.price.value, reference.value.price, policy.maxPriceDeviationBps)
    ensures r.trades >= policy.minWindowTrades
    ensures var counted := CountedTrades(trades, at, units, Some(reference.value.price), policy);
            var window := InWindow(counted, at, policy);
            2 * SumBy(window, DollarsWithin(units, lo, hi)) > SumBy(window, Notional) ==> lo <= r.price.value <= hi
  {
    DeviationIsNear(r.price.value, reference.value.price, policy.maxPriceDeviationBps);
    hide Counts, IsWeightedMedian, TradePrice, SumBy, CountedTrades, Map, Near, DeviationBps, DollarsWithin;
    var counted := CountedTrades(trades, at, units, Some(reference.value.price), policy);
    var window := Map(InWindow(counted, at, policy), Entry(units));
    BasisIsPriceable(trades, at, units, Some(reference.value.price), policy);
    EntriesWeighDollars(InWindow(counted, at, policy), units, lo, hi);
    if 2 * SumBy(window, WeightWithin(lo, hi)) > TotalWeight(window) {
      MedianResistsMinority(window, lo, hi, r.price.value);
    }
  }
}

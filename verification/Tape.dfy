/**
 A recording of the market and a source that replays it:
 packages/market-data/src/tape-recorder.ts and market-tape.ts.
 */
module Tape {
  import opened Counting
  import opened DexPrice
  import opened TimeSeries
  import opened Wrappers

  /** A place in the roster. */
  type Ticker = nat
  type EventId = string

  datatype Activity = Activity(eventId: EventId, wallet: string, amount: int, blockNumber: nat, at: int)

  datatype Entry =
    | Started(version: nat, chainId: nat, wallAt: int)
    | Units(ticker: Ticker, units: TradeUnits)
    | Covered(at: int, wallAt: int)
    | Trade(ticker: Ticker, trade: DexTrade)
    | Pons(ticker: Ticker, activity: Activity)
    | Reference(ticker: Ticker, reference: ReferencePrice, readAt: int)

  datatype Clock = WallClock | ChainClock

  function IdOf(e: Entry): Option<EventId> {
    match e
    case Trade(_, t) => Some(t.eventId)
    case Pons(_, a) => Some(a.eventId)
    case _ => None
  }

  function TradeTime(t: DexTrade): int { t.at }

  function ActivityTime(a: Activity): int { a.at }

  // ---------------------------------------------------------------------
  // The timeline
  // ---------------------------------------------------------------------

  datatype Item = Item(at: int, entry: Entry)

  function ItemTime(i: Item): int { i.at }

  function MarkAt(e: Entry, clock: Clock): int
    requires e.Covered?
  {
    if clock == WallClock then e.wallAt else e.at
  }

  /** When an entry happened on chain, as far as a lag-free source would have seen it. */
  function ChainInstant(e: Entry): int {
    match e
    case Trade(_, t) => t.at
    case Pons(_, a) => a.at
    case Covered(at, _) => at
    case Reference(_, r, _) => r.updatedAt
    case _ => 0
  }

  function Shown(noted: seq<Entry>, mark: Entry, clock: Clock): seq<Item>
    requires mark.Covered?
  {
    seq(|noted|, i requires 0 <= i < |noted| => Item(if clock == WallClock then mark.wallAt else ChainInstant(noted[i]), noted[i]))
  }

  datatype Stretch = Stretch(first: int, last: int)

  /** What the tape so far shows, what waits for a mark, and the stretches read without a break. */
  datatype Reading = Reading(items: seq<Item>, pending: seq<Entry>, runs: seq<Stretch>, run: Option<Stretch>, last: Option<int>)

  const NOTHING: Reading := Reading([], [], [], None, None)

  function AllRuns(r: Reading): seq<Stretch> {
    r.runs + if r.run.Some? then [r.run.value] else []
  }

  function Read(r: Reading, e: Entry, clock: Clock): Reading {
    match e
    case Units(_, _) => r
    case Started(_, _, _) => r.(pending := [], runs := AllRuns(r), run := None)
    case Covered(_, _) =>
      var mark := MarkAt(e, clock);
      Reading(r.items + Shown(r.pending + [e], e, clock), [], r.runs,
              Some(if r.run.None? then Stretch(mark, mark) else Stretch(r.run.value.first, Max(r.run.value.last, mark))),
              Some(if r.last.None? then mark else Max(r.last.value, mark)))
    case _ => r.(pending := r.pending + [e])
  }

  function Max(a: int, b: int): int {
    if a > b then a else b
  }

  ghost function ReadAll(entries: seq<Entry>, clock: Clock): Reading
    decreases |entries|
  {
    if entries == [] then NOTHING
    else
      var n := |entries| - 1;
      Read(ReadAll(entries[..n], clock), entries[n], clock)
  }

  function UnitsIn(entries: seq<Entry>, ticker: Ticker): Option<TradeUnits>
    decreases |entries|
  {
    if entries == [] then None
    else
      var n := |entries| - 1;
      if entries[n].Units? && entries[n].ticker == ticker then Some(entries[n].units) else UnitsIn(entries[..n], ticker)
  }

  /** The order in which a tape becomes visible: as written, or by the instant on chain, ties as written. */
  ghost function Timeline(entries: seq<Entry>, clock: Clock): seq<Item> {
    var items := ReadAll(entries, clock).items;
    if clock == ChainClock then PlacedAll([], items, ItemTime) else items
  }

  // ---------------------------------------------------------------------
  // What has been revealed
  // ---------------------------------------------------------------------

  ghost function SeenIds(r: seq<Item>): set<EventId>
    decreases |r|
  {
    if r == [] then {}
    else
      var n := |r| - 1;
      SeenIds(r[..n]) + if IdOf(r[n].entry).Some? then {IdOf(r[n].entry).value} else {}
  }

  /** The last of a run of items is an event not among those before it. */
  ghost predicate NewLast(r: seq<Item>)
    requires r != []
  {
    var id := IdOf(r[|r| - 1].entry);
    id.Some? && id.value !in SeenIds(r[..|r| - 1])
  }

  /** The distinct trades of a ticker, in the order they were first revealed. */
  ghost function TradesIn(r: seq<Item>, ticker: Ticker): seq<DexTrade>
    decreases |r|
  {
    if r == [] then []
    else
      var n := |r| - 1;
      var e := r[n].entry;
      TradesIn(r[..n], ticker) + if NewLast(r) && e.Trade? && e.ticker == ticker then [e.trade] else []
  }

  ghost function ActivityIn(r: seq<Item>, ticker: Ticker): seq<Activity>
    decreases |r|
  {
    if r == [] then []
    else
      var n := |r| - 1;
      var e := r[n].entry;
      ActivityIn(r[..n], ticker) + if NewLast(r) && e.Pons? && e.ticker == ticker then [e.activity] else []
  }

  ghost function ReferenceIn(r: seq<Item>, ticker: Ticker): Option<ReferencePrice>
    decreases |r|
  {
    if r == [] then None
    else
      var n := |r| - 1;
      var e := r[n].entry;
      if e.Reference? && e.ticker == ticker then Some(e.reference) else ReferenceIn(r[..n], ticker)
  }

  /** How far the revealed marks reach, from zero. */
  ghost function CoveredIn(r: seq<Item>): int
    decreases |r|
  {
    if r == [] then 0
    else
      var n := |r| - 1;
      var before := CoveredIn(r[..n]);
      if r[n].entry.Covered? then Max(before, r[n].entry.at) else before
  }

  ghost function MinutesOf(trades: seq<DexTrade>, minTradeQuote: int): Minutes
    decreases |trades|
  {
    if trades == [] then []
    else
      var n := |trades| - 1;
      var before := MinutesOf(trades[..n], minTradeQuote);
      if trades[n].quoteAmount >= minTradeQuote then Add(before, trades[n].at / MINUTE, trades[n].quoteAmount) else before
  }

  /** A trade's part of the volume of whole minutes starting inside a span. */
  ghost function VolumePart(minTradeQuote: int, start: int, end: int): DexTrade -> int {
    (t: DexTrade) =>
      if t.quoteAmount >= minTradeQuote && CeilMinute(start) <= t.at / MINUTE && (t.at / MINUTE) * MINUTE < end then t.quoteAmount else 0
  }

  /** Volume kept by the minute is a plain filter and sum over the trades. */
  lemma {:induction false} MinutesAreSums(trades: seq<DexTrade>, minTradeQuote: int, start: int, end: int)
    ensures VolumeIn(MinutesOf(trades, minTradeQuote), CeilMinute(start), CeilMinute(end))
            == SumBy(trades, VolumePart(minTradeQuote, start, end))
    decreases |trades|
  {
    if trades != [] {
      var n := |trades| - 1;
      var t := trades[n];
      MinutesAreSums(trades[..n], minTradeQuote, start, end);
      AddCounts(MinutesOf(trades[..n], minTradeQuote), t.at / MINUTE, t.quoteAmount, CeilMinute(start), CeilMinute(end));
      CeilIs(end, t.at / MINUTE);
      SumByLast(trades, n, VolumePart(minTradeQuote, start, end));
      assert trades[..n + 1] == trades;
    }
  }

  /** How many items are visible by an instant: up to the first that is later. */
  ghost function VisibleCount(items: seq<Item>, instant: int): (n: nat)
    ensures n <= |items|
    ensures forall i | 0 <= i < n :: items[i].at <= instant
    ensures n < |items| ==> items[n].at > instant
  {
    if items == [] || items[0].at > instant then 0 else 1 + VisibleCount(items[1..], instant)
  }

  lemma NextArrival(trades: seq<DexTrade>, t: DexTrade, minTradeQuote: int)
    ensures PlacedAll([], trades + [t], TradeTime) == Placed(PlacedAll([], trades, TradeTime), t, TradeTime)
    ensures MinutesOf(trades + [t], minTradeQuote)
            == if t.quoteAmount >= minTradeQuote then Add(MinutesOf(trades, minTradeQuote), t.at / MINUTE, t.quoteAmount)
               else MinutesOf(trades, minTradeQuote)
  {
    PlacedAllUnfolds([], trades, t, TradeTime);
    assert (trades + [t])[..|trades|] == trades;
  }

  lemma LastTrade(r: seq<Item>)
    requires r != [] && r[|r| - 1].entry.Trade?
    ensures var front, e := r[..|r| - 1], r[|r| - 1].entry;
            && SeenIds(r) == SeenIds(front) + {e.trade.eventId}
            && (forall k :: TradesIn(r, k) ==
                  if k == e.ticker && e.trade.eventId !in SeenIds(front) then TradesIn(front, k) + [e.trade] else TradesIn(front, k))
            && (forall k :: ActivityIn(r, k) == ActivityIn(front, k))
            && (forall k :: ReferenceIn(r, k) == ReferenceIn(front, k))
  {
  }

  lemma LastActivity(r: seq<Item>)
    requires r != [] && r[|r| - 1].entry.Pons?
    ensures var front, e := r[..|r| - 1], r[|r| - 1].entry;
            && SeenIds(r) == SeenIds(front) + {e.activity.eventId}
            && (forall k :: TradesIn(r, k) == TradesIn(front, k))
            && (forall k :: ActivityIn(r, k) ==
                  if k == e.ticker && e.activity.eventId !in SeenIds(front) then ActivityIn(front, k) + [e.activity] else ActivityIn(front, k))
            && (forall k :: ReferenceIn(r, k) == ReferenceIn(front, k))
  {
  }

  lemma LastOther(r: seq<Item>)
    requires r != [] && !r[|r| - 1].entry.Trade? && !r[|r| - 1].entry.Pons?
    ensures var front, e := r[..|r| - 1], r[|r| - 1].entry;
            && SeenIds(r) == SeenIds(front)
            && (forall k :: TradesIn(r, k) == TradesIn(front, k))
            && (forall k :: ActivityIn(r, k) == ActivityIn(front, k))
            && (forall k :: ReferenceIn(r, k) == if e.Reference? && e.ticker == k then Some(e.reference) else ReferenceIn(front, k))
  {
  }

  /** Where revealing stops: at the first item later than the latest instant asked for. */
  lemma VisibleIs(items: seq<Item>, instant: int, n: nat)
    requires n <= |items| && (n < |items| ==> items[n].at > instant)
    requires forall i | 0 <= i < n :: items[i].at <= instant
    ensures n == VisibleCount(items, instant)
  {
    hide VisibleCount;
  }

  function Later(before: Option<int>, instant: int): int {
    if before.Some? then Max(before.value, instant) else instant
  }

  lemma NextVisible(items: seq<Item>, before: Option<int>, start: nat, instant: int, n: nat)
    requires start == if before.None? then 0 else VisibleCount(items, before.value)
    requires start <= n <= |items| && (n < |items| ==> items[n].at > instant)
    requires forall i | start <= i < n :: items[i].at <= instant
    ensures n == VisibleCount(items, Later(before, instant))
  {
    hide VisibleCount;
    if before.Some? {
      forall i | 0 <= i < start
        ensures items[i].at <= before.value
      {
      }
    }
    VisibleIs(items, Later(before, instant), n);
  }

  lemma CoveredNext(items: seq<Item>, n: nat)
    requires n < |items|
    ensures CoveredIn(items[..n + 1]) ==
              if items[n].entry.Covered? then Max(CoveredIn(items[..n]), items[n].entry.at) else CoveredIn(items[..n])
  {
    assert items[..n + 1][..n] == items[..n];
  }

  lemma {:induction false} CoveredGrows(items: seq<Item>, m: nat, n: nat)
    requires m <= n <= |items|
    ensures CoveredIn(items[..m]) <= CoveredIn(items[..n])
    decreases n - m
  {
    if m < n {
      CoveredNext(items, n - 1);
      CoveredGrows(items, m, n - 1);
    }
  }

  datatype Showing = Showing(
    seen: set<EventId>,
    dexTrades: map<Ticker, seq<DexTrade>>,
    minuteVolume: map<Ticker, Minutes>,
    pons: map<Ticker, seq<Activity>>,
    references: map<Ticker, ReferencePrice>)

  ghost predicate MakesTrades(r: seq<Item>, dexTrades: map<Ticker, seq<DexTrade>>) {
    forall k :: ListOf(dexTrades, k) == PlacedAll([], TradesIn(r, k), TradeTime)
  }

  ghost predicate MakesVolume(r: seq<Item>, minuteVolume: map<Ticker, Minutes>, minTradeQuote: int) {
    forall k :: ListOf(minuteVolume, k) == MinutesOf(TradesIn(r, k), minTradeQuote)
  }

  ghost predicate MakesActivity(r: seq<Item>, pons: map<Ticker, seq<Activity>>) {
    forall k :: ListOf(pons, k) == PlacedAll([], ActivityIn(r, k), ActivityTime)
  }

  ghost predicate MakesReferences(r: seq<Item>, references: map<Ticker, ReferencePrice>) {
    forall k :: (if k in references then Some(references[k]) else None) == ReferenceIn(r, k)
  }

  ghost predicate Makes(r: seq<Item>, v: Showing, minTradeQuote: int) {
    && v.seen == SeenIds(r) && MakesTrades(r, v.dexTrades) && MakesVolume(r, v.minuteVolume, minTradeQuote)
    && MakesActivity(r, v.pons) && MakesReferences(r, v.references)
  }

  lemma TradesShown(r: seq<Item>, dexTrades: map<Ticker, seq<DexTrade>>, list: seq<DexTrade>)
    requires r != [] && r[|r| - 1].entry.Trade? && MakesTrades(r[..|r| - 1], dexTrades)
    requires var t := r[|r| - 1].entry; list == Placed(ListOf(dexTrades, t.ticker), t.trade, TradeTime)
    ensures MakesTrades(r, if NewLast(r) then dexTrades[r[|r| - 1].entry.ticker := list] else dexTrades)
  {
    var t := r[|r| - 1].entry;
    LastTrade(r);
    NextArrival(TradesIn(r[..|r| - 1], t.ticker), t.trade, 0);
    hide TradesIn, PlacedAll, Placed, MinutesOf, SeenIds;
  }

  lemma VolumeShown(r: seq<Item>, minuteVolume: map<Ticker, Minutes>, minTradeQuote: int)
    requires r != [] && r[|r| - 1].entry.Trade? && MakesVolume(r[..|r| - 1], minuteVolume, minTradeQuote)
    ensures var t := r[|r| - 1].entry;
            MakesVolume(r, if NewLast(r) && t.trade.quoteAmount >= minTradeQuote
                           then minuteVolume[t.ticker := Add(ListOf(minuteVolume, t.ticker), t.trade.at / MINUTE, t.trade.quoteAmount)]
                           else minuteVolume, minTradeQuote)
  {
    var t := r[|r| - 1].entry;
    LastTrade(r);
    NextArrival(TradesIn(r[..|r| - 1], t.ticker), t.trade, minTradeQuote);
    hide TradesIn, PlacedAll, Placed, MinutesOf, SeenIds;
  }

  lemma ActivityShown(r: seq<Item>, pons: map<Ticker, seq<Activity>>, list: seq<Activity>)
    requires r != [] && r[|r| - 1].entry.Pons? && MakesActivity(r[..|r| - 1], pons)
    requires var t := r[|r| - 1].entry; list == Placed(ListOf(pons, t.ticker), t.activity, ActivityTime)
    ensures MakesActivity(r, if NewLast(r) then pons[r[|r| - 1].entry.ticker := list] else pons)
  {
    var t := r[|r| - 1].entry;
    LastActivity(r);
    PlacedAllUnfolds([], ActivityIn(r[..|r| - 1], t.ticker), t.activity, ActivityTime);
    hide ActivityIn, PlacedAll, Placed, SeenIds;
  }

  /** A trade changes nothing else, and neither does an activity. */
  lemma OthersShown(r: seq<Item>, v: Showing, minTradeQuote: int)
    requires r != [] && Makes(r[..|r| - 1], v, minTradeQuote)
    ensures r[|r| - 1].entry.Trade? ==> MakesActivity(r, v.pons) && MakesReferences(r, v.references)
    ensures r[|r| - 1].entry.Pons? ==> MakesTrades(r, v.dexTrades) && MakesVolume(r, v.minuteVolume, minTradeQuote) && MakesReferences(r, v.references)
  {
    if r[|r| - 1].entry.Trade? {
      LastTrade(r);
    } else if r[|r| - 1].entry.Pons? {
      LastActivity(r);
    }
    hide TradesIn, ActivityIn, ReferenceIn, PlacedAll, Placed, SeenIds, MinutesOf;
  }

  class TapeSource {
    const clock: Clock
    const minTradeQuote: int
    const timeline: seq<Item>
    const runs: seq<Stretch>
    const lastCovered: Option<int>
    const unitsOf: map<Ticker, TradeUnits>
    ghost const tape: seq<Entry>
    var next: nat
    var covered: int
    var seen: set<EventId>
    var dexTrades: map<Ticker, seq<DexTrade>>
    var minuteVolume: map<Ticker, Minutes>
    var pons: map<Ticker, seq<Activity>>
    var references: map<Ticker, ReferencePrice>
    /** The latest instant asked for. */
    ghost var reached: Option<int>

    /** The items revealed so far. */
    ghost function Revealed(): seq<Item>
      reads this
      requires next <= |timeline|
    {
      timeline[..next]
    }

    ghost function Current(): Showing
      reads this`seen, this`dexTrades, this`minuteVolume, this`pons, this`references
    {
      Showing(seen, dexTrades, minuteVolume, pons, references)
    }

    /** Every list is what the revealed items make of it. */
    ghost predicate Holds(r: seq<Item>)
      reads this`seen, this`dexTrades, this`minuteVolume, this`pons, this`references
    {
      Makes(r, Current(), minTradeQuote)
    }

    ghost function Reach(r: seq<Item>): int
      reads this
    {
      if clock == ChainClock && lastCovered.Some? && reached.Some?
      then Max(CoveredIn(r), if reached.value < lastCovered.value then reached.value else lastCovered.value)
      else CoveredIn(r)
    }

    /** What the constructor made of the tape. */
    ghost predicate Built() {
      && (forall k :: (if k in unitsOf then Some(unitsOf[k]) else None) == UnitsIn(tape, k))
      && timeline == Timeline(tape, clock) && runs == AllRuns(ReadAll(tape, clock)) && lastCovered == ReadAll(tape, clock).last
    }

    ghost predicate Valid()
      reads this
    {
      && Built() && next <= |timeline|
      && next == (if reached.None? then 0 else VisibleCount(timeline, reached.value))
      && Holds(Revealed()) && covered == Reach(Revealed())
    }

    constructor (entries: seq<Entry>, minTradeQuote: int, clock: Clock)
      ensures Valid() && tape == entries && this.clock == clock && this.minTradeQuote == minTradeQuote && reached == None
    {
      var r := NOTHING;
      var units: map<Ticker, TradeUnits> := map[];
      for i := 0 to |entries|
        invariant r == ReadAll(entries[..i], clock)
        invariant forall k :: (if k in units then Some(units[k]) else None) == UnitsIn(entries[..i], k)
      {
        assert entries[..i + 1][..i] == entries[..i];
        if entries[i].Units? {
          units := units[entries[i].ticker := entries[i].units];
        }
        r := Read(r, entries[i], clock);
      }
      assert entries[..|entries|] == entries;
      var items := r.items;
      if clock == ChainClock {
        items := SortItems(r.items);
      }
      this.clock, this.minTradeQuote, this.tape := clock, minTradeQuote, entries;
      timeline, runs, lastCovered, unitsOf := items, AllRuns(r), r.last, units;
      next, covered, seen, dexTrades, minuteVolume, pons, references := 0, 0, {}, map[], map[], map[], map[];
      reached := None;
    }

    /** A trade shows once, in its place, and counts into its minute. */
    method RevealTrade(ticker: Ticker, trade: DexTrade, ghost r: seq<Item>)
      requires r != [] && r[|r| - 1].entry == Trade(ticker, trade) && Holds(r[..|r| - 1])
      modifies this`seen, this`dexTrades, this`minuteVolume
      ensures Holds(r)
    {
      hide TradesIn, ActivityIn, ReferenceIn, MinutesOf, PlacedAll, Placed, MakesTrades, MakesVolume, MakesActivity, MakesReferences;
      ghost var before := Current();
      OthersShown(r, before, minTradeQuote);
      TradesShown(r, dexTrades, Placed(ListOf(dexTrades, ticker), trade, TradeTime));
      VolumeShown(r, minuteVolume, minTradeQuote);
      if trade.eventId !in seen {
        seen := seen + {trade.eventId};
        var list := InsertByTime(ListOf(dexTrades, ticker), trade, TradeTime);
        dexTrades := dexTrades[ticker := list];
        if trade.quoteAmount >= minTradeQuote {
          minuteVolume := minuteVolume[ticker := Add(ListOf(minuteVolume, ticker), trade.at / MINUTE, trade.quoteAmount)];
        }
      }
    }

    method RevealActivity(ticker: Ticker, activity: Activity, ghost r: seq<Item>)
      requires r != [] && r[|r| - 1].entry == Pons(ticker, activity) && Holds(r[..|r| - 1])
      modifies this`seen, this`pons
      ensures Holds(r)
    {
      hide TradesIn, ActivityIn, ReferenceIn, MinutesOf, PlacedAll, Placed, MakesTrades, MakesVolume, MakesActivity, MakesReferences;
      ghost var before := Current();
      OthersShown(r, before, minTradeQuote);
      ActivityShown(r, pons, Placed(ListOf(pons, ticker), activity, ActivityTime));
      if activity.eventId !in seen {
        seen := seen + {activity.eventId};
        var list := InsertByTime(ListOf(pons, ticker), activity, ActivityTime);
        pons := pons[ticker := list];
      }
    }

    /** Reveals one more item. */
    method Reveal()
      requires next < |timeline| && Holds(Revealed())
      modifies this`next, this`covered, this`seen, this`dexTrades, this`minuteVolume, this`pons, this`references
      ensures next == old(next) + 1 && Holds(Revealed())
      ensures covered == if timeline[old(next)].entry.Covered? then Max(old(covered), timeline[old(next)].entry.at) else old(covered)
    {
      var entry := timeline[next].entry;
      ghost var r := timeline[..next + 1];
      assert r[..|r| - 1] == timeline[..next];
      next := next + 1;
      if entry.Trade? {
        hide Holds;
        RevealTrade(entry.ticker, entry.trade, r);
      } else if entry.Pons? {
        hide Holds;
        RevealActivity(entry.ticker, entry.activity, r);
      } else {
        LastOther(r);
        hide SeenIds, TradesIn, ActivityIn, ReferenceIn, MinutesOf, PlacedAll, Placed;
        if entry.Covered? {
          if entry.at > covered {
            covered := entry.at;
          }
        } else if entry.Reference? {
          references := references[entry.ticker := entry.reference];
        }
      }
    }

    /** A stable sort: items at one instant keep the order they were read in. */
    static method SortItems(items: seq<Item>) returns (sorted: seq<Item>)
      ensures sorted == PlacedAll([], items, ItemTime)
    {
      sorted := [];
      for i := 0 to |items|
        invariant sorted == PlacedAll([], items[..i], ItemTime)
      {
        assert items[..i + 1][..i] == items[..i];
        sorted := InsertByTime(sorted, items[i], ItemTime);
      }
      assert items[..|items|] == items;
    }

    /** Reveals everything visible by `instant`; an earlier instant than before reveals nothing. */
    method SeeUntil(instant: int)
      requires Valid()
      modifies this
      ensures Valid()
      ensures reached == Some(Later(old(reached), instant))
    {
      hide Built, Holds, VisibleCount, CoveredIn;
      ghost var start := next;
      ghost var before := reached;
      RevealUntil(instant);
      CoveredGrows(timeline, start, next);
      NextVisible(timeline, before, start, instant, next);
      if clock == ChainClock && lastCovered.Some? {
        var current := if instant < lastCovered.value then instant else lastCovered.value;
        if current > covered {
          covered := current;
        }
      }
      reached := Some(Later(before, instant));
    }

    method RevealUntil(instant: int)
      requires next <= |timeline| && Holds(Revealed())
      modifies this`next, this`covered, this`seen, this`dexTrades, this`minuteVolume, this`pons, this`references
      ensures old(next) <= next <= |timeline| && Holds(Revealed())
      ensures forall i | old(next) <= i < next :: timeline[i].at <= instant
      ensures next < |timeline| ==> timeline[next].at > instant
      ensures CoveredIn(timeline[..old(next)]) <= old(covered) ==> covered == Max(old(covered), CoveredIn(Revealed()))
    {
      hide Holds, CoveredIn;
      while next < |timeline| && timeline[next].at <= instant
        invariant old(next) <= next <= |timeline| && Holds(Revealed())
        invariant forall i | old(next) <= i < next :: timeline[i].at <= instant
        invariant CoveredIn(timeline[..old(next)]) <= old(covered) ==> covered == Max(old(covered), CoveredIn(timeline[..next]))
        decreases |timeline| - next
      {
        CoveredNext(timeline, next);
        Reveal();
      }
    }

    /** The trades shown inside a span: the distinct trades revealed, in time order. */
    method Trades(ticker: Ticker, first: int, end: int) returns (r: seq<DexTrade>)
      requires Valid()
      ensures r == PlacedAll([], Filter(TradesIn(Revealed(), ticker), InSpan(first, end, TradeTime)), TradeTime)
    {
      hide Built, MakesVolume, MakesActivity, MakesReferences, SeenIds;
      ghost var shown := TradesIn(Revealed(), ticker);
      assert ListOf(dexTrades, ticker) == PlacedAll([], shown, TradeTime);
      PlacedAllIsSorted([], shown, TradeTime);
      PlacedAllFilters([], shown, InSpan(first, end, TradeTime), TradeTime);
      r := Between(ListOf(dexTrades, ticker), first, end, TradeTime);
    }

    method PonsActivity(ticker: Ticker, first: int, end: int) returns (r: seq<Activity>)
      requires Valid()
      ensures r == PlacedAll([], Filter(ActivityIn(Revealed(), ticker), InSpan(first, end, ActivityTime)), ActivityTime)
    {
      hide Built, MakesVolume, MakesTrades, MakesReferences, SeenIds;
      ghost var shown := ActivityIn(Revealed(), ticker);
      assert ListOf(pons, ticker) == PlacedAll([], shown, ActivityTime);
      PlacedAllIsSorted([], shown, ActivityTime);
      PlacedAllFilters([], shown, InSpan(first, end, ActivityTime), ActivityTime);
      r := Between(ListOf(pons, ticker), first, end, ActivityTime);
    }

    /** The volume of the whole minutes starting inside a span: a plain filter and sum over the distinct trades revealed. */
    method Notional(ticker: Ticker, start: int, end: int) returns (total: int)
      requires Valid()
      ensures total == SumBy(TradesIn(Revealed(), ticker), VolumePart(minTradeQuote, start, end))
    {
      hide Built, MakesTrades, MakesActivity, MakesReferences, SeenIds;
      assert ListOf(minuteVolume, ticker) == MinutesOf(TradesIn(Revealed(), ticker), minTradeQuote);
      MinutesAreSums(TradesIn(Revealed(), ticker), minTradeQuote, start, end);
      total := WalkEntries(ListOf(minuteVolume, ticker), CeilMinute(start), CeilMinute(end));
    }

    method ReferenceFor(ticker: Ticker) returns (r: Option<ReferencePrice>)
      requires Valid()
      ensures r == ReferenceIn(Revealed(), ticker)
    {
      hide Built, MakesTrades, MakesActivity, MakesVolume, SeenIds;
      r := if ticker in references then Some(references[ticker]) else None;
    }

    /** Whether the recorder read the whole of a span without a break. */
    method Records(first: int, last: int) returns (whole: bool)
      requires Valid()
      ensures whole == Within(AllRuns(ReadAll(tape, clock)), first, last)
      ensures MarksInOrder(tape, clock) ==> (whole <==> Enclosed(tape, clock, first, last))
    {
      if MarksInOrder(tape, clock) {
        RecordedIff(tape, clock, first, last);
      }
      hide Holds, Reach, ReadAll, Enclosed, MarksInOrder;
      whole := exists i | 0 <= i < |runs| :: runs[i].first <= first && last <= runs[i].last;
    }
  }

  ghost predicate Within(runs: seq<Stretch>, first: int, last: int) {
    exists i | 0 <= i < |runs| :: runs[i].first <= first && last <= runs[i].last
  }

  // ---------------------------------------------------------------------
  // What is shown
  // ---------------------------------------------------------------------

  ghost function By(instant: int): Item -> bool {
    (i: Item) => i.at <= instant
  }

  /** On a timeline in time order, exactly what was read by an instant is visible at it. */
  lemma VisibleIsReadByThen(items: seq<Item>, instant: int)
    requires InTime(items, ItemTime)
    ensures items[..VisibleCount(items, instant)] == Filter(items, By(instant))
  {
    var n := VisibleCount(items, instant);
    hide VisibleCount;
    forall i | 0 <= i < |items|
      ensures By(instant)(items[i]) <==> 0 <= i < n
    {
      if i > n {
        assert ItemTime(items[n]) <= ItemTime(items[i]);
      }
    }
    FilterIsStretch(items, 0, n, By(instant));
    assert items[0..n] == items[..n];
  }

  /** By the chain's clock a timeline always is in time order; every item of the tape is on it once. */
  lemma ChainTimelineInOrder(tape: seq<Entry>)
    ensures InTime(Timeline(tape, ChainClock), ItemTime)
    ensures multiset(Timeline(tape, ChainClock)) == multiset(ReadAll(tape, ChainClock).items)
  {
    PlacedAllIsSorted([], ReadAll(tape, ChainClock).items, ItemTime);
  }

  /** The item stands at the instant its entry happened on chain. */
  ghost predicate AtOwnTime(i: Item) {
    && (i.entry.Trade? ==> i.at == i.entry.trade.at)
    && (i.entry.Pons? ==> i.at == i.entry.activity.at)
    && (i.entry.Reference? ==> i.at == i.entry.reference.updatedAt)
    && (i.entry.Covered? ==> i.at == i.entry.at)
  }

  lemma {:induction false} ChainItemsAreTimed(tape: seq<Entry>)
    ensures forall i | i in ReadAll(tape, ChainClock).items :: AtOwnTime(i)
    decreases |tape|
  {
    if tape != [] {
      ChainItemsAreTimed(tape[..|tape| - 1]);
    }
  }

  /** By the chain's clock a trade is visible exactly from its own instant on, however late it was read. */
  lemma ChainShowsByOwnTime(tape: seq<Entry>, instant: int, i: Item)
    requires i.entry.Trade?
    ensures var timeline := Timeline(tape, ChainClock);
            i in timeline[..VisibleCount(timeline, instant)] <==> i in timeline && i.entry.trade.at <= instant
  {
    var timeline := Timeline(tape, ChainClock);
    ChainItemsAreTimed(tape);
    ChainTimelineInOrder(tape);
    assert i in timeline <==> i in multiset(timeline);
    assert i in ReadAll(tape, ChainClock).items <==> i in multiset(ReadAll(tape, ChainClock).items);
    hide Timeline, ReadAll, VisibleCount;
    VisibleIsReadByThen(timeline, instant);
    FilterHolds(timeline, By(instant), i);
  }

  ghost predicate DistinctTrades(trades: seq<DexTrade>) {
    forall i, j | 0 <= i < j < |trades| :: trades[i].eventId != trades[j].eventId
  }

  /** An event is shown once, however often the tape holds it, and it is shown if the tape does. */
  lemma {:induction false} TradesShownOnce(r: seq<Item>, ticker: Ticker)
    ensures DistinctTrades(TradesIn(r, ticker))
    ensures forall t | t in TradesIn(r, ticker) :: t.eventId in SeenIds(r)
    ensures forall i | 0 <= i < |r| && r[i].entry.Trade? && r[i].entry.ticker == ticker && r[i].entry.trade.eventId !in SeenIds(r[..i]) ::
              r[i].entry.trade in TradesIn(r, ticker)
    decreases |r|
  {
    if r != [] {
      var n := |r| - 1;
      TradesShownOnce(r[..n], ticker);
      forall i | 0 <= i < |r| && r[i].entry.Trade? && r[i].entry.ticker == ticker && r[i].entry.trade.eventId !in SeenIds(r[..i])
        ensures r[i].entry.trade in TradesIn(r, ticker)
      {
        if i < n {
          assert r[..n][i] == r[i] && r[..n][..i] == r[..i];
        }
      }
    }
  }

  // ---------------------------------------------------------------------
  // Which stretches were recorded
  // ---------------------------------------------------------------------

  ghost predicate IsMark(tape: seq<Entry>, i: int) {
    0 <= i < |tape| && tape[i].Covered?
  }

  /** No restart between two places of the tape. */
  ghost predicate Unbroken(tape: seq<Entry>, i: int, j: int) {
    forall k | i < k <= j && 0 <= k < |tape| :: !tape[k].Started?
  }

  ghost predicate MarksInOrder(tape: seq<Entry>, clock: Clock) {
    forall i, j | 0 <= i < j < |tape| && tape[i].Covered? && tape[j].Covered? :: MarkAt(tape[i], clock) <= MarkAt(tape[j], clock)
  }

  ghost predicate Spanned(tape: seq<Entry>, clock: Clock, run: Stretch) {
    exists i, j :: IsMark(tape, i) && IsMark(tape, j) && i <= j && Unbroken(tape, i, j)
                   && run == Stretch(MarkAt(tape[i], clock), MarkAt(tape[j], clock))
  }

  lemma SpannedLater(tape: seq<Entry>, e: Entry, clock: Clock, run: Stretch)
    requires Spanned(tape, clock, run)
    ensures Spanned(tape + [e], clock, run)
  {
    var i, j :| IsMark(tape, i) && IsMark(tape, j) && i <= j && Unbroken(tape, i, j)
                && run == Stretch(MarkAt(tape[i], clock), MarkAt(tape[j], clock));
    var more := tape + [e];
    assert more[i] == tape[i] && more[j] == tape[j];
    assert Unbroken(more, i, j) by {
      forall k | i < k <= j && 0 <= k < |more|
        ensures !more[k].Started?
      {
        assert more[k] == tape[k];
      }
    }
    assert IsMark(more, i) && IsMark(more, j);
  }

  ghost predicate AllSpanned(tape: seq<Entry>, clock: Clock, runs: seq<Stretch>) {
    forall k | 0 <= k < |runs| :: Spanned(tape, clock, runs[k])
  }

  ghost predicate MarksWithin(tape: seq<Entry>, clock: Clock, runs: seq<Stretch>) {
    forall i, j | IsMark(tape, i) && IsMark(tape, j) && i <= j && Unbroken(tape, i, j) ::
      Within(runs, MarkAt(tape[i], clock), MarkAt(tape[j], clock))
  }

  /** The open stretch holds the marks since the last restart, and starts at one of them. */
  ghost predicate OpenHolds(tape: seq<Entry>, clock: Clock, run: Option<Stretch>) {
    && (forall i | IsMark(tape, i) && Unbroken(tape, i, |tape| - 1) ::
          run.Some? && run.value.first <= MarkAt(tape[i], clock) <= run.value.last)
    && (run.Some? ==>
          exists i, j :: IsMark(tape, i) && IsMark(tape, j) && i <= j && Unbroken(tape, i, |tape| - 1)
                         && run.value == Stretch(MarkAt(tape[i], clock), MarkAt(tape[j], clock)))
  }

  /** What is known of the stretches after a tape whose marks are in order. */
  ghost predicate RunsKnown(tape: seq<Entry>, clock: Clock) {
    var r := ReadAll(tape, clock);
    && AllSpanned(tape, clock, AllRuns(r)) && MarksWithin(tape, clock, AllRuns(r)) && OpenHolds(tape, clock, r.run)
  }

  lemma UnbrokenLater(tape: seq<Entry>, e: Entry, i: int, j: int)
    requires i <= j < |tape|
    ensures Unbroken(tape + [e], i, j) <==> Unbroken(tape, i, j)
  {
    var more := tape + [e];
    assert forall k | 0 <= k < |tape| :: more[k] == tape[k];
    if Unbroken(more, i, j) {
      forall k | i < k <= j && 0 <= k < |tape|
        ensures !tape[k].Started?
      {
        assert !more[k].Started?;
      }
    }
  }

  lemma UnbrokenToEnd(tape: seq<Entry>, e: Entry, i: int)
    requires 0 <= i < |tape|
    ensures Unbroken(tape + [e], i, |tape|) <==> Unbroken(tape, i, |tape| - 1) && !e.Started?
  {
    var more := tape + [e];
    assert more[|tape|] == e;
    UnbrokenLater(tape, e, i, |tape| - 1);
    if Unbroken(tape, i, |tape| - 1) && !e.Started? {
      forall k | i < k <= |tape| && 0 <= k < |more|
        ensures !more[k].Started?
      {
        if k < |tape| { assert more[k] == tape[k]; }
      }
    }
    if Unbroken(more, i, |tape|) {
      assert Unbroken(more, i, |tape| - 1);
    }
  }

  lemma SameMarks(tape: seq<Entry>, e: Entry)
    requires !e.Covered?
    ensures forall i :: IsMark(tape + [e], i) <==> IsMark(tape, i)
    ensures forall i | IsMark(tape, i) :: (tape + [e])[i] == tape[i]
  {
  }

  lemma AllSpannedLater(tape: seq<Entry>, e: Entry, clock: Clock, runs: seq<Stretch>)
    requires AllSpanned(tape, clock, runs)
    ensures AllSpanned(tape + [e], clock, runs)
  {
    forall k | 0 <= k < |runs|
      ensures Spanned(tape + [e], clock, runs[k])
    {
      SpannedLater(tape, e, clock, runs[k]);
    }
  }

  lemma MarksWithinLater(tape: seq<Entry>, e: Entry, clock: Clock, runs: seq<Stretch>)
    requires MarksWithin(tape, clock, runs) && !e.Covered?
    ensures MarksWithin(tape + [e], clock, runs)
  {
    SameMarks(tape, e);
    forall i, j | IsMark(tape + [e], i) && IsMark(tape + [e], j) && i <= j && Unbroken(tape + [e], i, j)
      ensures Within(runs, MarkAt((tape + [e])[i], clock), MarkAt((tape + [e])[j], clock))
    {
      UnbrokenLater(tape, e, i, j);
    }
  }

  lemma OpenHoldsLater(tape: seq<Entry>, e: Entry, clock: Clock, run: Option<Stretch>)
    requires OpenHolds(tape, clock, run) && !e.Covered?
    ensures OpenHolds(tape + [e], clock, if e.Started? then None else run)
  {
    var more := tape + [e];
    hide Unbroken;
    SameMarks(tape, e);
    forall i | IsMark(more, i) && Unbroken(more, i, |more| - 1)
      ensures !e.Started? && run.Some? && run.value.first <= MarkAt(more[i], clock) <= run.value.last
    {
      UnbrokenToEnd(tape, e, i);
    }
    if !e.Started? && run.Some? {
      var i, j :| IsMark(tape, i) && IsMark(tape, j) && i <= j && Unbroken(tape, i, |tape| - 1)
                  && run.value == Stretch(MarkAt(tape[i], clock), MarkAt(tape[j], clock));
      UnbrokenToEnd(tape, e, i);
      assert IsMark(more, i) && IsMark(more, j) && Unbroken(more, i, |more| - 1);
    }
  }

  /** An entry that is no mark leaves the stretches as they are. */
  lemma NoMarkKnown(tape: seq<Entry>, e: Entry, clock: Clock)
    requires RunsKnown(tape, clock) && !e.Covered?
    ensures RunsKnown(tape + [e], clock)
  {
    hide AllSpanned, MarksWithin, OpenHolds;
    var r, after := ReadAll(tape, clock), ReadAll(tape + [e], clock);
    assert (tape + [e])[..|tape|] == tape;
    assert AllRuns(after) == AllRuns(r) && after.run == if e.Started? then None else r.run;
    hide ReadAll, AllRuns;
    AllSpannedLater(tape, e, clock, AllRuns(r));
    MarksWithinLater(tape, e, clock, AllRuns(r));
    OpenHoldsLater(tape, e, clock, r.run);
  }

  /** A mark stretches the open stretch, or opens one. */
  lemma MarkOpens(tape: seq<Entry>, e: Entry, clock: Clock, run: Option<Stretch>) returns (from: int)
    requires OpenHolds(tape, clock, run) && e.Covered? && MarksInOrder(tape + [e], clock)
    ensures IsMark(tape + [e], from) && Unbroken(tape + [e], from, |tape|)
    ensures run.Some? ==> MarkAt((tape + [e])[from], clock) == run.value.first && run.value.last <= MarkAt(e, clock)
    ensures run.None? ==> from == |tape|
  {
    from := |tape|;
    assert (tape + [e])[|tape|] == e;
    if run.Some? {
      var i, j :| IsMark(tape, i) && IsMark(tape, j) && i <= j && Unbroken(tape, i, |tape| - 1)
                  && run.value == Stretch(MarkAt(tape[i], clock), MarkAt(tape[j], clock));
      hide Unbroken;
      UnbrokenToEnd(tape, e, i);
      assert (tape + [e])[i] == tape[i] && (tape + [e])[j] == tape[j];
      from := i;
    }
  }

  /** The stretch after a mark holds every mark since the last restart. */
  lemma MarkHeld(tape: seq<Entry>, e: Entry, clock: Clock, run: Option<Stretch>, after: Stretch, i: int)
    requires OpenHolds(tape, clock, run) && e.Covered? && MarksInOrder(tape + [e], clock)
    requires after.last == MarkAt(e, clock) && after.first <= after.last && (run.Some? ==> after.first == run.value.first)
    requires IsMark(tape + [e], i) && Unbroken(tape + [e], i, |tape|)
    ensures after.first <= MarkAt((tape + [e])[i], clock) <= after.last
  {
    hide Unbroken;
    if i < |tape| {
      UnbrokenToEnd(tape, e, i);
      assert (tape + [e])[i] == tape[i] && (tape + [e])[|tape|] == e;
      assert IsMark(tape, i);
    }
  }

  lemma WithinJoined(runs: seq<Stretch>, run: Option<Stretch>, after: Stretch)
    requires run.Some? ==> after.first <= run.value.first && run.value.last <= after.last
    ensures forall first, last | Within(runs + (if run.Some? then [run.value] else []), first, last) :: Within(runs + [after], first, last)
  {
    var old_, more := runs + (if run.Some? then [run.value] else []), runs + [after];
    forall first, last | Within(old_, first, last)
      ensures Within(more, first, last)
    {
      var k :| 0 <= k < |old_| && old_[k].first <= first && last <= old_[k].last;
      assert more[k].first <= first && last <= more[k].last;
    }
  }

  lemma MarkWithin(tape: seq<Entry>, e: Entry, clock: Clock, r: Reading, after: Stretch)
    requires MarksWithin(tape, clock, AllRuns(r)) && OpenHolds(tape, clock, r.run) && e.Covered? && MarksInOrder(tape + [e], clock)
    requires after.last == MarkAt(e, clock) && after.first <= after.last
    requires r.run.Some? ==> after.first == r.run.value.first && r.run.value.last <= after.last
    ensures MarksWithin(tape + [e], clock, r.runs + [after])
  {
    var more := tape + [e];
    WithinJoined(r.runs, r.run, after);
    forall i, j | IsMark(more, i) && IsMark(more, j) && i <= j && Unbroken(more, i, j)
      ensures Within(r.runs + [after], MarkAt(more[i], clock), MarkAt(more[j], clock))
    {
      hide Unbroken, OpenHolds, MarksInOrder, Within;
      if j < |tape| {
        UnbrokenLater(tape, e, i, j);
        assert IsMark(tape, i) && IsMark(tape, j) && more[i] == tape[i] && more[j] == tape[j];
      } else {
        MarkHeld(tape, e, clock, r.run, after, i);
        LastWithin(r.runs, after, MarkAt(more[i], clock), MarkAt(more[j], clock));
      }
    }
  }

  lemma LastWithin(runs: seq<Stretch>, after: Stretch, first: int, last: int)
    requires after.first <= first && last <= after.last
    ensures Within(runs + [after], first, last)
  {
    assert (runs + [after])[|runs|] == after;
  }

  lemma MarkSpans(tape: seq<Entry>, e: Entry, clock: Clock, r: Reading, after: Stretch, from: int)
    requires AllSpanned(tape, clock, AllRuns(r)) && e.Covered?
    requires IsMark(tape + [e], from) && Unbroken(tape + [e], from, |tape|)
    requires after == Stretch(MarkAt((tape + [e])[from], clock), MarkAt(e, clock))
    ensures AllSpanned(tape + [e], clock, r.runs + [after])
  {
    AllSpannedLater(tape, e, clock, AllRuns(r));
    var more := tape + [e];
    assert more[|tape|] == e && IsMark(more, |tape|);
    forall k | 0 <= k < |r.runs + [after]|
      ensures Spanned(more, clock, (r.runs + [after])[k])
    {
      if k < |r.runs| {
        assert AllRuns(r)[k] == r.runs[k];
      }
    }
  }

  lemma MarkKnown(tape: seq<Entry>, e: Entry, clock: Clock)
    requires RunsKnown(tape, clock) && e.Covered? && MarksInOrder(tape + [e], clock)
    ensures RunsKnown(tape + [e], clock)
  {
    hide AllSpanned, MarksWithin, OpenHolds, MarksInOrder, Unbroken;
    var more := tape + [e];
    var r, after := ReadAll(tape, clock), ReadAll(more, clock);
    assert more[..|tape|] == tape && more[|tape|] == e;
    var from := MarkOpens(tape, e, clock, r.run);
    MarksSorted(more, clock, from, |tape|);
    var run := Stretch(MarkAt(more[from], clock), MarkAt(e, clock));
    assert after.run == Some(run) && AllRuns(after) == r.runs + [run];
    hide ReadAll, AllRuns;
    MarkSpans(tape, e, clock, r, run, from);
    MarkWithin(tape, e, clock, r, run);
    OpenAfterMark(tape, e, clock, r.run, run, from);
  }

  lemma MarksSorted(tape: seq<Entry>, clock: Clock, i: int, j: int)
    requires MarksInOrder(tape, clock) && IsMark(tape, i) && IsMark(tape, j) && i <= j
    ensures MarkAt(tape[i], clock) <= MarkAt(tape[j], clock)
  {
  }

  lemma OpenAfterMark(tape: seq<Entry>, e: Entry, clock: Clock, run: Option<Stretch>, after: Stretch, from: int)
    requires OpenHolds(tape, clock, run) && e.Covered? && MarksInOrder(tape + [e], clock)
    requires after.last == MarkAt(e, clock) && after.first <= after.last && (run.Some? ==> after.first == run.value.first)
    requires IsMark(tape + [e], from) && Unbroken(tape + [e], from, |tape|) && after.first == MarkAt((tape + [e])[from], clock)
    ensures OpenHolds(tape + [e], clock, Some(after))
  {
    var more := tape + [e];
    assert more[|tape|] == e && IsMark(more, |tape|);
    forall i | IsMark(more, i) && Unbroken(more, i, |more| - 1)
      ensures after.first <= MarkAt(more[i], clock) <= after.last
    {
      MarkHeld(tape, e, clock, run, after, i);
    }
    assert IsMark(more, from) && IsMark(more, |tape|) && from <= |tape| && Unbroken(more, from, |more| - 1)
           && after == Stretch(MarkAt(more[from], clock), MarkAt(more[|tape|], clock));
  }

  lemma {:induction false} RunsAreKnown(tape: seq<Entry>, clock: Clock)
    requires MarksInOrder(tape, clock)
    ensures RunsKnown(tape, clock)
    decreases |tape|
  {
    if tape != [] {
      var n := |tape| - 1;
      var front, e := tape[..n], tape[n];
      assert front + [e] == tape;
      RunsAreKnown(front, clock);
      if e.Covered? {
        MarkKnown(front, e, clock);
      } else {
        NoMarkKnown(front, e, clock);
      }
    }
  }

  /** Two marks with no restart between them enclose the stretch, by the clock on the wall or the chain's. */
  ghost predicate Enclosed(tape: seq<Entry>, clock: Clock, first: int, last: int) {
    exists i, j :: IsMark(tape, i) && IsMark(tape, j) && i <= j && Unbroken(tape, i, j)
                   && if clock.WallClock? then tape[i].wallAt <= first && last <= tape[j].wallAt
                      else tape[i].at <= first && last <= tape[j].at
  }

  lemma WithinIsEnclosed(tape: seq<Entry>, clock: Clock, runs: seq<Stretch>, first: int, last: int)
    requires AllSpanned(tape, clock, runs) && Within(runs, first, last)
    ensures Enclosed(tape, clock, first, last)
  {
    hide Unbroken;
    var k :| 0 <= k < |runs| && runs[k].first <= first && last <= runs[k].last;
    assert Spanned(tape, clock, runs[k]);
  }

  lemma EnclosedIsWithin(tape: seq<Entry>, clock: Clock, runs: seq<Stretch>, first: int, last: int)
    requires MarksWithin(tape, clock, runs) && Enclosed(tape, clock, first, last)
    ensures Within(runs, first, last)
  {
    hide Unbroken;
    var i, j :| IsMark(tape, i) && IsMark(tape, j) && i <= j && Unbroken(tape, i, j)
                && MarkAt(tape[i], clock) <= first && last <= MarkAt(tape[j], clock);
    var k :| 0 <= k < |runs| && runs[k].first <= MarkAt(tape[i], clock) && MarkAt(tape[j], clock) <= runs[k].last;
  }

  /** A stretch counts as recorded exactly when two marks without a restart between them enclose it. */
  lemma RecordedIff(tape: seq<Entry>, clock: Clock, first: int, last: int)
    requires MarksInOrder(tape, clock)
    ensures Within(AllRuns(ReadAll(tape, clock)), first, last) <==> Enclosed(tape, clock, first, last)
  {
    RunsAreKnown(tape, clock);
    hide AllSpanned, MarksWithin, OpenHolds, ReadAll, AllRuns, Within, Enclosed, MarksInOrder;
    var runs := AllRuns(ReadAll(tape, clock));
    if Within(runs, first, last) {
      WithinIsEnclosed(tape, clock, runs, first, last);
    }
    if Enclosed(tape, clock, first, last) {
      EnclosedIsWithin(tape, clock, runs, first, last);
    }
  }
}

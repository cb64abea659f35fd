/** Recording and replaying together: a recorder's lives, replayed on the wall clock. */
module TapeReplay {
  import opened Counting
  import opened DexPrice
  import opened Tape
  import opened TapeRecorder
  import opened TimeSeries
  import opened Wrappers

  // packages/market-data/src/tape-recorder.ts and market-tape.ts, restarts and
  // crashes between one life and the next.

  /** One run of a recorder: its header, its snapshots, and the entries a crash left without their mark. */
  datatype Life = Life(header: seq<Entry>, views: seq<View>, torn: seq<Entry>)

  ghost predicate IsHeader(es: seq<Entry>) {
    es != [] && es[0].Started? && forall i | 0 < i < |es| :: es[i].Units?
  }

  ghost predicate Recorded(lives: seq<Life>) {
    forall l | l in lives :: IsHeader(l.header) && AllContent(l.torn)
  }

  ghost function LifeTape(l: Life): seq<Entry> {
    l.header + Written(l.views) + l.torn
  }

  ghost function TapeOf(lives: seq<Life>): seq<Entry>
    decreases |lives|
  {
    if lives == [] then []
    else
      var n := |lives| - 1;
      TapeOf(lives[..n]) + LifeTape(lives[n])
  }

  ghost function ItemsOf(lives: seq<Life>, clock: Clock): seq<Item>
    decreases |lives|
  {
    if lives == [] then []
    else
      var n := |lives| - 1;
      ItemsOf(lives[..n], clock) + LifeItems(lives[n].views, clock)
  }

  // ---------------------------------------------------------------------
  // The tape read back
  // ---------------------------------------------------------------------

  /** A restart drops what was never marked, and nothing else. */
  lemma {:induction false} RestartKeeps(tape: seq<Entry>, header: seq<Entry>, clock: Clock)
    requires IsHeader(header)
    ensures var r := ReadAll(tape + header, clock); r.pending == [] && r.items == ReadAll(tape, clock).items
    decreases |header|
  {
    var n := |header| - 1;
    if n > 0 {
      RestartKeeps(tape, header[..n], clock);
    }
    FrontAndLast(header);
    Regroup(tape, header[..n], [header[n]]);
    ReadNext(tape + header[..n], header[n], clock);
    assert n == 0 ==> tape + header[..n] == tape;
  }

  /** A life adds its snapshots, each at its mark; entries without a mark never show. */
  lemma LifeAdds(tape: seq<Entry>, l: Life, clock: Clock)
    requires IsHeader(l.header) && AllContent(l.torn)
    ensures ReadAll(tape + LifeTape(l), clock).items == ReadAll(tape, clock).items + LifeItems(l.views, clock)
  {
    hide Written, ReadAll, LifeItems, IsHeader, AllContent;
    RestartKeeps(tape, l.header, clock);
    LifeIsVisible(tape + l.header, l.views, clock);
    PendingGrows(tape + l.header + Written(l.views), l.torn, clock);
    Regroup(tape, l.header + Written(l.views), l.torn);
    Regroup(tape, l.header, Written(l.views));
  }

  /** The timeline of a tape is its lives' snapshots, one after another. */
  lemma {:induction false} TapeIsVisible(lives: seq<Life>, clock: Clock)
    requires Recorded(lives)
    ensures ReadAll(TapeOf(lives), clock).items == ItemsOf(lives, clock)
    decreases |lives|
  {
    hide ReadAll, LifeItems, LifeTape, IsHeader, AllContent;
    if lives == [] {
      EmptyTape(clock);
    } else {
      var n := |lives| - 1;
      var front, l := lives[..n], lives[n];
      assert l in lives && forall x | x in front :: x in lives;
      TapeIsVisible(front, clock);
      LifeAdds(TapeOf(front), l, clock);
    }
  }

  lemma EmptyTape(clock: Clock)
    ensures ReadAll([], clock).items == []
  {
  }

  // ---------------------------------------------------------------------
  // When each item becomes visible
  // ---------------------------------------------------------------------

  /** The item is one of those snapshot `k` wrote, shown when it was taken. */
  ghost predicate FromSnapshot(views: seq<View>, k: int, i: Item) {
    0 <= k < |views| && i.at == views[k].now && i.entry in Entries(MemoryAfter(views[..k]), views[k])
  }

  lemma FromLater(front: seq<View>, v: View, k: int, i: Item)
    ensures FromSnapshot(front + [v], k, i)
            <==> FromSnapshot(front, k, i) || (k == |front| && i.at == v.now && i.entry in Entries(MemoryAfter(front), v))
  {
    hide MemoryAfter, Entries;
    var views := front + [v];
    if 0 <= k < |front| {
      assert views[..k] == front[..k];
    } else if k == |front| {
      assert views[..k] == front;
    }
  }

  lemma ShownHolds(noted: seq<Entry>, mark: Entry, i: Item)
    requires mark.Covered?
    ensures i in Shown(noted, mark, WallClock) <==> i.at == mark.wallAt && i.entry in noted
  {
    var shown := Shown(noted, mark, WallClock);
    assert |shown| == |noted| && forall k | 0 <= k < |noted| :: shown[k] == Item(mark.wallAt, noted[k]);
    if i.at == mark.wallAt && i.entry in noted {
      var k :| 0 <= k < |noted| && noted[k] == i.entry;
      assert shown[k] == i;
    }
  }

  lemma {:induction false} LifeItemsHold(views: seq<View>, i: Item)
    ensures i in LifeItems(views, WallClock) <==> exists k :: FromSnapshot(views, k, i)
    decreases |views|
  {
    if views != [] {
      var n := |views| - 1;
      var front, v := views[..n], views[n];
      LifeItemsHold(front, i);
      FrontAndLast(views);
      var mark := Covered(v.covered, v.now);
      var entries := Entries(MemoryAfter(front), v);
      ShownHolds(entries, mark, i);
      assert LifeItems(views, WallClock) == LifeItems(front, WallClock) + Shown(entries, mark, WallClock);
      hide LifeItems, Shown, FromSnapshot, Entries, MemoryAfter;
      forall k
        ensures FromSnapshot(views, k, i) <==> FromSnapshot(front, k, i) || (k == n && i.at == v.now && i.entry in entries)
      {
        FromLater(front, v, k, i);
      }
      assert FromSnapshot(views, n, i) <== i.at == v.now && i.entry in entries;
    }
  }

  ghost predicate FromLife(lives: seq<Life>, m: int, i: Item) {
    0 <= m < |lives| && i in LifeItems(lives[m].views, WallClock)
  }

  lemma {:induction false} ItemsHold(lives: seq<Life>, i: Item)
    ensures i in ItemsOf(lives, WallClock) <==> exists m :: FromLife(lives, m, i)
    decreases |lives|
  {
    if lives != [] {
      var n := |lives| - 1;
      var front := lives[..n];
      ItemsHold(front, i);
      hide LifeItems;
      forall m
        ensures FromLife(lives, m, i) <==> FromLife(front, m, i) || (m == n && i in LifeItems(lives[n].views, WallClock))
      {
      }
      assert FromLife(lives, n, i) <== i in LifeItems(lives[n].views, WallClock);
    }
  }

  /** Snapshots are taken one after another, within a life and from one life to the next. */
  ghost predicate TakenInOrder(lives: seq<Life>) {
    && (forall l | l in lives :: ViewsInOrder(l.views))
    && (forall l, m | 0 <= l < m < |lives| :: AllBefore(lives[l].views, lives[m].views))
  }

  ghost predicate ViewsInOrder(views: seq<View>) {
    forall j, k | 0 <= j <= k < |views| :: views[j].now <= views[k].now
  }

  ghost predicate AllBefore(a: seq<View>, b: seq<View>) {
    forall v, w | v in a && w in b :: v.now <= w.now
  }

  lemma JoinInTime(a: seq<Item>, b: seq<Item>)
    requires InTime(a, ItemTime) && InTime(b, ItemTime)
    requires forall x, y | x in a && y in b :: x.at <= y.at
    ensures InTime(a + b, ItemTime)
  {
  }

  lemma ItemAtSnapshot(views: seq<View>, i: Item)
    requires i in LifeItems(views, WallClock)
    ensures exists v :: v in views && v.now == i.at
  {
    LifeItemsHold(views, i);
    hide LifeItems;
    var k :| FromSnapshot(views, k, i);
    assert views[k] in views;
  }

  lemma ShownInTime(noted: seq<Entry>, mark: Entry)
    requires mark.Covered?
    ensures InTime(Shown(noted, mark, WallClock), ItemTime)
  {
  }

  lemma {:induction false} LifeInTime(views: seq<View>)
    requires ViewsInOrder(views)
    ensures InTime(LifeItems(views, WallClock), ItemTime)
    decreases |views|
  {
    if views != [] {
      var n := |views| - 1;
      var front, v := views[..n], views[n];
      LifeInTime(front);
      var mark := Covered(v.covered, v.now);
      var entries := Entries(MemoryAfter(front), v);
      var before, last := LifeItems(front, WallClock), Shown(entries, mark, WallClock);
      assert LifeItems(views, WallClock) == before + last;
      ShownInTime(entries, mark);
      forall x, y | x in before && y in last
        ensures x.at <= y.at
      {
        ItemAtSnapshot(front, x);
        ShownHolds(entries, mark, y);
        var w :| w in front && w.now == x.at;
        var j :| 0 <= j < n && views[j] == w;
      }
      hide LifeItems, Shown, Entries, MemoryAfter;
      JoinInTime(before, last);
    }
  }

  lemma FrontInOrder(lives: seq<Life>)
    requires lives != [] && TakenInOrder(lives)
    ensures var n := |lives| - 1;
            && TakenInOrder(lives[..n]) && ViewsInOrder(lives[n].views)
            && forall m | 0 <= m < n :: AllBefore(lives[..n][m].views, lives[n].views)
  {
    hide ViewsInOrder, AllBefore;
    var n := |lives| - 1;
    assert lives[n] in lives && forall l | l in lives[..n] :: l in lives;
  }

  lemma ItemsMeet(front: seq<Life>, views: seq<View>, x: Item, y: Item)
    requires forall m | 0 <= m < |front| :: AllBefore(front[m].views, views)
    requires x in ItemsOf(front, WallClock) && y in LifeItems(views, WallClock)
    ensures x.at <= y.at
  {
    hide LifeItems, ItemsOf;
    ItemsHold(front, x);
    var m :| FromLife(front, m, x);
    ItemAtSnapshot(front[m].views, x);
    ItemAtSnapshot(views, y);
  }

  lemma {:induction false} ItemsInTime(lives: seq<Life>)
    requires TakenInOrder(lives)
    ensures InTime(ItemsOf(lives, WallClock), ItemTime)
    decreases |lives|
  {
    hide LifeItems, TakenInOrder, ViewsInOrder, AllBefore;
    if lives != [] {
      var n := |lives| - 1;
      var front := lives[..n];
      FrontInOrder(lives);
      ItemsInTime(front);
      LifeInTime(lives[n].views);
      var before, last := ItemsOf(front, WallClock), LifeItems(lives[n].views, WallClock);
      assert ItemsOf(lives, WallClock) == before + last;
      hide InTime, ItemsOf;
      forall x, y | x in before && y in last
        ensures x.at <= y.at
      {
        ItemsMeet(front, lives[n].views, x, y);
      }
      JoinInTime(before, last);
    }
  }

  // ---------------------------------------------------------------------
  // What was offered was noted
  // ---------------------------------------------------------------------

  /** Some snapshot of the first `k` wrote the event. */
  ghost predicate NotedBy(views: seq<View>, k: int, id: EventId) {
    exists j, e :: 0 <= j < k <= |views| && NotedAt(views, j, e) && IdOf(e) == Some(id)
  }

  ghost predicate NotedAt(views: seq<View>, j: int, e: Entry) {
    0 <= j < |views| && e in PassOver(MemoryAfter(views[..j]), views[j]).out
  }

  /** After a pass over some entries every event among them is remembered, and whatever is remembered was before or is written now. */
  lemma {:induction false} PassRemembers(p: Pass, es: seq<Entry>)
    ensures var q := NoteAll(p, es);
            && (forall e | e in es && IdOf(e).Some? :: IdOf(e).value in q.written)
            && (forall id | id in p.written :: id in q.written)
            && (forall id | id in q.written :: id in p.written || exists e :: e in q.out && IdOf(e) == Some(id))
            && (forall e | e in p.out :: e in q.out)
    decreases |es|
  {
    if es != [] {
      var n := |es| - 1;
      var e := es[n];
      PassRemembers(p, es[..n]);
      var q, r := NoteAll(p, es[..n]), NoteAll(p, es);
      assert r == Note(q, e);
      hide NoteAll;
      assert forall x | x in q.out :: x in r.out;
      if IdOf(e).Some? && IdOf(e).value !in q.written {
        assert e in r.out;
      }
      FrontAndLast(es);
    }
  }

  lemma {:induction false} RememberedWasNoted(views: seq<View>, k: nat)
    requires k <= |views|
    ensures forall id | id in MemoryAfter(views[..k]).written :: NotedBy(views, k, id)
    decreases k
  {
    if k > 0 {
      RememberedWasNoted(views, k - 1);
      var front, v := views[..k - 1], views[k - 1];
      assert views[..k][..k - 1] == front;
      var m := MemoryAfter(front);
      var es := OfferedAll(v.holdings, LooksFrom(m), v.now);
      PassRemembers(Pass(m.written, m.lastReference, []), es);
      assert MemoryAfter(views[..k]) == After(m, v);
      hide OfferedAll, MemoryAfter, NoteAll;
      forall id | id in After(m, v).written
        ensures NotedBy(views, k, id)
      {
        if id in m.written {
          NotedLater(views, k - 1, k, id);
        } else {
          var e :| e in PassOver(m, v).out && IdOf(e) == Some(id);
          assert NotedAt(views, k - 1, e);
        }
      }
    }
  }

  lemma NotedLater(views: seq<View>, j: int, k: int, id: EventId)
    requires NotedBy(views, j, id) && j <= k <= |views|
    ensures NotedBy(views, k, id)
  {
  }

  /** What a snapshot offers is written by then. */
  lemma OfferedIsNoted(views: seq<View>, k: nat, e: Entry)
    requires k < |views| && IsOffered(views[k], LooksFrom(MemoryAfter(views[..k])), e)
    ensures NotedBy(views, k + 1, IdOf(e).value)
  {
    var m, v, id := MemoryAfter(views[..k]), views[k], IdOf(e).value;
    var es := OfferedAll(v.holdings, LooksFrom(m), v.now);
    PassRemembers(Pass(m.written, m.lastReference, []), es);
    RememberedWasNoted(views, k);
    hide OfferedAll, MemoryAfter, NoteAll;
    if id in m.written {
      NotedLater(views, k, k + 1, id);
    } else {
      var x :| x in PassOver(m, v).out && IdOf(x) == Some(id);
      assert NotedAt(views, k, x);
    }
  }

  /** How far a recorder that took these snapshots has read. */
  lemma {:induction false} ReadSoFar(views: seq<View>, at: int)
    requires at >= 0 && forall v | v in views :: v.covered <= at + 300_000
    ensures LooksFrom(MemoryAfter(views)) <= at
    decreases |views|
  {
    if views != [] {
      var n := |views| - 1;
      assert views[n] in views && forall v | v in views[..n] :: v in views;
      ReadSoFar(views[..n], at);
      hide PassOver;
    }
  }

  /** Whatever a source holds of the last five minutes of what was read before, a snapshot notes if it was not noted. */
  lemma LateEventsAreNoted(views: seq<View>, k: nat, h: nat, at: int)
    requires k < |views| && h < |views[k].holdings| && at >= 0
    requires forall j | 0 <= j < k :: views[j].covered <= at + 300_000
    ensures forall t | t in views[k].holdings[h].trades && t.at >= at :: NotedBy(views, k + 1, t.eventId)
    ensures forall a | a in views[k].holdings[h].activity && a.at >= at :: NotedBy(views, k + 1, a.eventId)
  {
    var v := views[k];
    var held, from := v.holdings[h], LooksFrom(MemoryAfter(views[..k]));
    ReadSoFar(views[..k], at);
    hide MemoryAfter, LooksFrom, NotedBy;
    forall t | t in held.trades && t.at >= at
      ensures NotedBy(views, k + 1, t.eventId)
    {
      HeldIsOffered(held, from, v.now, Trade(held.ticker, t));
      OfferedOfOne(v.holdings, h, from, v.now, Trade(held.ticker, t));
      OfferedIsNoted(views, k, Trade(held.ticker, t));
    }
    forall a | a in held.activity && a.at >= at
      ensures NotedBy(views, k + 1, a.eventId)
    {
      HeldIsOffered(held, from, v.now, Pons(held.ticker, a));
      OfferedOfOne(v.holdings, h, from, v.now, Pons(held.ticker, a));
      OfferedIsNoted(views, k, Pons(held.ticker, a));
    }
  }

  lemma HeldIsOffered(held: Holding, from: int, now: int, e: Entry)
    requires e.Trade? ==> e.ticker == held.ticker && e.trade in held.trades && e.trade.at >= from
    requires e.Pons? ==> e.ticker == held.ticker && e.activity in held.activity && e.activity.at >= from
    requires e.Trade? || e.Pons?
    ensures e in Offered(held, from, now)
  {
    var trades, activity := Filter(held.trades, Since(from, TradeTime)), Filter(held.activity, Since(from, ActivityTime));
    if e.Trade? {
      FilterHolds(held.trades, Since(from, TradeTime), e.trade);
      var i :| 0 <= i < |trades| && trades[i] == e.trade;
      assert TradeEntries(held.ticker, trades)[i] == e;
    } else {
      FilterHolds(held.activity, Since(from, ActivityTime), e.activity);
      var i :| 0 <= i < |activity| && activity[i] == e.activity;
      assert ActivityEntries(held.ticker, activity)[i] == e;
    }
    hide Filter;
  }

  lemma {:induction false} OfferedOfOne(hs: seq<Holding>, h: nat, from: int, now: int, e: Entry)
    requires h < |hs| && e in Offered(hs[h], from, now)
    ensures e in OfferedAll(hs, from, now)
    decreases |hs|
  {
    hide Offered;
    if h < |hs| - 1 {
      OfferedOfOne(hs[..|hs| - 1], h, from, now, e);
    }
  }

  // ---------------------------------------------------------------------
  // The replay
  // ---------------------------------------------------------------------

  /** Some snapshot taken by `instant` was offered the event, inside the overlap it looks back over. */
  ghost predicate ReadBy(lives: seq<Life>, instant: int, e: Entry) {
    exists m, k :: ReadAt(lives, m, k, e) && lives[m].views[k].now <= instant
  }

  ghost predicate ReadAt(lives: seq<Life>, m: int, k: int, e: Entry) {
    && 0 <= m < |lives| && 0 <= k < |lives[m].views|
    && IsOffered(lives[m].views[k], LooksFrom(MemoryAfter(lives[m].views[..k])), e)
  }

  /** What a replay of the tape shows at an instant. */
  ghost function VisibleAt(lives: seq<Life>, instant: int): seq<Item> {
    var timeline := Timeline(TapeOf(lives), WallClock);
    timeline[..VisibleCount(timeline, instant)]
  }

  lemma {:induction false} SeenIdsHold(r: seq<Item>, id: EventId)
    ensures id in SeenIds(r) <==> exists i :: i in r && IdOf(i.entry) == Some(id)
    decreases |r|
  {
    if r != [] {
      SeenIdsHold(r[..|r| - 1], id);
      FrontAndLast(r);
    }
  }

  lemma VisibleHolds(lives: seq<Life>, instant: int, i: Item)
    requires Recorded(lives) && TakenInOrder(lives)
    ensures i in VisibleAt(lives, instant) <==> i.at <= instant && exists m :: FromLife(lives, m, i)
  {
    TapeIsVisible(lives, WallClock);
    ItemsInTime(lives);
    ItemsHold(lives, i);
    var timeline := Timeline(TapeOf(lives), WallClock);
    assert timeline == ItemsOf(lives, WallClock);
    hide TapeOf, ItemsOf, ReadAll, InTime;
    VisibleIsReadByThen(timeline, instant);
    FilterHolds(timeline, By(instant), i);
  }

  /** Whatever event is visible was read by then. */
  lemma VisibleWasRead(lives: seq<Life>, instant: int, i: Item)
    requires Recorded(lives) && TakenInOrder(lives)
    requires i in VisibleAt(lives, instant) && IdOf(i.entry).Some?
    ensures ReadBy(lives, instant, i.entry)
  {
    VisibleHolds(lives, instant, i);
    hide VisibleAt, LifeItems, MemoryAfter;
    var m :| FromLife(lives, m, i);
    var views := lives[m].views;
    LifeItemsHold(views, i);
    var k :| FromSnapshot(views, k, i);
    var memory, v := MemoryAfter(views[..k]), views[k];
    OutWasOffered(Pass(memory.written, memory.lastReference, []), OfferedAll(v.holdings, LooksFrom(memory), v.now));
    assert ReadAt(lives, m, k, i.entry);
  }

  /** Whatever event was read by then is visible. */
  lemma ReadIsVisible(lives: seq<Life>, instant: int, e: Entry) returns (i: Item)
    requires Recorded(lives) && TakenInOrder(lives) && ReadBy(lives, instant, e)
    ensures i in VisibleAt(lives, instant) && IdOf(e).Some? && IdOf(i.entry) == IdOf(e)
  {
    hide VisibleAt, LifeItems, MemoryAfter, OfferedAll, PassOver;
    var m, k :| ReadAt(lives, m, k, e) && lives[m].views[k].now <= instant;
    var views := lives[m].views;
    OfferedIsNoted(views, k, e);
    var j, x :| 0 <= j < k + 1 <= |views| && NotedAt(views, j, x) && IdOf(x) == Some(IdOf(e).value);
    i := Item(views[j].now, x);
    assert FromSnapshot(views, j, i);
    LifeItemsHold(views, i);
    assert FromLife(lives, m, i);
    assert lives[m] in lives && ViewsInOrder(views);
    VisibleHolds(lives, instant, i);
  }

  /**
   Across restarts and crashes, a replay on the wall clock has shown at an instant
   exactly the events read by then: each once, as it was read.
  */
  lemma ReplayShows(lives: seq<Life>, instant: int, id: EventId, ticker: Ticker)
    requires Recorded(lives) && TakenInOrder(lives)
    ensures id in SeenIds(VisibleAt(lives, instant)) <==> exists e :: ReadBy(lives, instant, e) && IdOf(e) == Some(id)
    ensures DistinctTrades(TradesIn(VisibleAt(lives, instant), ticker))
    ensures forall t | t in TradesIn(VisibleAt(lives, instant), ticker) :: ReadBy(lives, instant, Trade(ticker, t))
  {
    var r := VisibleAt(lives, instant);
    hide VisibleAt, ReadBy;
    SeenIdsHold(r, id);
    if id in SeenIds(r) {
      var i :| i in r && IdOf(i.entry) == Some(id);
      VisibleWasRead(lives, instant, i);
    }
    if e :| ReadBy(lives, instant, e) && IdOf(e) == Some(id) {
      var i := ReadIsVisible(lives, instant, e);
    }
    TradesShownOnce(r, ticker);
    forall t | t in TradesIn(r, ticker)
      ensures ReadBy(lives, instant, Trade(ticker, t))
    {
      var i := TradeShownFrom(r, ticker, t);
      VisibleWasRead(lives, instant, i);
    }
  }

  lemma {:induction false} TradeShownFrom(r: seq<Item>, ticker: Ticker, t: DexTrade) returns (i: Item)
    requires t in TradesIn(r, ticker)
    ensures i in r && i.entry == Trade(ticker, t)
    decreases |r|
  {
    var n := |r| - 1;
    if t in TradesIn(r[..n], ticker) {
      i := TradeShownFrom(r[..n], ticker, t);
    } else {
      i := r[n];
    }
  }

  /** An id names one trade of one ticker, or one activity, however the source dates it. */
  ghost predicate IdsName(lives: seq<Life>, instant: int) {
    forall a, b | ReadBy(lives, instant, a) && ReadBy(lives, instant, b) && SameEvent(a, b) ::
      (a.Trade? <==> b.Trade?) && a.ticker == b.ticker
  }

  lemma {:induction false} FirstWithId(r: seq<Item>, id: EventId) returns (k: nat)
    requires id in SeenIds(r)
    ensures k < |r| && IdOf(r[k].entry) == Some(id) && id !in SeenIds(r[..k])
    decreases |r|
  {
    var n := |r| - 1;
    if id in SeenIds(r[..n]) {
      k := FirstWithId(r[..n], id);
      assert r[..n][..k] == r[..k];
    } else {
      k := n;
    }
  }

  /** Every trade of a ticker read by an instant is among those shown at it. */
  lemma ReadTradesAreShown(lives: seq<Life>, instant: int, ticker: Ticker, t: DexTrade)
    requires Recorded(lives) && TakenInOrder(lives) && IdsName(lives, instant)
    requires ReadBy(lives, instant, Trade(ticker, t))
    ensures exists s :: s in TradesIn(VisibleAt(lives, instant), ticker) && s.eventId == t.eventId
  {
    var r, id := VisibleAt(lives, instant), t.eventId;
    hide VisibleAt, ReadBy;
    ReplayShows(lives, instant, id, ticker);
    assert IdOf(Trade(ticker, t)) == Some(id);
    var k := FirstWithId(r, id);
    VisibleWasRead(lives, instant, r[k]);
    assert SameEvent(r[k].entry, Trade(ticker, t));
    TradesShownOnce(r, ticker);
    assert r[k].entry.trade in TradesIn(r, ticker);
  }
}

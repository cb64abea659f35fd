/**
 Turning a live source into a tape, packages/market-data/src/tape-recorder.ts:
 what is new at each read, judged by event id over a trailing overlap.
 */
module TapeRecorder {
  import opened Counting
  import opened DexPrice
  import opened Tape
  import opened TimeSeries
  import opened Wrappers

  const OVERLAP_MS: int := 5 * 60_000

  /** What the source holds of one ticker. */
  datatype Holding = Holding(ticker: Ticker, reference: Option<ReferencePrice>, trades: seq<DexTrade>, activity: seq<Activity>)

  /** The source at one snapshot, ticker by ticker, how far it has read, and the wall clock. */
  datatype View = View(holdings: seq<Holding>, covered: int, now: int)

  datatype Memory = Memory(lastCovered: int, written: map<EventId, int>, lastReference: map<Ticker, ReferencePrice>)

  const BLANK: Memory := Memory(0, map[], map[])

  function TimeOf(e: Entry): int {
    match e
    case Trade(_, t) => t.at
    case Pons(_, a) => a.at
    case _ => 0
  }

  /** What one pass has written so far. */
  datatype Pass = Pass(written: map<EventId, int>, lastReference: map<Ticker, ReferencePrice>, out: seq<Entry>)

  /** An entry is written if it is an event not yet written, or a reference that changed. */
  function Note(p: Pass, e: Entry): Pass {
    match e
    case Reference(ticker, r, _) =>
      if ticker in p.lastReference && p.lastReference[ticker] == r then p
      else p.(lastReference := p.lastReference[ticker := r], out := p.out + [e])
    case _ =>
      var id := IdOf(e);
      if id.None? || id.value in p.written then p
      else p.(written := p.written[id.value := TimeOf(e)], out := p.out + [e])
  }

  ghost function NoteAll(p: Pass, es: seq<Entry>): Pass
    decreases |es|
  {
    if es == [] then p
    else
      var n := |es| - 1;
      Note(NoteAll(p, es[..n]), es[n])
  }

  function TradeEntries(ticker: Ticker, trades: seq<DexTrade>): seq<Entry> {
    seq(|trades|, i requires 0 <= i < |trades| => Trade(ticker, trades[i]))
  }

  function ActivityEntries(ticker: Ticker, activity: seq<Activity>): seq<Entry> {
    seq(|activity|, i requires 0 <= i < |activity| => Pons(ticker, activity[i]))
  }

  /** One ticker's entries: its reference, then its trades and its activity since `from`. */
  ghost function Offered(h: Holding, from: int, now: int): seq<Entry> {
    (if h.reference.Some? then [Reference(h.ticker, h.reference.value, now)] else [])
    + TradeEntries(h.ticker, Filter(h.trades, Since(from, TradeTime)))
    + ActivityEntries(h.ticker, Filter(h.activity, Since(from, ActivityTime)))
  }

  ghost function OfferedAll(hs: seq<Holding>, from: int, now: int): seq<Entry>
    decreases |hs|
  {
    if hs == [] then []
    else
      var n := |hs| - 1;
      OfferedAll(hs[..n], from, now) + Offered(hs[n], from, now)
  }

  function LooksFrom(m: Memory): int {
    Max(0, m.lastCovered - OVERLAP_MS)
  }

  ghost function PassOver(m: Memory, v: View): Pass {
    NoteAll(Pass(m.written, m.lastReference, []), OfferedAll(v.holdings, LooksFrom(m), v.now))
  }

  ghost function Entries(m: Memory, v: View): seq<Entry> {
    PassOver(m, v).out + [Covered(v.covered, v.now)]
  }

  function Forget(written: map<EventId, int>, before: int): map<EventId, int> {
    map id | id in written && written[id] >= before :: written[id]
  }

  ghost function After(m: Memory, v: View): Memory {
    var p := PassOver(m, v);
    var last := Max(m.lastCovered, v.covered);
    Memory(last, Forget(p.written, last - 2 * OVERLAP_MS), p.lastReference)
  }

  lemma {:induction false} NoteAllJoins(p: Pass, a: seq<Entry>, b: seq<Entry>)
    ensures NoteAll(p, a + b) == NoteAll(NoteAll(p, a), b)
    decreases |b|
  {
    hide Note;
    if b == [] {
      assert a + b == a;
    } else {
      var n := |b| - 1;
      assert (a + b)[..|a| + n] == a + b[..n];
      NoteAllJoins(p, a, b[..n]);
    }
  }

  lemma NoteOne(p: Pass, es: seq<Entry>, e: Entry)
    ensures NoteAll(p, es + [e]) == Note(NoteAll(p, es), e)
  {
    hide Note;
    assert (es + [e])[..|es|] == es;
  }

  class TapeRecorder {
    var lastCovered: int
    var written: map<EventId, int>
    var lastReference: map<Ticker, ReferencePrice>

    ghost function Remembers(): Memory
      reads this
    {
      Memory(lastCovered, written, lastReference)
    }

    constructor ()
      ensures Remembers() == BLANK
    {
      lastCovered, written, lastReference := 0, map[], map[];
    }

    /** Everything the source holds that has not been written, then a coverage mark. */
    method Snapshot(v: View) returns (entries: seq<Entry>)
      modifies this
      ensures entries == Entries(old(Remembers()), v)
      ensures Remembers() == After(old(Remembers()), v)
    {
      var from := LooksFrom(Memory(lastCovered, written, lastReference));
      entries := [];
      ghost var start := Pass(written, lastReference, []);
      hide Note, Offered;
      NoteNothing(start);
      assert v.holdings[..0] == [];
      for i := 0 to |v.holdings|
        invariant lastCovered == old(lastCovered)
        invariant Pass(written, lastReference, entries) == NoteAll(start, OfferedAll(v.holdings[..i], from, v.now))
      {
        var added := SnapshotTicker(v.holdings[i], from, v.now, entries);
        assert v.holdings[..i + 1][..i] == v.holdings[..i];
        NoteAllJoins(start, OfferedAll(v.holdings[..i], from, v.now), Offered(v.holdings[i], from, v.now));
        entries := added;
      }
      assert v.holdings[..|v.holdings|] == v.holdings;
      entries := entries + [Covered(v.covered, v.now)];
      lastCovered := Max(lastCovered, v.covered);
      written := Forget(written, lastCovered - 2 * OVERLAP_MS);
    }

    method SnapshotTicker(h: Holding, from: int, now: int, entries: seq<Entry>) returns (out: seq<Entry>)
      modifies this`written, this`lastReference
      ensures Pass(written, lastReference, out) == NoteAll(Pass(old(written), old(lastReference), entries), Offered(h, from, now))
    {
      ghost var start := Pass(written, lastReference, entries);
      out := entries;
      ghost var noted: seq<Entry> := [];
      NoteNothing(start);
      if h.reference.Some? {
        var e := Reference(h.ticker, h.reference.value, now);
        NoteOne(start, [], e);
        noted := [e];
        assert [] + [e] == [e];
        if !(h.ticker in lastReference && lastReference[h.ticker] == h.reference.value) {
          lastReference := lastReference[h.ticker := h.reference.value];
          out := out + [e];
        }
      }
      var trades := Filter(h.trades, Since(from, TradeTime));
      out := Remember(TradeEntries(h.ticker, trades), out);
      NoteAllJoins(start, noted, TradeEntries(h.ticker, trades));
      var activity := Filter(h.activity, Since(from, ActivityTime));
      out := Remember(ActivityEntries(h.ticker, activity), out);
      NoteAllJoins(start, noted + TradeEntries(h.ticker, trades), ActivityEntries(h.ticker, activity));
    }

    /** Notes each event that is new. */
    method Remember(events: seq<Entry>, entries: seq<Entry>) returns (out: seq<Entry>)
      requires forall e | e in events :: IdOf(e).Some?
      modifies this`written
      ensures Pass(written, lastReference, out) == NoteAll(Pass(old(written), lastReference, entries), events)
    {
      out := entries;
      ghost var start := Pass(written, lastReference, entries);
      NoteNothing(start);
      assert events[..0] == [];
      for i := 0 to |events|
        invariant Pass(written, lastReference, out) == NoteAll(start, events[..i])
      {
        assert events[..i + 1][..i] == events[..i];
        assert events[i] in events;
        var id := IdOf(events[i]).value;
        if id !in written {
          written := written[id := TimeOf(events[i])];
          out := out + [events[i]];
        }
      }
      assert events[..|events|] == events;
    }
  }

  lemma NoteNothing(p: Pass)
    ensures NoteAll(p, []) == p
  {
  }

  // ---------------------------------------------------------------------
  // A recorder's life
  // ---------------------------------------------------------------------

  ghost function MemoryAfter(views: seq<View>): Memory
    decreases |views|
  {
    if views == [] then BLANK
    else
      var n := |views| - 1;
      After(MemoryAfter(views[..n]), views[n])
  }

  /** Everything a recorder wrote over its life. */
  ghost function Written(views: seq<View>): seq<Entry>
    decreases |views|
  {
    if views == [] then []
    else
      var n := |views| - 1;
      Written(views[..n]) + Entries(MemoryAfter(views[..n]), views[n])
  }

  /** The event is in what the source offers at a snapshot. */
  ghost predicate IsOffered(v: View, from: int, e: Entry) {
    e in OfferedAll(v.holdings, from, v.now) && IdOf(e).Some?
  }

  ghost predicate SameEvent(a: Entry, b: Entry) {
    IdOf(a).Some? && IdOf(a) == IdOf(b)
  }

  /** The source never redates an event by more than the overlap. */
  ghost predicate Steady(views: seq<View>) {
    forall i, j, a, b, s, t | 0 <= i < |views| && 0 <= j < |views| && IsOffered(views[i], s, a) && IsOffered(views[j], t, b) && SameEvent(a, b) ::
      TimeOf(a) - TimeOf(b) <= OVERLAP_MS
  }

  /** No event is on the tape twice. */
  ghost predicate OnceEach(tape: seq<Entry>) {
    forall i, j | 0 <= i < j < |tape| :: !SameEvent(tape[i], tape[j])
  }

  /** What is remembered is on the tape, and what is on the tape is remembered or long past. */
  ghost predicate Remembered(written: map<EventId, int>, tape: seq<Entry>, before: int) {
    && (forall e | e in tape && IdOf(e).Some? ::
          (IdOf(e).value in written && written[IdOf(e).value] == TimeOf(e)) || (IdOf(e).value !in written && TimeOf(e) < before))
    && (forall id | id in written :: OnTape(tape, id))
  }

  ghost predicate OnTape(tape: seq<Entry>, id: EventId) {
    exists i :: 0 <= i < |tape| && IdOf(tape[i]) == Some(id)
  }

  /** Nothing on the tape is both forgotten and close enough to be offered again. */
  ghost predicate NoStale(tape: seq<Entry>, es: seq<Entry>, before: int) {
    forall a, b | a in tape && b in es && SameEvent(a, b) :: TimeOf(a) >= before
  }

  lemma OnceMore(tape: seq<Entry>, e: Entry)
    requires OnceEach(tape) && (IdOf(e).Some? ==> !OnTape(tape, IdOf(e).value))
    ensures OnceEach(tape + [e])
  {
    assert forall i | 0 <= i < |tape| :: !SameEvent(tape[i], e);
  }

  lemma OnTapeLater(tape: seq<Entry>, e: Entry, id: EventId)
    ensures OnTape(tape + [e], id) <==> OnTape(tape, id) || IdOf(e) == Some(id)
  {
    var more := tape + [e];
    assert more[|tape|] == e;
    if OnTape(tape, id) {
      var i :| 0 <= i < |tape| && IdOf(tape[i]) == Some(id);
      assert IdOf(more[i]) == Some(id);
    }
    if OnTape(more, id) {
      var i :| 0 <= i < |more| && IdOf(more[i]) == Some(id);
      if i < |tape| { assert IdOf(tape[i]) == Some(id); }
    }
  }

  /** What is neither remembered nor long past was never written. */
  lemma NotOnTape(written: map<EventId, int>, e: Entry, tape: seq<Entry>, before: int)
    requires Remembered(written, tape, before) && IdOf(e).Some? && IdOf(e).value !in written
    requires forall a | a in tape && SameEvent(a, e) :: TimeOf(a) >= before
    ensures !OnTape(tape, IdOf(e).value)
  {
    assert forall i | 0 <= i < |tape| :: tape[i] in tape;
  }

  /** One entry offered: what is written stays written once, and the event is on the tape afterwards. */
  lemma NoteKeeps(p: Pass, e: Entry, tape: seq<Entry>, before: int)
    requires Remembered(p.written, tape + p.out, before) && OnceEach(tape + p.out)
    requires forall a | a in tape + p.out && SameEvent(a, e) :: TimeOf(a) >= before
    ensures var q := Note(p, e);
            && Remembered(q.written, tape + q.out, before) && OnceEach(tape + q.out)
            && (IdOf(e).Some? ==> OnTape(tape + q.out, IdOf(e).value))
            && (forall id | OnTape(tape + p.out, id) :: OnTape(tape + q.out, id))
            && (q.out == p.out || q.out == p.out + [e])
  {
    var q := Note(p, e);
    var sofar := tape + p.out;
    if q.out == p.out + [e] {
      assert tape + q.out == sofar + [e];
      if IdOf(e).Some? {
        NotOnTape(p.written, e, sofar, before);
      }
      OnceMore(sofar, e);
      forall id
        ensures OnTape(sofar + [e], id) <==> OnTape(sofar, id) || IdOf(e) == Some(id)
      {
        OnTapeLater(sofar, e, id);
      }
    }
  }

  lemma {:induction false} NoteAllKeeps(p: Pass, es: seq<Entry>, tape: seq<Entry>, before: int)
    requires Remembered(p.written, tape + p.out, before) && OnceEach(tape + p.out)
    requires NoStale(tape + p.out, es, before)
    requires forall e | e in es && IdOf(e).Some? :: TimeOf(e) >= before
    ensures var q := NoteAll(p, es);
            && Remembered(q.written, tape + q.out, before) && OnceEach(tape + q.out)
            && (forall e | e in es && IdOf(e).Some? :: OnTape(tape + q.out, IdOf(e).value))
            && (forall id | OnTape(tape + p.out, id) :: OnTape(tape + q.out, id))
            && (forall e | e in q.out :: e in p.out || e in es)
    decreases |es|
  {
    if es != [] {
      var n := |es| - 1;
      NoteAllKeeps(p, es[..n], tape, before);
      var q := NoteAll(p, es[..n]);
      forall a | a in tape + q.out && SameEvent(a, es[n])
        ensures TimeOf(a) >= before
      {
        assert es[n] in es;
        if a !in tape + p.out {
          assert a in q.out && a in es[..n] && a in es;
        }
      }
      NoteKeeps(q, es[n], tape, before);
      assert forall e | e in es :: e in es[..n] || e == es[n];
    }
  }

  lemma SteadyPrefix(views: seq<View>, n: nat)
    requires n <= |views| && Steady(views)
    ensures Steady(views[..n])
  {
    var front := views[..n];
    forall i, j, a, b, s, t | 0 <= i < |front| && 0 <= j < |front| && IsOffered(front[i], s, a) && IsOffered(front[j], t, b) && SameEvent(a, b)
      ensures TimeOf(a) - TimeOf(b) <= OVERLAP_MS
    {
      assert IsOffered(views[i], s, a) && IsOffered(views[j], t, b);
    }
  }

  lemma ForgetKeeps(written: map<EventId, int>, tape: seq<Entry>, before: int, later: int)
    requires Remembered(written, tape, before) && before <= later
    ensures Remembered(Forget(written, later), tape, later)
  {
  }

  lemma MarkKeeps(written: map<EventId, int>, tape: seq<Entry>, before: int, mark: Entry)
    requires Remembered(written, tape, before) && OnceEach(tape) && mark.Covered?
    ensures Remembered(written, tape + [mark], before) && OnceEach(tape + [mark])
    ensures forall id | OnTape(tape, id) :: OnTape(tape + [mark], id)
  {
    OnceMore(tape, mark);
    forall id
      ensures OnTape(tape + [mark], id) <==> OnTape(tape, id)
    {
      OnTapeLater(tape, mark, id);
    }
  }

  ghost function Horizon(m: Memory): int {
    m.lastCovered - 2 * OVERLAP_MS
  }

  lemma {:induction false} OfferedIsRecent(hs: seq<Holding>, from: int, now: int)
    ensures forall e | e in OfferedAll(hs, from, now) && IdOf(e).Some? :: TimeOf(e) >= from
    decreases |hs|
  {
    if hs != [] {
      var n := |hs| - 1;
      OfferedIsRecent(hs[..n], from, now);
      OneIsRecent(hs[n], from, now);
    }
  }

  lemma TradesAreRecent(ticker: Ticker, trades: seq<DexTrade>, from: int)
    requires forall t | t in trades :: t.at >= from
    ensures forall e | e in TradeEntries(ticker, trades) :: TimeOf(e) >= from
  {
    forall i | 0 <= i < |trades|
      ensures TimeOf(TradeEntries(ticker, trades)[i]) >= from
    {
      assert trades[i] in trades;
    }
  }

  lemma ActivityIsRecent(ticker: Ticker, activity: seq<Activity>, from: int)
    requires forall a | a in activity :: a.at >= from
    ensures forall e | e in ActivityEntries(ticker, activity) :: TimeOf(e) >= from
  {
    forall i | 0 <= i < |activity|
      ensures TimeOf(ActivityEntries(ticker, activity)[i]) >= from
    {
      assert activity[i] in activity;
    }
  }

  lemma SinceMeans<T>(list: seq<T>, from: int, at: T -> int)
    requires forall x | x in list :: Since(from, at)(x)
    ensures forall x | x in list :: at(x) >= from
  {
    forall x | x in list
      ensures at(x) >= from
    {
      assert Since(from, at)(x);
    }
  }

  lemma OneIsRecent(h: Holding, from: int, now: int)
    ensures forall e | e in Offered(h, from, now) && IdOf(e).Some? :: TimeOf(e) >= from
  {
    var trades, activity := Filter(h.trades, Since(from, TradeTime)), Filter(h.activity, Since(from, ActivityTime));
    SinceMeans(trades, from, TradeTime);
    SinceMeans(activity, from, ActivityTime);
    assert forall t | t in trades :: TradeTime(t) == t.at;
    assert forall a | a in activity :: ActivityTime(a) == a.at;
    TradesAreRecent(h.ticker, trades, from);
    ActivityIsRecent(h.ticker, activity, from);
    hide Filter, TradeEntries, ActivityEntries;
  }

  /** Every event on a tape was offered at one of its snapshots. */
  lemma {:induction false} WrittenWasOffered(views: seq<View>)
    ensures forall e | e in Written(views) && IdOf(e).Some? :: exists i, from :: 0 <= i < |views| && IsOffered(views[i], from, e)
    decreases |views|
  {
    if views != [] {
      var n := |views| - 1;
      var m := MemoryAfter(views[..n]);
      WrittenWasOffered(views[..n]);
      var es := OfferedAll(views[n].holdings, LooksFrom(m), views[n].now);
      OutWasOffered(Pass(m.written, m.lastReference, []), es);
      forall e | e in Written(views) && IdOf(e).Some?
        ensures exists i, from :: 0 <= i < |views| && IsOffered(views[i], from, e)
      {
        if e in Written(views[..n]) {
          var i, from :| 0 <= i < n && IsOffered(views[..n][i], from, e);
          assert IsOffered(views[i], from, e);
        } else {
          assert IsOffered(views[n], LooksFrom(m), e);
        }
      }
    }
  }

  lemma {:induction false} OutWasOffered(p: Pass, es: seq<Entry>)
    ensures forall e | e in NoteAll(p, es).out :: e in p.out || e in es
    decreases |es|
  {
    if es != [] {
      var n := |es| - 1;
      OutWasOffered(p, es[..n]);
      assert forall e | e in es[..n] :: e in es;
    }
  }

  lemma NothingStale(views: seq<View>, v: View)
    requires Steady(views + [v])
    ensures var m := MemoryAfter(views);
            NoStale(Written(views), OfferedAll(v.holdings, LooksFrom(m), v.now), Horizon(m))
  {
    var m := MemoryAfter(views);
    var es := OfferedAll(v.holdings, LooksFrom(m), v.now);
    OfferedIsRecent(v.holdings, LooksFrom(m), v.now);
    WrittenWasOffered(views);
    var all := views + [v];
    hide Written, MemoryAfter, OfferedAll;
    forall a, b | a in Written(views) && b in es && SameEvent(a, b)
      ensures TimeOf(a) >= Horizon(m)
    {
      var i, from :| 0 <= i < |views| && IsOffered(views[i], from, a);
      assert all[i] == views[i] && all[|views|] == v;
      assert IsOffered(all[i], from, a) && IsOffered(all[|views|], LooksFrom(m), b) && SameEvent(b, a);
      assert TimeOf(b) - TimeOf(a) <= OVERLAP_MS;
    }
  }

  /**
   Over a recorder's life every event the source holds at a snapshot inside the
   overlap is written, and none twice, as long as the source never redates an event
   by more than the overlap.
  */
  lemma {:induction false} WrittenExactlyOnce(views: seq<View>)
    requires Steady(views)
    ensures OnceEach(Written(views))
    ensures Remembered(MemoryAfter(views).written, Written(views), Horizon(MemoryAfter(views)))
    ensures forall k, e | 0 <= k < |views| && IsOffered(views[k], LooksFrom(MemoryAfter(views[..k])), e) :: OnTape(Written(views), IdOf(e).value)
    decreases |views|
  {
    if views == [] {
    } else {
      hide Written, MemoryAfter, Remembered, OnceEach, OnTape, OfferedAll, Steady, NoStale;
      var n := |views| - 1;
      var front, v := views[..n], views[n];
      SteadyPrefix(views, n);
      WrittenExactlyOnce(front);
      FrontAndLast(views);
      NothingStale(front, v);
      LifeStep(front, v);
      forall k, e | 0 <= k < |views| && IsOffered(views[k], LooksFrom(MemoryAfter(views[..k])), e)
        ensures OnTape(Written(views), IdOf(e).value)
      {
        if k < n {
          assert front[k] == views[k] && front[..k] == views[..k];
        } else {
          assert views[..k] == front;
        }
      }
    }
  }

  /** What a life comes to with one snapshot more. */
  lemma LifeUnfolds(front: seq<View>, v: View)
    ensures Written(front + [v]) == Written(front) + PassOver(MemoryAfter(front), v).out + [Covered(v.covered, v.now)]
    ensures MemoryAfter(front + [v]) == After(MemoryAfter(front), v)
  {
    hide PassOver, After;
    var views := front + [v];
    assert views[..|front|] == front;
    var m := MemoryAfter(front);
    Regroup(Written(front), PassOver(m, v).out, [Covered(v.covered, v.now)]);
  }

  lemma LifeStep(front: seq<View>, v: View)
    requires var m := MemoryAfter(front);
             && OnceEach(Written(front)) && Remembered(m.written, Written(front), Horizon(m))
             && NoStale(Written(front), OfferedAll(v.holdings, LooksFrom(m), v.now), Horizon(m))
    ensures var m, views := MemoryAfter(front), front + [v];
            && OnceEach(Written(views)) && Remembered(MemoryAfter(views).written, Written(views), Horizon(MemoryAfter(views)))
            && (forall e | IsOffered(v, LooksFrom(m), e) :: OnTape(Written(views), IdOf(e).value))
            && (forall id | OnTape(Written(front), id) :: OnTape(Written(views), id))
  {
    hide Written, MemoryAfter, OfferedAll, Remembered, OnceEach, OnTape, NoStale, NoteAll, Forget;
    LifeUnfolds(front, v);
    var m, mark := MemoryAfter(front), Covered(v.covered, v.now);
    var es := OfferedAll(v.holdings, LooksFrom(m), v.now);
    var p := Pass(m.written, m.lastReference, []);
    var q := NoteAll(p, es);
    var tape := Written(front);
    OfferedIsRecent(v.holdings, LooksFrom(m), v.now);
    assert tape + p.out == tape;
    NoteAllKeeps(p, es, tape, Horizon(m));
    MarkKeeps(q.written, tape + q.out, Horizon(m), mark);
    ForgetKeeps(q.written, tape + q.out + [mark], Horizon(m), Horizon(After(m, v)));
  }

  // ---------------------------------------------------------------------
  // A recorder's tape, replayed
  // ---------------------------------------------------------------------

  /** What a recorder's life makes visible: each snapshot's entries and its mark, together. */
  ghost function LifeItems(views: seq<View>, clock: Clock): seq<Item>
    decreases |views|
  {
    if views == [] then []
    else
      var n := |views| - 1;
      var v := views[n];
      var mark := Covered(v.covered, v.now);
      LifeItems(views[..n], clock) + Shown(PassOver(MemoryAfter(views[..n]), v).out + [mark], mark, clock)
  }

  predicate IsContent(e: Entry) {
    e.Trade? || e.Pons? || e.Reference?
  }

  ghost predicate AllContent(es: seq<Entry>) {
    forall e | e in es :: IsContent(e)
  }

  lemma ReadNext(tape: seq<Entry>, e: Entry, clock: Clock)
    ensures ReadAll(tape + [e], clock) == Read(ReadAll(tape, clock), e, clock)
  {
    hide Read;
    assert (tape + [e])[..|tape|] == tape;
  }

  lemma ContentFront(es: seq<Entry>)
    requires AllContent(es) && es != []
    ensures AllContent(es[..|es| - 1]) && IsContent(es[|es| - 1])
  {
    assert forall e | e in es[..|es| - 1] :: e in es;
  }

  lemma {:induction false} PendingGrows(tape: seq<Entry>, es: seq<Entry>, clock: Clock)
    requires AllContent(es)
    ensures var r := ReadAll(tape, clock); ReadAll(tape + es, clock) == r.(pending := r.pending + es)
    decreases |es|
  {
    var r := ReadAll(tape, clock);
    if es == [] {
      assert tape + es == tape && r.pending + es == r.pending;
    } else {
      var n := |es| - 1;
      var front, e := es[..n], es[n];
      ContentFront(es);
      FrontAndLast(es);
      hide ReadAll, AllContent;
      PendingGrows(tape, front, clock);
      ReadNext(tape + front, e, clock);
      Regroup(tape, front, [e]);
      Regroup(r.pending, front, [e]);
    }
  }

  lemma OfferedIsContent(h: Holding, from: int, now: int)
    ensures AllContent(Offered(h, from, now))
  {
    hide Filter;
  }

  lemma {:induction false} AllOfferedIsContent(hs: seq<Holding>, from: int, now: int)
    ensures AllContent(OfferedAll(hs, from, now))
    decreases |hs|
  {
    hide Offered;
    if hs != [] {
      var n := |hs| - 1;
      AllOfferedIsContent(hs[..n], from, now);
      OfferedIsContent(hs[n], from, now);
    }
  }

  lemma OutIsContent(m: Memory, v: View)
    ensures AllContent(PassOver(m, v).out)
  {
    hide NoteAll, OfferedAll;
    AllOfferedIsContent(v.holdings, LooksFrom(m), v.now);
    OutWasOffered(Pass(m.written, m.lastReference, []), OfferedAll(v.holdings, LooksFrom(m), v.now));
  }

  /**
   Whatever was on the tape before, a recorder's life adds its snapshots to what is
   visible, each at its own mark, and leaves nothing waiting: a restart loses none.
  */
  lemma {:induction false} LifeIsVisible(tape: seq<Entry>, views: seq<View>, clock: Clock)
    requires ReadAll(tape, clock).pending == []
    ensures var r := ReadAll(tape + Written(views), clock);
            r.pending == [] && r.items == ReadAll(tape, clock).items + LifeItems(views, clock)
    decreases |views|
  {
    if views == [] {
      assert tape + Written(views) == tape;
      assert ReadAll(tape, clock).items + [] == ReadAll(tape, clock).items;
    } else {
      var n := |views| - 1;
      var front, v := views[..n], views[n];
      LifeIsVisible(tape, front, clock);
      FrontAndLast(views);
      LifeUnfolds(front, v);
      var out, mark := PassOver(MemoryAfter(front), v).out, Covered(v.covered, v.now);
      assert LifeItems(views, clock) == LifeItems(front, clock) + Shown(out + [mark], mark, clock);
      hide Written, MemoryAfter, PassOver, ReadAll, LifeItems, Shown;
      OutIsContent(MemoryAfter(front), v);
      var before := tape + Written(front);
      PendingGrows(before, out, clock);
      ReadNext(before + out, mark, clock);
      Regroup(tape, Written(front), out);
      Regroup(tape, Written(front) + out, [mark]);
      assert ReadAll(before, clock).pending + out == out;
      Regroup(ReadAll(tape, clock).items, LifeItems(front, clock), Shown(out + [mark], mark, clock));
    }
  }
}

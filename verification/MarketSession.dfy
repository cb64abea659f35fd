/**
 When a whole round can run, packages/market-data/src/market-session.ts, over any
 market that opens and closes on the hour.
 */
module MarketSession {
  import opened Wrappers

  const HOUR: int := 3_600_000
  const STEPS: nat := 60 * 24

  /** Whether the market trades through an hour, by its number. */
  type Hours = int -> bool

  function HourOf(t: int): int {
    t / HOUR
  }

  predicate Open(hours: Hours, t: int) {
    hours(HourOf(t))
  }

  /** Where the hour after `t`'s begins. */
  function NextHour(t: int): int {
    (HourOf(t) + 1) * HOUR
  }

  function Probe(hours: Hours, probe: int, steps: nat): Option<int>
    decreases steps
  {
    if steps == 0 then None
    else if Open(hours, NextHour(probe)) then Some(NextHour(probe))
    else Probe(hours, NextHour(probe), steps - 1)
  }

  function OpenFrom(hours: Hours, at: int): Option<int> {
    if Open(hours, at) then Some(at) else Probe(hours, at, STEPS)
  }

  method NextOpenAt(hours: Hours, at: int) returns (r: Option<int>)
    ensures r == OpenFrom(hours, at)
  {
    if Open(hours, at) {
      return Some(at);
    }
    var probe := at;
    for step := 0 to STEPS
      invariant Probe(hours, at, STEPS) == Probe(hours, probe, STEPS - step)
    {
      probe := NextHour(probe);
      if Open(hours, probe) {
        return Some(probe);
      }
    }
    return None;
  }

  /** A closed hour among those a span reaches after its first, or its last instant closed. */
  predicate ClosesInside(hours: Hours, start: int, duration: int) {
    var end := start + duration - 1;
    !Open(hours, end) || exists h | HourOf(start) < h <= HourOf(end) :: !hours(h)
  }

  method Closes(hours: Hours, start: int, duration: int) returns (inside: bool)
    ensures inside == ClosesInside(hours, start, duration)
  {
    var end := start + duration - 1;
    inside := !Open(hours, end);
    var hour := NextHour(start);
    while !inside && hour <= end
      invariant hour == HourOf(hour) * HOUR && HourOf(hour) > HourOf(start)
      invariant !inside ==> Open(hours, end) && forall h | HourOf(start) < h < HourOf(hour) :: hours(h)
      invariant inside ==> ClosesInside(hours, start, duration)
      decreases !inside, end - hour
    {
      inside := !Open(hours, hour);
      hour := hour + HOUR;
    }
  }

  function WindowFrom(hours: Hours, start: int, duration: int, attempts: nat): Option<int>
    decreases attempts
  {
    if attempts == 0 then None
    else if !ClosesInside(hours, start, duration) then Some(start)
    else
      match OpenFrom(hours, NextHour(start + duration - 1))
      case None => None
      case Some(next) => WindowFrom(hours, next, duration, attempts - 1)
  }

  /** `nextOpenWindow`; `None` where it throws. */
  function Window(hours: Hours, at: int, duration: int): Option<int> {
    match OpenFrom(hours, at)
    case None => None
    case Some(start) => WindowFrom(hours, start, duration, STEPS)
  }

  method NextOpenWindow(hours: Hours, at: int, duration: int) returns (r: Option<int>)
    ensures r == Window(hours, at, duration)
  {
    hide ClosesInside, OpenFrom;
    var first := NextOpenAt(hours, at);
    if first.None? {
      return None;
    }
    var start := first.value;
    for attempt := 0 to STEPS
      invariant Window(hours, at, duration) == WindowFrom(hours, start, duration, STEPS - attempt)
    {
      var inside := Closes(hours, start, duration);
      if !inside {
        return Some(start);
      }
      var next := NextOpenAt(hours, NextHour(start + duration - 1));
      if next.None? {
        return None;
      }
      start := next.value;
    }
    return None;
  }

  // ---------------------------------------------------------------------
  // What is found
  // ---------------------------------------------------------------------

  /** The market stays open for the whole of a span. */
  ghost predicate Runs(hours: Hours, start: int, duration: int) {
    forall t | start <= t < start + duration :: Open(hours, t)
  }

  lemma HourBounds(t: int)
    ensures HourOf(t) * HOUR <= t < (HourOf(t) + 1) * HOUR
  {
  }

  lemma HoursGrow(s: int, t: int)
    requires s <= t
    ensures HourOf(s) <= HourOf(t)
  {
  }

  lemma {:induction false} ProbeFindsNext(hours: Hours, probe: int, steps: nat)
    requires !Open(hours, probe)
    ensures Probe(hours, probe, steps).Some? ==>
              var r := Probe(hours, probe, steps).value;
              probe < r == HourOf(r) * HOUR && Open(hours, r) && forall t | probe <= t < r :: !Open(hours, t)
    decreases steps
  {
    if steps > 0 {
      forall t | probe <= t < NextHour(probe)
        ensures HourOf(t) == HourOf(probe)
      {
      }
      if !Open(hours, NextHour(probe)) {
        ProbeFindsNext(hours, NextHour(probe), steps - 1);
      }
    }
  }

  /** The first open instant at or after `at`. */
  lemma OpenFromIsFirst(hours: Hours, at: int)
    requires OpenFrom(hours, at).Some?
    ensures var r := OpenFrom(hours, at).value;
            && at <= r && Open(hours, r) && (forall t | at <= t < r :: !Open(hours, t))
            && (r == at || r == HourOf(r) * HOUR)
  {
    if !Open(hours, at) {
      ProbeFindsNext(hours, at, STEPS);
    }
  }

  /** The probes reach exactly the next `steps` hours. */
  lemma {:induction false} ProbeFailsIff(hours: Hours, probe: int, steps: nat)
    ensures Probe(hours, probe, steps).None? <==> forall h | HourOf(probe) < h <= HourOf(probe) + steps :: !hours(h)
    decreases steps
  {
    if steps > 0 {
      assert HourOf(NextHour(probe)) == HourOf(probe) + 1;
      ProbeFailsIff(hours, NextHour(probe), steps - 1);
    }
  }

  /** Nothing is found exactly when the market is closed now and through the sixty days of hours after. */
  lemma NoOpeningIff(hours: Hours, at: int)
    ensures OpenFrom(hours, at).None? <==> forall h | HourOf(at) <= h <= HourOf(at) + STEPS :: !hours(h)
  {
    ProbeFailsIff(hours, at, STEPS);
  }

  /** The start tried at attempt `k`: the first opening, then the first after the hour the last span ended in. */
  function StartTried(hours: Hours, at: int, duration: int, k: nat): Option<int> {
    if k == 0 then OpenFrom(hours, at)
    else
      match StartTried(hours, at, duration, k - 1)
      case None => None
      case Some(start) => OpenFrom(hours, NextHour(start + duration - 1))
  }

  predicate Fits(hours: Hours, at: int, duration: int, k: nat) {
    var start := StartTried(hours, at, duration, k);
    start.Some? && !ClosesInside(hours, start.value, duration)
  }

  lemma {:induction false} NoStartFitsFrom(hours: Hours, at: int, duration: int, k: nat, attempts: nat)
    requires StartTried(hours, at, duration, k).Some?
    ensures WindowFrom(hours, StartTried(hours, at, duration, k).value, duration, attempts).None?
       <==> forall j: nat | k <= j < k + attempts :: !Fits(hours, at, duration, j)
    decreases attempts
  {
    hide OpenFrom, ClosesInside;
    if attempts > 0 && ClosesInside(hours, StartTried(hours, at, duration, k).value, duration) {
      assert StartTried(hours, at, duration, k + 1) == OpenFrom(hours, NextHour(StartTried(hours, at, duration, k).value + duration - 1));
      if StartTried(hours, at, duration, k + 1).Some? {
        NoStartFitsFrom(hours, at, duration, k + 1, attempts - 1);
      } else {
        forall j: nat | k < j < k + attempts
          ensures !Fits(hours, at, duration, j)
        {
          NoStartLater(hours, at, duration, k + 1, j);
        }
      }
      assert !Fits(hours, at, duration, k);
    } else if attempts > 0 {
      assert Fits(hours, at, duration, k);
    }
  }

  lemma {:induction false} NoStartLater(hours: Hours, at: int, duration: int, k: nat, j: nat)
    requires k <= j && StartTried(hours, at, duration, k).None?
    ensures StartTried(hours, at, duration, j).None?
    decreases j
  {
    hide OpenFrom;
    if k < j {
      NoStartLater(hours, at, duration, k, j - 1);
    }
  }

  /** For any duration: it throws exactly when none of the starts it tries fits. */
  lemma NoStartFitsIff(hours: Hours, at: int, duration: int)
    ensures Window(hours, at, duration).None? <==> forall k: nat | k < STEPS :: !Fits(hours, at, duration, k)
  {
    hide OpenFrom, ClosesInside;
    if StartTried(hours, at, duration, 0).Some? {
      NoStartFitsFrom(hours, at, duration, 0, STEPS);
    } else {
      forall k: nat | k < STEPS
        ensures !Fits(hours, at, duration, k)
      {
        NoStartLater(hours, at, duration, 0, k);
      }
    }
  }

  /** Checking the hours and the last instant is enough to know a span stays open. */
  lemma HoursSuffice(hours: Hours, start: int, duration: int)
    requires duration > 0 && Open(hours, start)
    ensures Runs(hours, start, duration) <==> !ClosesInside(hours, start, duration)
  {
    var end := start + duration - 1;
    if !ClosesInside(hours, start, duration) {
      forall t | start <= t < start + duration
        ensures Open(hours, t)
      {
        HoursGrow(start, t);
        HoursGrow(t, end);
      }
    } else if Open(hours, end) {
      var h :| HourOf(start) < h <= HourOf(end) && !hours(h);
      assert start <= h * HOUR < start + duration && !Open(hours, h * HOUR);
    } else {
      assert !Open(hours, end);
    }
  }

  /** No span can start before the next attempt: for durations up to an hour and a millisecond, only one boundary is crossed. */
  lemma NothingSkipped(hours: Hours, start: int, duration: int, s: int)
    requires 0 < duration <= HOUR + 1 && Open(hours, start) && ClosesInside(hours, start, duration)
    requires start <= s < NextHour(start + duration - 1)
    ensures !Runs(hours, s, duration)
  {
    var end := start + duration - 1;
    HourBounds(start);
    HourBounds(end);
    var h :| HourOf(start) <= h <= HourOf(end) && !hours(h);
    assert h == HourOf(end) == HourOf(start) + 1;
    var t := if s < h * HOUR then h * HOUR else s;
    assert s <= t < s + duration && HourOf(t) == h;
    assert !Open(hours, t);
  }

  /** Every answer is a window, and where no more than one boundary can be crossed, the first there is. */
  lemma {:induction false} WindowFromRuns(hours: Hours, start: int, duration: int, attempts: nat)
    requires duration > 0 && Open(hours, start) && WindowFrom(hours, start, duration, attempts).Some?
    ensures var r := WindowFrom(hours, start, duration, attempts).value;
            && start <= r && Runs(hours, r, duration)
            && (duration <= HOUR + 1 ==> forall s | start <= s < r :: !Runs(hours, s, duration))
    decreases attempts
  {
    HoursSuffice(hours, start, duration);
    if ClosesInside(hours, start, duration) {
      var after := NextHour(start + duration - 1);
      HourBounds(start + duration - 1);
      OpenFromIsFirst(hours, after);
      var next := OpenFrom(hours, after).value;
      WindowFromRuns(hours, next, duration, attempts - 1);
      if duration <= HOUR + 1 {
        var r := WindowFrom(hours, start, duration, attempts).value;
        forall s | start <= s < r
          ensures !Runs(hours, s, duration)
        {
          if s < after {
            NothingSkipped(hours, start, duration, s);
          } else if s < next {
            ClosedStart(hours, s, duration);
          }
        }
      }
    }
  }

  lemma ClosedStart(hours: Hours, s: int, duration: int)
    requires duration > 0 && !Open(hours, s)
    ensures !Runs(hours, s, duration)
  {
  }

  /** What is answered is a stretch the market stays open for; up to an hour and a millisecond long, it is the first one. */
  lemma WindowRuns(hours: Hours, at: int, duration: int)
    requires duration > 0 && Window(hours, at, duration).Some?
    ensures var r := Window(hours, at, duration).value;
            && at <= r && Runs(hours, r, duration)
            && (duration <= HOUR + 1 ==> forall s | at <= s < r :: !Runs(hours, s, duration))
  {
    OpenFromIsFirst(hours, at);
    var start := OpenFrom(hours, at).value;
    WindowFromRuns(hours, start, duration, STEPS);
    forall s | at <= s < start
      ensures !Runs(hours, s, duration)
    {
      ClosedStart(hours, s, duration);
    }
  }

  // ---------------------------------------------------------------------
  // When there is nothing to find
  // ---------------------------------------------------------------------

  /** Where the hours a failed probe from `t` looked at end. */
  function ProbedUntil(t: int): int {
    (HourOf(t) + STEPS + 1) * HOUR
  }

  function HorizonFrom(hours: Hours, start: int, duration: int, attempts: nat): int
    decreases attempts
  {
    if attempts == 0 then start
    else if !ClosesInside(hours, start, duration) then start + 1
    else
      var after := NextHour(start + duration - 1);
      match OpenFrom(hours, after)
      case None => ProbedUntil(after)
      case Some(next) => HorizonFrom(hours, next, duration, attempts - 1)
  }

  /** How far the attempts reach. */
  function Horizon(hours: Hours, at: int, duration: int): int {
    match OpenFrom(hours, at)
    case None => ProbedUntil(at)
    case Some(start) => HorizonFrom(hours, start, duration, STEPS)
  }

  lemma NothingUntilProbed(hours: Hours, at: int, duration: int)
    requires duration > 0 && OpenFrom(hours, at).None?
    ensures forall s | at <= s < ProbedUntil(at) :: !Runs(hours, s, duration)
  {
    NoOpeningIff(hours, at);
    forall s | at <= s < ProbedUntil(at)
      ensures !Runs(hours, s, duration)
    {
      HoursGrow(at, s);
      ClosedStart(hours, s, duration);
    }
  }

  lemma NothingUntilOpen(hours: Hours, at: int, duration: int)
    requires duration > 0 && OpenFrom(hours, at).Some?
    ensures forall s | at <= s < OpenFrom(hours, at).value :: !Runs(hours, s, duration)
  {
    OpenFromIsFirst(hours, at);
    forall s | at <= s < OpenFrom(hours, at).value
      ensures !Runs(hours, s, duration)
    {
      ClosedStart(hours, s, duration);
    }
  }

  lemma NothingUntilNext(hours: Hours, start: int, duration: int)
    requires 0 < duration <= HOUR + 1 && Open(hours, start) && ClosesInside(hours, start, duration)
    ensures start < NextHour(start + duration - 1)
    ensures forall s | start <= s < NextHour(start + duration - 1) :: !Runs(hours, s, duration)
  {
    HourBounds(start + duration - 1);
    forall s | start <= s < NextHour(start + duration - 1)
      ensures !Runs(hours, s, duration)
    {
      NothingSkipped(hours, start, duration, s);
    }
  }

  lemma OpenIsLater(hours: Hours, at: int)
    ensures at < ProbedUntil(at)
    ensures OpenFrom(hours, at).Some? ==> at <= OpenFrom(hours, at).value && Open(hours, OpenFrom(hours, at).value)
  {
    if OpenFrom(hours, at).Some? {
      OpenFromIsFirst(hours, at);
    }
  }

  lemma {:induction false} WindowFromFailsIff(hours: Hours, start: int, duration: int, attempts: nat)
    requires 0 < duration <= HOUR + 1 && Open(hours, start)
    ensures start <= HorizonFrom(hours, start, duration, attempts)
    ensures WindowFrom(hours, start, duration, attempts).None?
       <==> forall s | start <= s < HorizonFrom(hours, start, duration, attempts) :: !Runs(hours, s, duration)
    decreases attempts
  {
    hide Runs, OpenFrom, ClosesInside, Open, HourOf, NextHour, ProbedUntil;
    HoursSuffice(hours, start, duration);
    if attempts > 0 && ClosesInside(hours, start, duration) {
      var after := NextHour(start + duration - 1);
      NothingUntilNext(hours, start, duration);
      OpenIsLater(hours, after);
      if OpenFrom(hours, after).None? {
        NothingUntilProbed(hours, after, duration);
      } else {
        NothingUntilOpen(hours, after, duration);
        WindowFromFailsIff(hours, OpenFrom(hours, after).value, duration, attempts - 1);
      }
    }
  }

  lemma NextHourIsNext(t: int)
    ensures HourOf(NextHour(t)) == HourOf(t) + 1
  {
  }

  lemma NextAttemptIsLater(hours: Hours, start: int, duration: int)
    requires duration > 0
    ensures var after := NextHour(start + duration - 1);
            && HourOf(start) < HourOf(after)
            && (OpenFrom(hours, after).Some? ==>
                  Open(hours, OpenFrom(hours, after).value) && HourOf(after) <= HourOf(OpenFrom(hours, after).value))
  {
    hide OpenFrom, HourOf, NextHour, Open;
    var after := NextHour(start + duration - 1);
    HoursGrow(start, start + duration - 1);
    NextHourIsNext(start + duration - 1);
    if OpenFrom(hours, after).Some? {
      OpenFromIsFirst(hours, after);
      HoursGrow(after, OpenFrom(hours, after).value);
    }
  }

  lemma {:induction false} HorizonIsFar(hours: Hours, start: int, duration: int, attempts: nat, hour: int)
    requires duration > 0 && Open(hours, start) && WindowFrom(hours, start, duration, attempts).None?
    requires hour <= HourOf(start) + attempts && hour <= HourOf(start) + STEPS + 1
    ensures HorizonFrom(hours, start, duration, attempts) >= hour * HOUR
    decreases attempts
  {
    hide OpenFrom, HourOf, NextHour, ClosesInside, Open;
    HourBounds(start);
    NextAttemptIsLater(hours, start, duration);
    var after := NextHour(start + duration - 1);
    if attempts > 0 && OpenFrom(hours, after).Some? {
      HorizonIsFar(hours, OpenFrom(hours, after).value, duration, attempts - 1, hour);
    }
  }

  /**
   Up to an hour and a millisecond long, it throws exactly when the market stays open
   that long from no instant the attempts reach; and it throws only after they have
   reached sixty days of hours.
  */
  lemma NoWindowIff(hours: Hours, at: int, duration: int)
    requires 0 < duration <= HOUR + 1
    ensures Window(hours, at, duration).None? <==> forall s | at <= s < Horizon(hours, at, duration) :: !Runs(hours, s, duration)
    ensures Window(hours, at, duration).None? ==> Horizon(hours, at, duration) >= (HourOf(at) + STEPS) * HOUR
  {
    if OpenFrom(hours, at).None? {
      NothingUntilProbed(hours, at, duration);
    } else {
      var start := OpenFrom(hours, at).value;
      OpenFromIsFirst(hours, at);
      HoursGrow(at, start);
      NothingUntilOpen(hours, at, duration);
      WindowFromFailsIff(hours, start, duration, STEPS);
      hide Runs, OpenFrom, ClosesInside, HorizonFrom;
      if Window(hours, at, duration).None? {
        HorizonIsFar(hours, start, duration, STEPS, HourOf(at) + STEPS);
      }
    }
  }

  /**
   Up to an hour long, the hours alone tell: it throws exactly when the market is closed
   now and through the sixty days of hours after, or is open now, closes before a window
   from now ends, and stays closed for sixty days and two hours.
  */
  lemma NoHourLongWindowIff(hours: Hours, at: int, duration: int)
    requires 0 < duration <= HOUR
    ensures Window(hours, at, duration).None? <==>
              if Open(hours, at)
              then HourOf(at + duration - 1) > HourOf(at) && forall h | HourOf(at) < h <= HourOf(at) + STEPS + 2 :: !hours(h)
              else forall h | HourOf(at) <= h <= HourOf(at) + STEPS :: !hours(h)
  {
    NoOpeningIff(hours, at);
    if !Open(hours, at) {
      if OpenFrom(hours, at).Some? {
        OpenFromIsFirst(hours, at);
        WholeHourFits(hours, OpenFrom(hours, at).value, duration, STEPS);
      }
    } else {
      OpenNowFailsIff(hours, at, duration);
    }
    hide OpenFrom, WindowFrom, HourOf;
  }

  lemma ClosesWithinHour(hours: Hours, start: int, duration: int)
    requires 0 < duration <= HOUR && Open(hours, start)
    ensures HourOf(start) <= HourOf(start + duration - 1) <= HourOf(start) + 1
    ensures ClosesInside(hours, start, duration) <==> HourOf(start + duration - 1) > HourOf(start) && !hours(HourOf(start) + 1)
  {
    HourBounds(start);
    HourBounds(start + duration - 1);
  }

  lemma OpenNowFailsIff(hours: Hours, at: int, duration: int)
    requires 0 < duration <= HOUR && Open(hours, at)
    ensures Window(hours, at, duration).None? <==>
              HourOf(at + duration - 1) > HourOf(at) && forall h | HourOf(at) < h <= HourOf(at) + STEPS + 2 :: !hours(h)
  {
    var after := NextHour(at + duration - 1);
    ClosesWithinHour(hours, at, duration);
    NextHourIsNext(at + duration - 1);
    NoOpeningIff(hours, after);
    assert OpenFrom(hours, at) == Some(at);
    if ClosesInside(hours, at, duration) && OpenFrom(hours, after).Some? {
      OpenFromIsFirst(hours, after);
      NextHourStarts(at + duration - 1);
      WholeHourFits(hours, OpenFrom(hours, after).value, duration, STEPS - 1);
    }
    hide OpenFrom, HourOf, NextHour, ClosesInside, Open;
  }

  lemma NextHourStarts(t: int)
    ensures NextHour(t) == HourOf(NextHour(t)) * HOUR
  {
  }

  lemma WholeHourFits(hours: Hours, start: int, duration: int, attempts: nat)
    requires 0 < duration <= HOUR && Open(hours, start) && start == HourOf(start) * HOUR && attempts > 0
    ensures WindowFrom(hours, start, duration, attempts) == Some(start)
  {
    assert HourOf(start + duration - 1) == HourOf(start);
  }

  /** A market closed for one hour only. */
  function ClosedHour(h: int): Hours {
    x => x != h
  }

  /**
   For any longer duration the first window can be passed over: the search jumps past
   the hour a refused span ends in, and a window may have started before that.
  */
  lemma LongerWindowsCanBeMissed(duration: int)
    requires duration > HOUR + 1
    ensures var hours, at := ClosedHour(1), HOUR - 1;
            && Runs(hours, 2 * HOUR, duration)
            && (Window(hours, at, duration).Some? ==> Window(hours, at, duration).value > 2 * HOUR)
  {
    var hours, at := ClosedHour(1), HOUR - 1;
    var end := at + duration - 1;
    assert HourOf(at) == 0 && Open(hours, at);
    assert HourOf(end) >= 2;
    assert !hours(1);
    assert ClosesInside(hours, at, duration);
    var after := NextHour(end);
    if Window(hours, at, duration).Some? {
      OpenFromIsFirst(hours, after);
      WindowFromRuns(hours, OpenFrom(hours, after).value, duration, STEPS - 1);
    }
  }
}

/** Block times from sparse anchors, packages/chain/src/block-clock.ts. */
module BlockClock {
  import opened Arithmetic
  import opened Ordering
  import opened Wrappers

  // `truth(b)` stands for block `b`'s own timestamp in milliseconds, which is what
  // a read of the chain returns.

  type Truth = nat -> int

  const SECOND: int := 1_000

  /** Timestamps are whole seconds and never decrease along the chain. */
  ghost predicate OrderedSeconds(truth: Truth) {
    && (forall i: nat, j: nat | i <= j :: truth(i) <= truth(j))
    && (forall i: nat :: truth(i) % SECOND == 0)
  }

  ghost predicate Ascending(blocks: seq<nat>) {
    forall i, j | 0 <= i < j < |blocks| :: blocks[i] < blocks[j]
  }

  // ---------------------------------------------------------------------
  // Placing a block between two anchors
  // ---------------------------------------------------------------------

  /** `Math.round` of a fraction: the nearest integer, halves upward. */
  function RoundDiv(num: int, den: nat): int
    requires den > 0
  {
    (2 * num + den) / (2 * den)
  }

  /** Where the line through two anchors puts a block, in whole seconds. */
  function Line(block: nat, below: nat, low: int, above: nat, high: int): int
    requires below < above
  {
    var width := above - below;
    RoundDiv(low * width + (high - low) * (block - below), SECOND * width) * SECOND
  }

  /** An estimate lies within half a second of the exact proportion of the way between its two anchors. */
  lemma LineIsProportional(block: nat, below: nat, low: int, above: nat, high: int)
    requires below < above
    ensures var width := above - below;
            var exact, placed := low * width + (high - low) * (block - below), Line(block, below, low, above, high) * width;
            2 * exact - SECOND * width < 2 * placed <= 2 * exact + SECOND * width
  {
    var width := above - below;
    var exact, den := low * width + (high - low) * (block - below), SECOND * width;
    var r := RoundDiv(exact, den);
    FloorIs(2 * exact + den, 2 * den, r);
    assert r * SECOND * width == r * den;
    assert r * (2 * den) == 2 * (r * den);
  }

  lemma RoundBetween(num: int, den: nat, l: int, h: int)
    requires den > 0 && l * den <= num <= h * den
    ensures l <= RoundDiv(num, den) <= h
  {
    FloorAtLeast(2 * num + den, 2 * den, l);
    FloorAtLeast(2 * num + den, 2 * den, h + 1);
    assert l * (2 * den) == 2 * (l * den);
    assert (h + 1) * (2 * den) == 2 * (h * den) + 2 * den;
  }

  lemma BetweenEnds(low: int, high: int, part: nat, width: nat)
    requires low <= high && part <= width
    ensures low * width <= low * width + (high - low) * part <= high * width
  {
    MulMonotone(0, high - low, part);
    MulMonotone(part, width, high - low);
    assert high * width == low * width + (high - low) * width;
  }

  /** An estimate lies between the two times it comes from. */
  lemma LineIsBetween(block: nat, below: nat, low: int, above: nat, high: int)
    requires below <= block <= above && below < above && low <= high
    requires low % SECOND == 0 && high % SECOND == 0
    ensures low <= Line(block, below, low, above, high) <= high
  {
    var width := above - below;
    var l, h := low / SECOND, high / SECOND;
    BetweenEnds(low, high, block - below, width);
    assert l * (SECOND * width) == low * width;
    assert h * (SECOND * width) == high * width;
    RoundBetween(low * width + (high - low) * (block - below), SECOND * width, l, h);
  }

  // ---------------------------------------------------------------------
  // The clock
  // ---------------------------------------------------------------------

  /** The nearest kept anchors at or below and at or above a block. */
  datatype Around = Around(below: Option<nat>, above: Option<nat>)

  ghost predicate NearestBelow(blocks: seq<nat>, block: nat, below: Option<nat>) {
    match below
    case None => forall b | b in blocks :: b > block
    case Some(x) => x in blocks && x <= block && forall b | b in blocks && b <= block :: b <= x
  }

  ghost predicate NearestAbove(blocks: seq<nat>, block: nat, above: Option<nat>) {
    match above
    case None => forall b | b in blocks :: b < block
    case Some(x) => x in blocks && x >= block && forall b | b in blocks && b >= block :: b >= x
  }

  /** A time for a block: its own, or one between the times of two blocks around it within `step`. */
  ghost predicate GoodEstimate(truth: Truth, block: nat, step: int, at: int) {
    at == truth(block)
    || exists below: nat, above: nat ::
         below <= block <= above && above - below <= step && truth(below) <= at <= truth(above)
  }

  /** The times are those of the anchors, and true. */
  ghost predicate InStep(truth: Truth, blocks: seq<nat>, times: map<nat, int>) {
    && (forall b: nat :: b in blocks <==> b in times)
    && (forall b: nat | b in times :: times[b] == truth(b))
  }

  function Without(times: map<nat, int>, gone: seq<nat>): map<nat, int> {
    map b | b in times && b !in gone :: times[b]
  }

  class Clock {
    var blocks: seq<nat>
    var times: map<nat, int>
    const truth: Truth

    /** Anchors ascend without repeats, in step with the times, and every time is a true one. */
    ghost predicate Valid()
      reads this
    {
      Ascending(blocks) && InStep(truth, blocks, times)
    }

    constructor (truth: Truth)
      ensures Valid() && this.truth == truth && blocks == []
    {
      this.truth := truth;
      blocks, times := [], map[];
    }

    method LowerBound(block: nat) returns (r: nat)
      requires Valid()
      ensures r <= |blocks|
      ensures forall i | 0 <= i < r :: blocks[i] < block
      ensures forall i | r <= i < |blocks| :: blocks[i] >= block
    {
      var low, high := 0, |blocks|;
      while low < high
        invariant low <= high <= |blocks|
        invariant forall i | 0 <= i < low :: blocks[i] < block
        invariant forall i | high <= i < |blocks| :: blocks[i] >= block
      {
        var middle := (low + high) / 2;
        if blocks[middle] < block {
          low := middle + 1;
        } else {
          high := middle;
        }
      }
      return low;
    }

    /** Keeps a true time as an anchor. */
    method Remember(block: nat, at: int)
      requires Valid() && at == truth(block)
      modifies this
      ensures Valid()
      ensures forall b: nat :: b in blocks <==> b in old(blocks) || b == block
    {
      if block in times {
        return;
      }
      var i := LowerBound(block);
      assert block !in blocks;
      times := times[block := at];
      ghost var was := blocks;
      blocks := blocks[..i] + [block] + blocks[i..];
      Spliced(was, i, block);
    }

    method Read(block: nat) returns (at: int)
      requires Valid()
      modifies this
      ensures Valid() && at == truth(block)
      ensures forall b: nat :: b in blocks <==> b in old(blocks) || b == block
    {
      if block in times {
        return times[block];
      }
      at := truth(block);
      Remember(block, at);
    }

    method FindAround(block: nat) returns (r: Around)
      requires Valid()
      ensures NearestBelow(blocks, block, r.below) && NearestAbove(blocks, block, r.above)
      ensures block in blocks ==> r == Around(Some(block), Some(block))
    {
      var index := LowerBound(block);
      if index < |blocks| && blocks[index] == block {
        return Around(Some(block), Some(block));
      }
      var below := if index > 0 then Some(blocks[index - 1]) else None;
      var above := if index < |blocks| then Some(blocks[index]) else None;
      forall b | b in blocks
        ensures b <= block ==> below.Some? && b <= below.value
        ensures b >= block ==> above.Some? && b >= above.value
      {
        var i :| 0 <= i < |blocks| && blocks[i] == b;
      }
      return Around(below, above);
    }

    /** The line through two anchors, or the missing-anchors error. */
    method Interpolate(block: nat, around: Around) returns (r: Result<int, string>)
      requires Valid() && (around.below.Some? && around.above.Some? ==> around.below.value <= around.above.value)
      ensures r.Ok? <==> around.below.Some? && around.above.Some?
                         && around.below.value in times && around.above.value in times
      ensures r.Ok? ==>
                r.value == if around.below.value == around.above.value then times[around.below.value]
                           else Line(block, around.below.value, times[around.below.value],
                                     around.above.value, times[around.above.value])
    {
      if around.below.None? || around.above.None? {
        return Err("No anchors around block");
      }
      var below, above := around.below.value, around.above.value;
      if below !in times || above !in times {
        return Err("No anchors around block");
      }
      if above == below {
        return Ok(times[below]);
      }
      return Ok(Line(block, below, times[below], above, times[above]));
    }

    /**
     Drops anchors older than `at`, but for the newest of them: whatever block
     is not older than `at` keeps an anchor below it if it had one.
     */
    method ForgetBefore(at: int)
      requires Valid() && OrderedSeconds(truth)
      modifies this
      ensures Valid() && KeepsWhatMatters(truth, old(blocks), blocks, at)
    {
      hide OrderedSeconds, KeepsWhatMatters, Ascending;
      var drop := 0;
      while drop + 1 < |blocks| && times[blocks[drop + 1]] < at
        invariant drop == 0 || (drop < |blocks| && truth(blocks[drop]) < at)
        invariant blocks == old(blocks) && times == old(times)
      {
        drop := drop + 1;
      }
      Dropped(truth, blocks, drop, at);
      ForgottenInStep(truth, blocks, times, drop);
      hide InStep;
      times := Without(times, blocks[..drop]);
      blocks := blocks[drop..];
    }

    /** One block's time, reading at most the two anchors of its grid cell. */
    method TimeOf(block: nat, step: int) returns (r: Result<int, string>)
      requires Valid() && OrderedSeconds(truth)
      modifies this
      ensures Valid() && forall b | b in old(blocks) :: b in blocks
      ensures r.Ok? ==> GoodEstimate(truth, block, step, r.value)
      ensures r.Err? ==> step < 1
    {
      hide OrderedSeconds, Ascending, Line, GoodEstimate;
      if block in times {
        TrueIsGood(truth, block, step);
        return Ok(times[block]);
      }
      if step < 1 {
        return Err("Anchor spacing must be at least one block");
      }
      var around := FindAround(block);
      if around.below.None? || around.above.None? {
        var at := Read(block);
        TrueIsGood(truth, block, step);
        return Ok(at);
      }
      var below, above := around.below.value, around.above.value;
      if above - below > step {
        GridCell(block - below, step);
        var cell := below + (block - below) / step * step;
        var next := if cell + step < above then cell + step else above;
        var cellAt := Read(cell);
        var nextAt := Read(next);
        around := FindAround(block);
        assert cell in blocks && next in blocks;
        assert around.below.value >= cell && around.above.value <= next;
      }
      r := Interpolate(block, around);
      InterpolatedIsGood(truth, block, step, around.below.value, around.above.value, r.value);
    }

    /** The time of every wanted block; it fails only for a spacing below one block. */
    method TimesOf(wanted: seq<nat>, spacing: nat -> int) returns (r: Result<map<nat, int>, string>)
      requires Valid() && OrderedSeconds(truth)
      modifies this
      ensures Valid() && forall b | b in old(blocks) :: b in blocks
      ensures r.Ok? ==> forall b: nat :: b in r.value <==> b in wanted
      ensures r.Ok? ==> forall b: nat | b in r.value :: GoodEstimate(truth, b, spacing(b), r.value[b])
      ensures r.Err? ==> exists b: nat | b in wanted :: spacing(b) < 1
    {
      hide Valid, OrderedSeconds, GoodEstimate;
      var order := Sort(Once(wanted), AtMost);
      OrderHolds(wanted);
      var result: map<nat, int> := map[];
      for i := 0 to |order|
        invariant Valid() && forall b | b in old(blocks) :: b in blocks
        invariant forall b: nat :: b in result <==> b in order[..i]
        invariant forall b: nat | b in result :: GoodEstimate(truth, b, spacing(b), result[b])
      {
        var block := order[i];
        var at := TimeOf(block, spacing(block));
        if at.Err? {
          assert block in wanted;
          return Err(at.error);
        }
        assert order[..i + 1] == order[..i] + [block];
        result := result[block := at.value];
      }
      assert order[..|order|] == order;
      return Ok(result);
    }
  }

  predicate AtMost(a: nat, b: nat) {
    a <= b
  }

  /** A set's worth of a list, as `new Set` keeps it. */
  function Once(s: seq<nat>): seq<nat> {
    if s == [] then [] else (if s[0] in s[1..] then [] else [s[0]]) + Once(s[1..])
  }

  lemma {:induction false} OnceHolds(s: seq<nat>, b: nat)
    ensures b in Once(s) <==> b in s
  {
    if s != [] {
      OnceHolds(s[1..], b);
    }
  }

  lemma OrderHolds(s: seq<nat>)
    ensures forall b: nat :: b in Sort(Once(s), AtMost) <==> b in s
  {
    var order := Sort(Once(s), AtMost);
    SortSorts(Once(s), AtMost);
    forall b: nat
      ensures b in order <==> b in s
    {
      OnceHolds(s, b);
      assert b in order <==> b in multiset(order);
      assert b in Once(s) <==> b in multiset(Once(s));
    }
  }

  lemma GridCell(offset: nat, step: nat)
    requires step > 0
    ensures 0 <= offset / step * step <= offset < offset / step * step + step
  {
    FloorIs(offset, step, offset / step);
  }

  lemma TrueIsGood(truth: Truth, block: nat, step: int)
    ensures GoodEstimate(truth, block, step, truth(block))
  {
  }

  lemma InterpolatedIsGood(truth: Truth, block: nat, step: int, below: nat, above: nat, at: int)
    requires OrderedSeconds(truth) && below <= block <= above && above - below <= step
    requires at == if below == above then truth(below) else Line(block, below, truth(below), above, truth(above))
    ensures GoodEstimate(truth, block, step, at)
  {
    if below < above {
      LineIsBetween(block, below, truth(below), above, truth(above));
    }
  }

  /** What forgetting may not lose: recent anchors, and the one below any recent block. */
  ghost predicate KeepsWhatMatters(truth: Truth, was: seq<nat>, now: seq<nat>, at: int) {
    && (exists drop: nat :: drop <= |was| && now == was[drop..])
    && (forall b: nat | b in was && truth(b) >= at :: b in now)
    && (forall b: nat | truth(b) >= at && HasAnchorBelow(was, b) :: HasAnchorBelow(now, b))
  }

  ghost predicate HasAnchorBelow(blocks: seq<nat>, block: nat) {
    exists x | x in blocks :: x <= block
  }

  lemma Spliced(was: seq<nat>, i: nat, block: nat)
    requires Ascending(was) && i <= |was|
    requires forall k | 0 <= k < i :: was[k] < block
    requires forall k | i <= k < |was| :: was[k] > block
    ensures Ascending(was[..i] + [block] + was[i..])
    ensures forall b :: b in was[..i] + [block] + was[i..] <==> b in was || b == block
  {
    var now := was[..i] + [block] + was[i..];
    assert was == was[..i] + was[i..];
  }

  lemma ForgottenInStep(truth: Truth, blocks: seq<nat>, times: map<nat, int>, drop: nat)
    requires Ascending(blocks) && InStep(truth, blocks, times) && drop <= |blocks|
    ensures Ascending(blocks[drop..]) && InStep(truth, blocks[drop..], Without(times, blocks[..drop]))
  {
    Apart(blocks, drop);
    hide Ascending;
  }

  lemma Apart(was: seq<nat>, drop: nat)
    requires Ascending(was) && drop <= |was|
    ensures Ascending(was[drop..])
    ensures forall b :: b in was <==> b in was[..drop] || b in was[drop..]
    ensures forall b :: !(b in was[..drop] && b in was[drop..])
  {
    assert was == was[..drop] + was[drop..];
  }

  lemma Dropped(truth: Truth, blocks: seq<nat>, drop: nat, at: int)
    requires OrderedSeconds(truth) && Ascending(blocks)
    requires drop == 0 || (drop < |blocks| && truth(blocks[drop]) < at)
    ensures drop <= |blocks| && KeepsWhatMatters(truth, blocks, blocks[drop..], at)
  {
    if drop > 0 {
      forall b: nat | truth(b) >= at
        ensures blocks[drop] < b
      {
        OlderIsLower(truth, blocks[drop], b);
      }
      assert blocks[drop] in blocks[drop..];
      forall b: nat | b in blocks && truth(b) >= at
        ensures b in blocks[drop..]
      {
        var i :| 0 <= i < |blocks| && blocks[i] == b;
        assert blocks[drop..][i - drop] == b;
      }
    } else {
      assert blocks[0..] == blocks;
    }
  }

  lemma OlderIsLower(truth: Truth, a: nat, b: nat)
    requires OrderedSeconds(truth) && truth(a) < truth(b)
    ensures a < b
  {
  }
}

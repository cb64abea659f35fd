/** Finding a block by time, each read of the chain counted. */
module BlockSearch {
  import opened Arithmetic
  import opened Wrappers

  // The galloping search of packages/chain/src/finalized-block.ts and the
  // interpolating one of packages/chain/src/market-indexer.ts.

  datatype BlockRef = BlockRef(number: nat, timestamp: nat, hash: string)

  /** A finalized chain: its newest block, and every block's header. */
  datatype Chain = Chain(head: nat, timestamp: nat -> nat, hash: nat -> string) {
    function Block(number: nat): BlockRef {
      BlockRef(number, timestamp(number), hash(number))
    }

    /** Timestamps never decrease along the chain. */
    ghost predicate Ordered() {
      forall i: nat, j: nat | i <= j :: timestamp(i) <= timestamp(j)
    }
  }

  predicate Reaches(b: BlockRef, cutoffMs: int) {
    b.timestamp * 1000 >= cutoffMs
  }

  // ---------------------------------------------------------------------
  // The tiebreak block
  // ---------------------------------------------------------------------

  /** The lowest-numbered block that reaches the cutoff. */
  ghost predicate IsFirst(chain: Chain, cutoffMs: int, n: nat) {
    chain.timestamp(n) * 1000 >= cutoffMs && forall k: nat | k < n :: chain.timestamp(k) * 1000 < cutoffMs
  }

  lemma FirstAbove(chain: Chain, cutoffMs: int, below: nat, n: nat)
    requires chain.Ordered() && n == below + 1
    requires Reaches(chain.Block(n), cutoffMs) && !Reaches(chain.Block(below), cutoffMs)
    ensures IsFirst(chain, cutoffMs, n)
  {
    forall k: nat | k < n
      ensures chain.timestamp(k) * 1000 < cutoffMs
    {
      assert chain.timestamp(k) <= chain.timestamp(below);
    }
  }

  lemma GenesisIsFirst(chain: Chain, cutoffMs: int)
    requires Reaches(chain.Block(0), cutoffMs)
    ensures IsFirst(chain, cutoffMs, 0)
  {
  }

  /**
   The first finalized block at or after the cutoff: found exactly when the
   finalized head reaches it, and in a number of reads logarithmic in how far
   behind the head it lies.
   */
  method FirstFinalizedBlockAtOrAfter(chain: Chain, cutoffMs: int) returns (r: Option<BlockRef>, asked: nat)
    requires chain.Ordered()
    ensures r.None? <==> !Reaches(chain.Block(chain.head), cutoffMs)
    ensures r.Some? ==>
              && r.value == chain.Block(r.value.number)
              && r.value.number <= chain.head
              && IsFirst(chain, cutoffMs, r.value.number)
              && asked <= 2 * BitLength(chain.head - r.value.number) + 2
  {
    hide BitLength, Reaches, IsFirst;
    var head := chain.Block(chain.head);
    asked := 1;
    if !Reaches(head, cutoffMs) {
      return None, asked;
    }
    var atOrAfter := head;
    var before: BlockRef;
    var step := 1;
    ghost var t: nat := 0;
    while true
      invariant step == Pow2(t) && asked == t + 1
      invariant atOrAfter == chain.Block(atOrAfter.number) && Reaches(atOrAfter, cutoffMs)
      invariant t == 0 ==> atOrAfter == head
      invariant t > 0 ==> atOrAfter.number == if chain.head > Pow2(t - 1) then chain.head - Pow2(t - 1) else 0
      invariant t > 1 ==> chain.head > Pow2(t - 2)
      decreases atOrAfter.number, if t == 0 then 1 else 0
    {
      if atOrAfter.number == 0 {
        GenesisIsFirst(chain, cutoffMs);
        GallopReads(chain.head, t);
        return Some(atOrAfter), asked;
      }
      var candidate := chain.Block(if chain.head > step then chain.head - step else 0);
      asked := asked + 1;
      if !Reaches(candidate, cutoffMs) {
        before := candidate;
        break;
      }
      atOrAfter := candidate;
      step := step * 2;
      t := t + 1;
    }
    var found, more := Bisect(chain, cutoffMs, before.number, atOrAfter, if t == 0 then 0 else t - 1);
    asked := asked + more;
    if t > 0 {
      BitLengthReaches(chain.head - found.number, t - 1);
    }
    return Some(found), asked;
  }

  /**
   `below` is short of the cutoff and `above` reaches it, so the first block
   that does lies in between. `s` bounds the probes left.
   */
  method Bisect(chain: Chain, cutoffMs: int, below: nat, above: BlockRef, ghost s: nat)
    returns (high: BlockRef, asked: nat)
    requires chain.Ordered() && below < above.number && above == chain.Block(above.number)
    requires Reaches(above, cutoffMs) && !Reaches(chain.Block(below), cutoffMs)
    requires above.number - below <= Pow2(s)
    ensures high == chain.Block(high.number) && high.number <= above.number
    ensures IsFirst(chain, cutoffMs, high.number)
    ensures asked <= s
  {
    hide Reaches, IsFirst;
    var low: nat := below;
    high := above;
    asked := 0;
    ghost var left := s;
    while high.number - low > 1
      invariant low < high.number <= above.number && high == chain.Block(high.number)
      invariant Reaches(high, cutoffMs) && !Reaches(chain.Block(low), cutoffMs)
      invariant high.number - low <= Pow2(left) && asked + left <= s
      decreases high.number - low
    {
      var middle := chain.Block(low + (high.number - low) / 2);
      asked := asked + 1;
      if Reaches(middle, cutoffMs) {
        high := middle;
      } else {
        low := middle.number;
      }
      left := left - 1;
    }
    FirstAbove(chain, cutoffMs, low, high.number);
  }

  /** A gallop that reached genesis took no more reads than the head's number has digits. */
  lemma GallopReads(head: nat, t: nat)
    requires t > 1 ==> head > Pow2(t - 2)
    requires t == 0 ==> head == 0
    ensures t + 1 <= 2 * BitLength(head) + 2
  {
    if t > 1 {
      BitLengthReaches(head, t - 2);
    }
  }

  /** There is one such block, so anyone reading the chain finds the same. */
  lemma FirstIsUnique(chain: Chain, cutoffMs: int, a: nat, b: nat)
    requires IsFirst(chain, cutoffMs, a) && IsFirst(chain, cutoffMs, b)
    ensures a == b
  {
    assert !(a < b) && !(b < a);
  }

  // ---------------------------------------------------------------------
  // A block to start reading from
  // ---------------------------------------------------------------------

  const BLOCK_SEARCH_TOLERANCE_MS: nat := 60_000

  function Max(a: int, b: int): int {
    if a >= b then a else b
  }

  /** `value` moved strictly inside `(low, high)`, so every probe narrows the range. */
  function ClampBetween(value: int, low: nat, high: nat): (r: nat)
    requires low + 1 < high
    ensures low < r < high
  {
    if value <= low then low + 1 else if value >= high then high - 1 else value
  }

  /** Block times in milliseconds. */
  ghost predicate OrderedTimes(at: nat -> int) {
    forall i: nat, j: nat | i <= j :: at(i) <= at(j)
  }

  /** The block `r` is within the tolerance of the target, or the last one not after it. */
  ghost predicate StartsBefore(at: nat -> int, head: nat, targetMs: int, r: nat) {
    at(r) <= targetMs && (targetMs - at(r) <= BLOCK_SEARCH_TOLERANCE_MS || r == head || (r < head && at(r + 1) > targetMs))
  }

  /**
   Interpolation with a bisection step after every probe that fails to halve
   the range. The answer is at or before the target unless genesis itself is
   later; then it is genesis. At most two reads for each binary digit of the
   head's number, and one more.
   */
  method BlockAtOrBefore(at: nat -> int, head: nat, headAt: int, targetMs: int) returns (r: nat, asked: nat)
    requires OrderedTimes(at) && headAt == at(head)
    ensures r <= head
    ensures at(r) <= targetMs <==> at(0) <= targetMs
    ensures at(0) <= targetMs ==> StartsBefore(at, head, targetMs, r)
    ensures at(0) > targetMs ==> r == 0
    ensures asked <= 2 * BitLength(head) + 1
  {
    hide OrderedTimes, BitLength;
    asked := 0;
    HeadIsLast(at, head);
    if targetMs >= headAt {
      return head, asked;
    }
    var low: nat := 0;
    var lowAt := at(low);
    asked := asked + 1;
    if lowAt > targetMs {
      return low, asked;
    }
    var high, highAt := head, headAt;
    var aimMs := targetMs - BLOCK_SEARCH_TOLERANCE_MS / 2;
    var bisect := false;
    ghost var s: nat := BitLength(head);
    BitLengthCovers(head);
    while high - low > 1 && targetMs - lowAt > BLOCK_SEARCH_TOLERANCE_MS
      invariant low < high <= head
      invariant lowAt == at(low) <= targetMs && highAt == at(high) > targetMs
      invariant high - low <= Pow2(s)
      invariant asked + 2 * s <= 2 * BitLength(head) + if bisect then 2 else 1
      invariant bisect ==> high - low > 1
      decreases high - low
    {
      var range := high - low;
      var middle := if bisect then (low + high) / 2
                    else ClampBetween(low + Aimed(range, aimMs - lowAt, highAt - lowAt), low, high);
      hide Aimed, ClampBetween;
      var middleAt := at(middle);
      asked := asked + 1;
      if middleAt <= targetMs {
        low, lowAt := middle, middleAt;
      } else {
        high, highAt := middle, middleAt;
      }
      var slow := (high - low) * 2 > range;
      if bisect || !slow {
        s := s - 1;
      }
      bisect := !bisect && slow;
    }
    return low, asked;
  }

  /** How far into the range the target should lie if blocks came evenly. */
  function Aimed(range: nat, ahead: int, span: int): nat {
    range * Max(0, ahead) / Max(1, span)
  }

  lemma HeadIsLast(at: nat -> int, head: nat)
    requires OrderedTimes(at)
    ensures at(0) <= at(head)
  {
  }
}

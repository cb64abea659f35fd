/** Reading logs from an endpoint that refuses large ranges, packages/chain/src/log-scan.ts. */
module LogScan {
  import opened Ordering
  import opened Wrappers

  // A range refused as too large is halved and both halves are asked for again,
  // down to single blocks.

  datatype RawLog = RawLog(blockNumber: nat, logIndex: nat, removed: bool, body: string)

  datatype RpcError = TooManyLogs | OtherFailure(message: string)

  /** What the endpoint says about each range; a scan never asks about a range twice. */
  type Endpoint = (nat, nat) -> Result<seq<RawLog>, RpcError>

  /** Chain order: block, then position in the block. */
  predicate LogBefore(a: RawLog, b: RawLog) {
    a.blockNumber < b.blockNumber || (a.blockNumber == b.blockNumber && a.logIndex <= b.logIndex)
  }

  /** The matching logs of a chain: in chain order, one per position, none removed. */
  ghost predicate IsChain(chain: seq<RawLog>) {
    && SortedBy(chain, LogBefore)
    && Strict(chain, LogBefore)
    && forall i | 0 <= i < |chain| :: !chain[i].removed
  }

  ghost function InRange(chain: seq<RawLog>, start: int, end: int): seq<RawLog> {
    if chain == [] then []
    else (if start <= chain[0].blockNumber <= end then [chain[0]] else []) + InRange(chain[1..], start, end)
  }

  function Kept(logs: seq<RawLog>): seq<RawLog> {
    if logs == [] then []
    else (if logs[0].removed then [] else [logs[0]]) + Kept(logs[1..])
  }

  lemma CountFirst(first: RawLog, rest: seq<RawLog>, x: RawLog)
    ensures multiset([first] + rest)[x] == multiset(rest)[x] + if first == x then 1 else 0
  {
    assert multiset([first] + rest) == multiset([first]) + multiset(rest);
  }

  /** Removed logs are dropped, and every other log is kept as often as it came. */
  lemma {:induction false} KeptIff(logs: seq<RawLog>, x: RawLog)
    ensures multiset(Kept(logs))[x] == if x.removed then 0 else multiset(logs)[x]
  {
    if logs != [] {
      KeptIff(logs[1..], x);
      CountFirst(logs[0], logs[1..], x);
      CountFirst(logs[0], Kept(logs[1..]), x);
      assert logs == [logs[0]] + logs[1..];
      assert logs[0].removed ==> Kept(logs) == Kept(logs[1..]);
    }
  }

  /** An answer holds the logs of its range, in any order, besides any marked removed. */
  ghost predicate Honest(endpoint: Endpoint, chain: seq<RawLog>) {
    forall start: nat, end: nat :: endpoint(start, end).Ok? ==>
      multiset(Kept(endpoint(start, end).value)) == multiset(InRange(chain, start, end))
  }

  lemma {:induction false} RangesJoin(chain: seq<RawLog>, start: int, middle: int, end: int)
    requires start <= middle + 1 && middle <= end
    ensures multiset(InRange(chain, start, end))
         == multiset(InRange(chain, start, middle)) + multiset(InRange(chain, middle + 1, end))
  {
    if chain != [] {
      RangesJoin(chain[1..], start, middle, end);
    }
  }

  lemma {:induction false} EmptyRange(chain: seq<RawLog>, start: int, end: int)
    requires end < start
    ensures InRange(chain, start, end) == []
  {
    if chain != [] {
      EmptyRange(chain[1..], start, end);
    }
  }

  lemma {:induction false} InRangeOf(chain: seq<RawLog>, start: int, end: int, x: RawLog)
    ensures x in InRange(chain, start, end) <==> x in chain && start <= x.blockNumber <= end
  {
    if chain != [] {
      InRangeOf(chain[1..], start, end, x);
    }
  }

  lemma {:induction false} InRangeOrdered(chain: seq<RawLog>, start: int, end: int)
    requires SortedBy(chain, LogBefore)
    ensures SortedBy(InRange(chain, start, end), LogBefore)
  {
    if chain != [] {
      InRangeOrdered(chain[1..], start, end);
      var rest := InRange(chain[1..], start, end);
      forall x | x in rest
        ensures LogBefore(chain[0], x)
      {
        InRangeOf(chain[1..], start, end, x);
      }
      PrependSorted(chain[0], rest, LogBefore);
    }
  }

  /** A range's logs stand by block and by their place in it; two of one place are one log; none is removed. */
  lemma RangeInChainOrder(chain: seq<RawLog>, start: int, end: int, i: nat, j: nat)
    requires IsChain(chain) && i < j < |InRange(chain, start, end)|
    ensures var a, b := InRange(chain, start, end)[i], InRange(chain, start, end)[j];
            && start <= a.blockNumber <= b.blockNumber <= end && !a.removed && !b.removed
            && (a.blockNumber < b.blockNumber || a.logIndex < b.logIndex || a == b)
            && (a.blockNumber == b.blockNumber ==> a.logIndex <= b.logIndex)
  {
    InRangeOrdered(chain, start, end);
    var a, b := InRange(chain, start, end)[i], InRange(chain, start, end)[j];
    InRangeOf(chain, start, end, a);
    InRangeOf(chain, start, end, b);
    hide InRange;
    assert LogBefore(a, b);
  }

  /** What was collected is the range's logs, in some order. */
  ghost predicate Gathered(chain: seq<RawLog>, start: int, end: int, collected: seq<RawLog>) {
    multiset(collected) == multiset(InRange(chain, start, end))
  }

  lemma NothingGathered(chain: seq<RawLog>, from: int)
    ensures Gathered(chain, from, from - 1, [])
  {
    EmptyRange(chain, from, from - 1);
  }

  /** Sorting what was collected from a chain gives back the chain's own order. */
  lemma CollectedInOrder(chain: seq<RawLog>, start: int, end: int, collected: seq<RawLog>)
    requires IsChain(chain) && Gathered(chain, start, end, collected)
    ensures Sort(collected, LogBefore) == InRange(chain, start, end)
  {
    var wanted := InRange(chain, start, end);
    assert TotalPreorder(LogBefore);
    SortSorts(collected, LogBefore);
    InRangeOrdered(chain, start, end);
    forall x, y | x in wanted && y in wanted && LogBefore(x, y) && LogBefore(y, x)
      ensures x == y
    {
      InRangeOf(chain, start, end, x);
      InRangeOf(chain, start, end, y);
    }
    SortedUnique(wanted, Sort(collected, LogBefore), LogBefore);
  }

  /** The stack, top last, covers `next .. to` without gap or overlap. */
  ghost predicate Tiles(pending: seq<(nat, nat)>, next: int, to: int) {
    if pending == [] then next == to + 1
    else
      var (start, end) := pending[|pending| - 1];
      start == next && start <= end && Tiles(pending[..|pending| - 1], end + 1, to)
  }

  /** How many requests the stack can still cost. */
  ghost function Budget(pending: seq<(nat, nat)>): int {
    if pending == [] then 0
    else
      var (start, end) := pending[|pending| - 1];
      2 * (end - start) + 1 + Budget(pending[..|pending| - 1])
  }

  /** Why a scan gives up: an error that is not about size, or a single block refused. */
  ghost predicate GivesUp(endpoint: Endpoint, from: int, to: int, e: RpcError) {
    exists start: nat, end: nat ::
      from <= start <= end <= to && endpoint(start, end) == Err(e) && (e.TooManyLogs? ==> start == end)
  }

  lemma SplitTop(rest: seq<(nat, nat)>, start: nat, middle: nat, end: nat, to: int)
    requires start <= middle < end && Tiles(rest, end + 1, to)
    ensures Tiles(rest + [(middle + 1, end), (start, middle)], start, to)
    ensures Budget(rest + [(middle + 1, end), (start, middle)]) == Budget(rest) + 2 * (end - start)
  {
    var one := rest + [(middle + 1, end)];
    var two := rest + [(middle + 1, end), (start, middle)];
    assert two[..|two| - 1] == one && one[..|one| - 1] == rest;
    assert Tiles(one, middle + 1, to);
  }

  /**
   Every log of the range exactly once, in chain order, however the endpoint
   chops the range; or the error it gives up on. At most `2n - 1` requests for
   `n` blocks.
   */
  method ScanLogs(endpoint: Endpoint, ghost chain: seq<RawLog>, from: nat, to: nat)
    returns (r: Result<seq<RawLog>, RpcError>, asked: nat)
    requires IsChain(chain) && Honest(endpoint, chain)
    ensures r.Ok? ==> r.value == InRange(chain, from, to)
    ensures r.Err? ==> GivesUp(endpoint, from, to, r.error)
    ensures to < from ==> r.Ok? && asked == 0
    ensures from <= to ==> asked <= 2 * (to - from) + 1
  {
    hide IsChain, InRange, Honest, Tiles, Budget, GivesUp, Gathered;
    asked := 0;
    NothingGathered(chain, from);
    if to < from {
      EmptyRange(chain, from, to);
      return Ok([]), asked;
    }
    var collected: seq<RawLog> := [];
    var pending: seq<(nat, nat)> := [(from, to)];
    ghost var next: int := from;
    OneTile(from, to);
    while |pending| > 0
      invariant from <= next && Tiles(pending, next, to)
      invariant Gathered(chain, from, next - 1, collected)
      invariant asked + Budget(pending) <= 2 * (to - from) + 1
      decreases Budget(pending)
    {
      TopTile(pending, next, to);
      var (start, end) := pending[|pending| - 1];
      pending := pending[..|pending| - 1];
      asked := asked + 1;
      match endpoint(start, end) {
        case Ok(logs) =>
          AnswerCovers(endpoint, chain, from, start, end, collected);
          collected := collected + Kept(logs);
          next := end + 1;
        case Err(e) =>
          if !e.TooManyLogs? || start == end {
            GivingUp(endpoint, from, to, start, end, e);
            return Err(e), asked;
          }
          var middle := start + (end - start) / 2;
          SplitTop(pending, start, middle, end, to);
          pending := pending + [(middle + 1, end), (start, middle)];
      }
    }
    assert pending == [];
    NoTiles(next, to);
    CollectedInOrder(chain, from, to, collected);
    return Ok(Sort(collected, LogBefore)), asked;
  }

  lemma OneTile(from: nat, to: nat)
    requires from <= to
    ensures Tiles([(from, to)], from, to) && Budget([(from, to)]) == 2 * (to - from) + 1
  {
    var one := [(from, to)];
    assert one[..0] == [] && Tiles([], to + 1, to);
  }

  lemma NoTiles(next: int, to: int)
    requires Tiles([], next, to)
    ensures next == to + 1 && Budget([]) == 0
  {
  }

  lemma {:induction false} TopTile(pending: seq<(nat, nat)>, next: int, to: int)
    requires pending != [] && Tiles(pending, next, to)
    ensures var (start, end) := pending[|pending| - 1];
            && start == next && start <= end <= to
            && Tiles(pending[..|pending| - 1], end + 1, to)
            && Budget(pending) == 2 * (end - start) + 1 + Budget(pending[..|pending| - 1])
            && 0 <= Budget(pending[..|pending| - 1])
  {
    var rest := pending[..|pending| - 1];
    if rest != [] {
      TopTile(rest, pending[|pending| - 1].1 + 1, to);
    }
  }

  lemma AnswerCovers(endpoint: Endpoint, chain: seq<RawLog>, from: nat, start: nat, end: nat, collected: seq<RawLog>)
    requires Honest(endpoint, chain) && endpoint(start, end).Ok? && from <= start <= end
    requires Gathered(chain, from, start - 1, collected)
    ensures Gathered(chain, from, end, collected + Kept(endpoint(start, end).value))
  {
    RangesJoin(chain, from, start - 1, end);
  }

  lemma GivingUp(endpoint: Endpoint, from: int, to: int, start: nat, end: nat, e: RpcError)
    requires from <= start <= end <= to && endpoint(start, end) == Err(e)
    requires !e.TooManyLogs? || start == end
    ensures GivesUp(endpoint, from, to, e)
  {
  }
}

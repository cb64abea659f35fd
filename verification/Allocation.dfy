/** The 24-hour distribution, packages/rewards-math/src/allocation.ts. */
module Allocation {
  import opened Arithmetic
  import opened Money
  import opened Ordering
  import opened Wrappers

  // Floored proportional shares, a per-wallet cap whose excess is shared again
  // until nothing overflows, and a claim threshold.

  const POOL_DISTRIBUTABLE_BPS: nat := 8_000
  const PER_WALLET_CAP_BPS: nat := 200
  const MIN_QUALIFYING_WP: nat := 50

  // ---------------------------------------------------------------------
  // Sharing, over the weights alone
  // ---------------------------------------------------------------------

  /** The weight of everyone from position `k` on. */
  ghost function WeightFrom(w: seq<nat>, k: nat): nat
    requires k <= |w|
    decreases |w| - k
  {
    if k == |w| then 0 else w[k] + WeightFrom(w, k + 1)
  }

  /** What is left once the first `k` take the cap. */
  ghost function LeftAfter(d: nat, cap: nat, k: nat): int {
    d - Times(k, cap)
  }

  /** The floored share of position `i` when the first `k` are capped. */
  ghost function Share(d: nat, cap: nat, w: seq<nat>, k: nat, i: nat): int
    requires k <= |w| && i < |w|
  {
    var total := WeightFrom(w, k);
    if total == 0 then 0 else Times(LeftAfter(d, cap, k), w[i]) / total
  }

  ghost predicate Overfull(d: nat, cap: nat, w: seq<nat>, k: nat, i: nat)
    requires k <= |w| && i < |w|
  {
    Share(d, cap, w, k, i) > cap
  }

  /** Capping the first `k` overfills nobody else. */
  ghost predicate Settled(d: nat, cap: nat, w: seq<nat>, k: nat) {
    k <= |w| && forall i | k <= i < |w| :: !Overfull(d, cap, w, k, i)
  }

  /** Heaviest first. */
  ghost predicate Descending(w: seq<nat>) {
    forall i, j | 0 <= i <= j < |w| :: w[i] >= w[j]
  }

  ghost function SettledFrom(d: nat, cap: nat, w: seq<nat>, from: nat): (k: nat)
    requires from <= |w|
    ensures from <= k && Settled(d, cap, w, k)
    ensures forall j: nat | from <= j < k :: !Settled(d, cap, w, j)
    decreases |w| - from
  {
    if Settled(d, cap, w, from) then from else SettledFrom(d, cap, w, from + 1)
  }

  /** How many are capped in the end: the shortest prefix that settles. */
  ghost function CapCount(d: nat, cap: nat, w: seq<nat>): (k: nat)
    ensures Settled(d, cap, w, k)
    ensures forall j: nat | j < k :: !Settled(d, cap, w, j)
  {
    SettledFrom(d, cap, w, 0)
  }

  /** What position `i` receives. */
  ghost function Amount(d: nat, cap: nat, w: seq<nat>, i: nat): int
    requires i < |w|
  {
    var k := CapCount(d, cap, w);
    if i < k then cap else Share(d, cap, w, k, i)
  }

  lemma {:induction false} WeightFromAtLeast(w: seq<nat>, k: nat, i: nat)
    requires k <= i < |w|
    ensures WeightFrom(w, k) >= w[i]
    decreases i - k
  {
    if k < i {
      WeightFromAtLeast(w, k + 1, i);
    }
  }

  /** In descending order nobody is overfull unless everyone before is. */
  lemma OverfullDescends(d: nat, cap: nat, w: seq<nat>, k: nat, i: nat, j: nat)
    requires Descending(w) && k <= |w| && i <= j < |w| && LeftAfter(d, cap, k) >= 0
    ensures Share(d, cap, w, k, i) >= Share(d, cap, w, k, j)
  {
    var left, total := LeftAfter(d, cap, k), WeightFrom(w, k);
    if total > 0 {
      MulMonotone(w[j], w[i], left);
      FloorMonotone(Times(left, w[j]), Times(left, w[i]), total);
    }
  }

  /** Taking a fair part out of a pool does not shrink the other parts. */
  lemma PartOut(left: nat, total: nat, part: nat, cap: nat, b: nat)
    requires part < total && cap <= left
    requires left * part >= cap * total
    ensures (left - cap) * b / (total - part) >= left * b / total
  {
    var q := left * b / total;
    FloorAtLeast(left * b, total, q);
    CrossMultiply(left, total, part, cap);
    CancelTotal(q, total, total - part, left, left - cap, b);
    FloorAtLeast((left - cap) * b, total - part, q);
  }

  lemma CrossMultiply(left: nat, total: nat, part: nat, cap: nat)
    requires part <= total && cap <= left && left * part >= cap * total
    ensures (left - cap) * total >= left * (total - part)
  {
    assert (left - cap) * total == left * total - cap * total;
    assert left * (total - part) == left * total - left * part;
  }

  lemma CancelTotal(q: nat, total: nat, rest: nat, left: nat, less: nat, b: nat)
    requires total > 0 && rest > 0 && q * total <= left * b && less * total >= left * rest
    ensures q * rest <= less * b
  {
    MulMonotone(q * total, left * b, rest);
    MulMonotone(left * rest, less * total, b);
    assert (q * total) * rest == (q * rest) * total;
    assert (left * b) * rest == (left * rest) * b;
    assert (less * total) * b == (less * b) * total;
    assert (less * b + 1) * total == (less * b) * total + total;
    if q * rest > less * b {
      MulMonotone(less * b + 1, q * rest, total);
    }
  }

  /** What one overfull wallet means for the pool and the weights. */
  lemma OverfullLeaves(d: nat, cap: nat, w: seq<nat>, k: nat)
    requires k < |w| && LeftAfter(d, cap, k) >= 0 && Overfull(d, cap, w, k, k)
    ensures LeftAfter(d, cap, k + 1) == LeftAfter(d, cap, k) - cap >= 1
    ensures LeftAfter(d, cap, k) * w[k] >= cap * WeightFrom(w, k)
    ensures w[k] > 0
  {
    var left, total := LeftAfter(d, cap, k), WeightFrom(w, k);
    TimesSucc(k, cap);
    FloorAtLeast(left * w[k], total, cap + 1);
    assert (cap + 1) * total == cap * total + total;
    if left <= cap {
      MulMonotone(left, cap, w[k]);
      MulMonotone(w[k], total, cap);
    }
    if w[k] == 0 {
      TimesZero(left);
    }
  }

  /** Capping the overfull wallet at `k` leaves every later share at least what it was. */
  lemma ShareNeverFalls(d: nat, cap: nat, w: seq<nat>, k: nat, i: nat)
    requires k < i < |w| && LeftAfter(d, cap, k) >= 0 && Overfull(d, cap, w, k, k)
    ensures Share(d, cap, w, k + 1, i) >= Share(d, cap, w, k, i)
  {
    var left, total := LeftAfter(d, cap, k), WeightFrom(w, k);
    OverfullLeaves(d, cap, w, k);
    WeightFromAtLeast(w, k + 1, i);
    if w[k] == total {
      assert w[i] == 0;
      assert Times(left, w[i]) == 0;
    } else {
      PartOut(left, total, w[k], cap, w[i]);
    }
  }

  /**
   Capping a whole batch is capping its wallets one at a time: if everyone from
   `k` up to `j` overflows when `k` are capped, then each step of the way still
   overflows, the pool stays positive, and no remaining share has fallen.
   */
  lemma {:induction false} BatchIsSteps(d: nat, cap: nat, w: seq<nat>, k: nat, j: nat)
    requires k <= j <= |w| && LeftAfter(d, cap, k) >= 0
    requires forall i | k <= i < j :: Overfull(d, cap, w, k, i)
    ensures LeftAfter(d, cap, j) >= 0
    ensures forall i | k <= i < j :: !Settled(d, cap, w, i)
    ensures forall i | j <= i < |w| :: Share(d, cap, w, j, i) >= Share(d, cap, w, k, i)
    decreases j - k
  {
    if k < j {
      OverfullLeaves(d, cap, w, k);
      assert Overfull(d, cap, w, k, k);
      assert !Settled(d, cap, w, k);
      forall i | k < i < |w|
        ensures Share(d, cap, w, k + 1, i) >= Share(d, cap, w, k, i)
      {
        ShareNeverFalls(d, cap, w, k, i);
      }
      hide Share, LeftAfter, Settled, WeightFrom;
      var next := k + 1;
      forall i | next <= i < j
        ensures Overfull(d, cap, w, next, i)
      {
        assert Overfull(d, cap, w, k, i);
      }
      BatchIsSteps(d, cap, w, next, j);
    }
  }

  /** Up to the settling prefix, every next wallet overflows in its turn. */
  lemma {:induction false} PrefixOverfull(d: nat, cap: nat, w: seq<nat>, k: nat)
    requires Descending(w) && k <= CapCount(d, cap, w)
    ensures LeftAfter(d, cap, k) >= 0
    ensures k < CapCount(d, cap, w) ==> Overfull(d, cap, w, k, k)
  {
    if k > 0 {
      PrefixOverfull(d, cap, w, k - 1);
      OverfullLeaves(d, cap, w, k - 1);
    }
    if k < CapCount(d, cap, w) {
      assert !Settled(d, cap, w, k);
      var i :| k <= i < |w| && Overfull(d, cap, w, k, i);
      OverfullDescends(d, cap, w, k, k, i);
    }
  }

  // ---------------------------------------------------------------------
  // What the amounts add up to
  // ---------------------------------------------------------------------

  /** The shares of positions `i` on, with the first `k` capped. */
  ghost function SharesFrom(d: nat, cap: nat, w: seq<nat>, k: nat, i: nat): int
    requires k <= |w| && i <= |w|
    decreases |w| - i
  {
    if i == |w| then 0 else Share(d, cap, w, k, i) + SharesFrom(d, cap, w, k, i + 1)
  }

  ghost function AmountsFrom(d: nat, cap: nat, w: seq<nat>, i: nat): int
    requires i <= |w|
    decreases |w| - i
  {
    if i == |w| then 0 else Amount(d, cap, w, i) + AmountsFrom(d, cap, w, i + 1)
  }

  lemma FloorLoses(left: nat, b: nat, total: nat)
    requires total > 0
    ensures var q := left * b / total; q * total <= left * b < q * total + total
  {
    FloorIs(left * b, total, left * b / total);
  }

  /** One more wallet in a sum of floors. */
  lemma SharesStep(left: nat, total: nat, part: nat, rest: nat, sum: int, n: nat)
    requires total > 0
    requires Times(sum, total) <= Times(left, rest) <= Times(sum + n, total)
    ensures var q := Times(left, part) / total;
            Times(q + sum, total) <= Times(left, part + rest) <= Times(q + sum + (n + 1), total)
  {
    var q := left * part / total;
    FloorLoses(left, part, total);
    assert (q + sum) * total == q * total + sum * total;
    assert left * (part + rest) == left * part + left * rest;
    assert (q + sum + (n + 1)) * total == (sum + n) * total + (q * total + total);
  }

  /** Flooring loses less than one unit for each wallet sharing. */
  lemma {:induction false} SharesBound(d: nat, cap: nat, w: seq<nat>, k: nat, i: nat)
    requires k <= i <= |w| && LeftAfter(d, cap, k) >= 0 && WeightFrom(w, k) > 0
    ensures var left, total, sum := LeftAfter(d, cap, k), WeightFrom(w, k), SharesFrom(d, cap, w, k, i);
            Times(sum, total) <= Times(left, WeightFrom(w, i)) <= Times(sum + (|w| - i), total)
    decreases |w| - i
  {
    var left, total := LeftAfter(d, cap, k), WeightFrom(w, k);
    if i < |w| {
      SharesBound(d, cap, w, k, i + 1);
      SharesStep(left, total, w[i], WeightFrom(w, i + 1), SharesFrom(d, cap, w, k, i + 1), |w| - (i + 1));
    }
  }

  lemma {:induction false} AmountsAreCapsAndShares(d: nat, cap: nat, w: seq<nat>, i: nat)
    requires i <= |w|
    ensures var k := CapCount(d, cap, w);
            AmountsFrom(d, cap, w, i) ==
            if i >= k then SharesFrom(d, cap, w, k, i) else Times(k - i, cap) + SharesFrom(d, cap, w, k, k)
    decreases |w| - i
  {
    var k := CapCount(d, cap, w);
    hide Times, CapCount, Share;
    if i < |w| {
      AmountsAreCapsAndShares(d, cap, w, i + 1);
      if i < k {
        TimesSucc(k - i - 1, cap);
      }
    }
  }

  lemma CancelLess(a: int, b: int, total: nat)
    requires total > 0 && a * total <= b * total
    ensures a <= b
  {
    assert (b + 1) * total == b * total + total;
    if a > b {
      MulMonotone(b + 1, a, total);
    }
  }

  /**
   Nothing is created: the amounts never exceed what is distributed. And while
   somebody is uncapped nothing is lost but the flooring, less than one unit a
   wallet; when everyone is capped, exactly the caps are paid.
   */
  lemma AmountsConserve(d: nat, cap: nat, w: seq<nat>)
    requires Descending(w) && forall i | 0 <= i < |w| :: w[i] > 0
    ensures var k := CapCount(d, cap, w);
            && AmountsFrom(d, cap, w, 0) <= d
            && (k < |w| ==> d - AmountsFrom(d, cap, w, 0) <= |w| - k)
            && (k == |w| ==> AmountsFrom(d, cap, w, 0) == Times(|w|, cap))
  {
    var k := CapCount(d, cap, w);
    PrefixOverfull(d, cap, w, k);
    AmountsAreCapsAndShares(d, cap, w, 0);
    if k < |w| {
      var left, total, sum := LeftAfter(d, cap, k), WeightFrom(w, k), SharesFrom(d, cap, w, k, k);
      WeightFromAtLeast(w, k, k);
      SharesBound(d, cap, w, k, k);
      CancelLess(sum, left, total);
      CancelLess(left, sum + (|w| - k), total);
    }
  }

  /** Nobody receives more than the cap, nor less than nothing, and the heavier never receive less. */
  lemma AmountsAreFair(d: nat, cap: nat, w: seq<nat>, i: nat, j: nat)
    requires Descending(w) && i <= j < |w|
    ensures cap >= Amount(d, cap, w, i) >= Amount(d, cap, w, j) >= 0
  {
    var k := CapCount(d, cap, w);
    PrefixOverfull(d, cap, w, k);
    forall x | k <= x < |w|
      ensures 0 <= Share(d, cap, w, k, x) <= cap
    {
      assert !Overfull(d, cap, w, k, x);
      var total := WeightFrom(w, k);
      if total > 0 {
        MulMonotone(0, LeftAfter(d, cap, k), w[x]);
        FloorAtLeast(Times(LeftAfter(d, cap, k), w[x]), total, 0);
      }
    }
    if k <= i {
      OverfullDescends(d, cap, w, k, i, j);
    }
  }

  lemma UncappedFits(d: nat, cap: nat, w: seq<nat>, i: nat)
    requires CapCount(d, cap, w) <= i < |w|
    ensures Share(d, cap, w, CapCount(d, cap, w), i) <= cap
  {
    assert !Overfull(d, cap, w, CapCount(d, cap, w), i);
  }

  /** Equal weights receive equal amounts: the cap never separates them. */
  lemma EqualWeightsEqualAmounts(d: nat, cap: nat, w: seq<nat>, i: nat, j: nat)
    requires Descending(w) && i <= j < |w| && w[i] == w[j]
    ensures Amount(d, cap, w, i) == Amount(d, cap, w, j)
  {
    var k := CapCount(d, cap, w);
    if i < k <= j {
      PrefixOverfull(d, cap, w, k - 1);
      assert w[k - 1] == w[j];
      UncappedFits(d, cap, w, j);
      ShareNeverFalls(d, cap, w, k - 1, j);
    }
  }

  /**
   With fewer than fifty wallets and a cap larger than their number, the cap
   binds every one of them: weights no longer matter and the rest carries over.
   */
  lemma FewWalletsAllCapped(d: nat, cap: nat, w: seq<nat>)
    requires Descending(w) && forall i | 0 <= i < |w| :: w[i] > 0
    requires cap == ApplyBasisPoints(d, PER_WALLET_CAP_BPS) && |w| < 50 && cap > |w|
    ensures CapCount(d, cap, w) == |w|
  {
    var k := CapCount(d, cap, w);
    if k < |w| {
      PrefixOverfull(d, cap, w, k);
      AmountsConserve(d, cap, w);
      AmountsAtMostCaps(d, cap, w, 0);
      FloorAtLeast(d * PER_WALLET_CAP_BPS, BASIS_POINTS, cap);
      assert |w| * cap <= 49 * cap by {
        MulMonotone(|w|, 49, cap);
      }
    }
  }

  /** The heaviest of those sharing weighs at least their average. */
  lemma {:induction false} HeaviestIsAverage(w: seq<nat>, k: nat, i: nat)
    requires Descending(w) && k <= i <= |w| && k < |w|
    ensures WeightFrom(w, i) <= Times(|w| - i, w[k])
    decreases |w| - i
  {
    if i < |w| {
      HeaviestIsAverage(w, k, i + 1);
      TimesSucc(|w| - i - 1, w[k]);
    } else {
      TimesSucc(0, w[k]);
    }
  }

  /** A share of at least the average, of a pool that gives each sharer more than the cap, overflows. */
  lemma AverageOverflows(left: nat, part: nat, total: nat, n: nat, cap: nat)
    requires n > 0 && total > 0 && total <= n * part && left >= n * (cap + 1)
    ensures left * part / total > cap
  {
    MulMonotone(n * (cap + 1), left, part);
    MulMonotone(total, n * part, cap + 1);
    assert n * (cap + 1) * part == n * part * (cap + 1);
    FloorAtLeast(left * part, total, cap + 1);
  }

  lemma NextOverflows(d: nat, cap: nat, w: seq<nat>, k: nat)
    requires Descending(w) && (forall i | 0 <= i < |w| :: w[i] > 0) && k < |w|
    requires |w| * (cap + 1) <= d
    ensures !Settled(d, cap, w, k)
  {
    HeaviestIsAverage(w, k, k);
    WeightFromAtLeast(w, k, k);
    assert |w| * (cap + 1) == k * cap + k + (|w| - k) * (cap + 1);
    AverageOverflows(d - k * cap, w[k], WeightFrom(w, k), |w| - k, cap);
    assert Overfull(d, cap, w, k, k);
  }

  lemma {:induction false} EvenWeights(w: seq<nat>, k: nat)
    requires k <= |w| && forall i | 0 <= i < |w| :: w[i] == 1
    ensures WeightFrom(w, k) == |w| - k
    decreases |w| - k
  {
    if k < |w| {
      EvenWeights(w, k + 1);
    }
  }

  ghost predicate Weighting(w: seq<nat>, n: nat) {
    |w| == n && Descending(w) && forall i | 0 <= i < |w| :: w[i] > 0
  }

  /** Everyone is held to the cap whatever they weigh exactly when an even split would give each more than the cap. */
  lemma EveryoneCappedIff(d: nat, cap: nat, n: nat)
    requires n > 0
    ensures (forall w | Weighting(w, n) :: CapCount(d, cap, w) == n) <==> n * (cap + 1) <= d
  {
    if n * (cap + 1) <= d {
      forall w | Weighting(w, n)
        ensures CapCount(d, cap, w) == n
      {
        if CapCount(d, cap, w) < n {
          NextOverflows(d, cap, w, CapCount(d, cap, w));
        }
      }
    } else {
      var even: seq<nat> := seq(n, _ => 1);
      assert Weighting(even, n);
      EvenWeights(even, 0);
      FloorAtLeast(d, n, cap + 1);
      assert Times(LeftAfter(d, cap, 0), 1) == d;
      assert forall i | 0 <= i < n :: Share(d, cap, even, 0, i) == d / n;
      assert Settled(d, cap, even, 0);
      assert CapCount(d, cap, even) == 0;
    }
  }

  /** With fifty wallets or more it never would: a fiftieth each is all there is. */
  lemma FiftyWalletsAreNot(d: nat, n: nat)
    requires n >= 50
    ensures n * (ApplyBasisPoints(d, PER_WALLET_CAP_BPS) + 1) > d
  {
    var cap := ApplyBasisPoints(d, PER_WALLET_CAP_BPS);
    FloorIs(d * PER_WALLET_CAP_BPS, BASIS_POINTS, cap);
    MulMonotone(50, n, cap + 1);
  }

  lemma {:induction false} AmountsAtMostCaps(d: nat, cap: nat, w: seq<nat>, i: nat)
    requires Descending(w) && i <= |w|
    ensures AmountsFrom(d, cap, w, i) <= Times(|w| - i, cap)
    decreases |w| - i
  {
    if i < |w| {
      AmountsAreFair(d, cap, w, i, i);
      TimesSucc(|w| - i - 1, cap);
      hide Amount, Times;
      AmountsAtMostCaps(d, cap, w, i + 1);
    }
  }

  // ---------------------------------------------------------------------
  // Standings
  // ---------------------------------------------------------------------

  type Wallet = nat

  datatype Standing = Standing(wallet: Wallet, windowWarPoints: int)

  datatype WalletAllocation = WalletAllocation(
    wallet: Wallet,
    windowWarPoints: int,
    weight: nat,
    amount: int,
    capped: bool,
    carriedForward: int)

  datatype AllocationResult = AllocationResult(
    allocations: seq<WalletAllocation>,
    distributable: nat,
    carriedForward: int,
    totalAllocated: int,
    totalWeight: nat,
    cappedWalletCount: nat,
    unqualifiedWalletCount: int)

  datatype AllocationError = NegativePool | NegativeThreshold | DuplicateWallet(wallet: Wallet) | BadWarPoints(who: Wallet)

  /** Most War Points first, then ascending address. */
  predicate RanksBefore(a: Standing, b: Standing) {
    a.windowWarPoints > b.windowWarPoints || (a.windowWarPoints == b.windowWarPoints && a.wallet <= b.wallet)
  }

  function Qualified(standings: seq<Standing>): seq<Standing> {
    if standings == [] then []
    else (if standings[0].windowWarPoints >= MIN_QUALIFYING_WP then [standings[0]] else []) + Qualified(standings[1..])
  }

  function Ranked(standings: seq<Standing>): seq<Standing> {
    Sort(Qualified(standings), RanksBefore)
  }

  ghost function Wallets(s: seq<Standing>): set<Wallet> {
    set i | 0 <= i < |s| :: s[i].wallet
  }

  ghost predicate OneEach(s: seq<Standing>) {
    forall i, j | 0 <= i < |s| && 0 <= j < |s| && s[i].wallet == s[j].wallet :: i == j
  }

  ghost predicate Playing(s: seq<Standing>) {
    forall i | 0 <= i < |s| :: s[i].windowWarPoints >= MIN_QUALIFYING_WP
  }

  ghost function WeightsOf(s: seq<Standing>): seq<nat>
    requires Playing(s)
  {
    seq(|s|, i requires 0 <= i < |s| => RewardWeight(s[i].windowWarPoints))
  }

  /** The first standing the source refuses, and why. */
  ghost function Refusal(standings: seq<Standing>, i: nat): Option<AllocationError>
    requires i <= |standings|
    decreases |standings| - i
  {
    if i == |standings| then None
    else if standings[i].wallet in Wallets(standings[..i]) then Some(DuplicateWallet(standings[i].wallet))
    else if standings[i].windowWarPoints < 0 then Some(BadWarPoints(standings[i].wallet))
    else Refusal(standings, i + 1)
  }

  lemma PrefixWallets(s: seq<Standing>, k: nat, i: nat)
    requires k <= |s| && i < |s|
    ensures OneEach(s) ==> (s[i].wallet in Wallets(s[..k]) <==> i < k)
    ensures k == i ==> Wallets(s[..i + 1]) == Wallets(s[..i]) + {s[i].wallet}
  {
    var a := s[..k];
    if i < k {
      assert a[i] == s[i];
    }
    if k == i {
      var b := s[..i + 1];
      assert b[i] == s[i] && forall j | 0 <= j < i :: b[j] == a[j];
    }
  }

  // ---------------------------------------------------------------------
  // The loop
  // ---------------------------------------------------------------------

  ghost predicate Weighs(ordered: seq<Standing>, weights: map<Wallet, nat>)
  {
    Playing(ordered) && forall i | 0 <= i < |ordered| ::
      ordered[i].wallet in weights && weights[ordered[i].wallet] == WeightsOf(ordered)[i]
  }

  /** Exactly the first `k` are capped. */
  ghost predicate CapsPrefix(ordered: seq<Standing>, capped: set<Wallet>, k: nat) {
    k <= |ordered| && capped == Wallets(ordered[..k])
  }

  lemma InCapsPrefix(ordered: seq<Standing>, capped: set<Wallet>, k: nat, i: nat)
    requires OneEach(ordered) && CapsPrefix(ordered, capped, k) && i < |ordered|
    ensures ordered[i].wallet in capped <==> i < k
    ensures i == k ==> CapsPrefix(ordered, capped + {ordered[i].wallet}, k + 1)
  {
    PrefixWallets(ordered, k, i);
  }

  /** What is left for the uncapped, and what they weigh together. */
  method PassTotals(ordered: seq<Standing>, weights: map<Wallet, nat>, distributable: nat, cap: nat,
      capped: set<Wallet>,
                    ghost k: nat)
    returns (remaining: int, remainingWeight: nat)
    requires OneEach(ordered) && Weighs(ordered, weights) && CapsPrefix(ordered, capped, k)
    ensures remaining == LeftAfter(distributable, cap, k)
    ensures remainingWeight == WeightFrom(WeightsOf(ordered), k)
  {
    ghost var w := WeightsOf(ordered);
    remaining, remainingWeight := distributable, 0;
    TimesSucc(0, cap);
    for i := 0 to |ordered|
      invariant remaining == LeftAfter(distributable, cap, if i < k then i else k)
      invariant i <= k ==> remainingWeight == 0
      invariant i >= k ==> remainingWeight + WeightFrom(w, i) == WeightFrom(w, k)
    {
      hide OneEach, CapsPrefix, RewardWeight, Times;
      InCapsPrefix(ordered, capped, k, i);
      TimesSucc(i, cap);
      if ordered[i].wallet in capped {
        remaining := remaining - cap;
      } else {
        remainingWeight := remainingWeight + weights[ordered[i].wallet];
      }
    }
  }

  /** The amounts the first `n` positions hold after a pass that began with `k` capped. */
  ghost predicate PassAmounts(ordered: seq<Standing>, d: nat, cap: nat, k: nat, amounts: map<Wallet, int>, n: nat)
    requires Playing(ordered) && k <= |ordered| && n <= |ordered|
  {
    forall i | 0 <= i < n ::
      && ordered[i].wallet in amounts
      && amounts[ordered[i].wallet] == if i < k then cap else Share(d, cap, WeightsOf(ordered), k, i)
  }

  lemma PassAmountsGrow(ordered: seq<Standing>, d: nat, cap: nat, k: nat, amounts: map<Wallet, int>, n: nat, x: int)
    requires OneEach(ordered) && Playing(ordered) && k <= |ordered| && n < |ordered|
    requires PassAmounts(ordered, d, cap, k, amounts, n)
    requires x == if n < k then cap else Share(d, cap, WeightsOf(ordered), k, n)
    ensures PassAmounts(ordered, d, cap, k, amounts[ordered[n].wallet := x], n + 1)
  {
  }

  lemma PassStarts(ordered: seq<Standing>, d: nat, cap: nat, capped: set<Wallet>, k: nat, amounts: map<Wallet, int>)
    requires Playing(ordered) && CapsPrefix(ordered, capped, k)
    ensures k <= |ordered| && PassAmounts(ordered, d, cap, k, amounts, 0)
  {
  }

  /** One pass: shares what is left, and caps whoever overflows. */
  method SharePass(ordered: seq<Standing>, weights: map<Wallet, nat>, distributable: nat, cap: nat,
                   capped: set<Wallet>, amounts: map<Wallet, int>, ghost k: nat)
    returns (nowCapped: set<Wallet>, nowAmounts: map<Wallet, int>, newlyCapped: bool, ghost m: nat)
    requires OneEach(ordered) && Weighs(ordered, weights) && CapsPrefix(ordered, capped, k)
    requires Descending(WeightsOf(ordered)) && LeftAfter(distributable, cap, k) >= 0
    ensures k <= m && CapsPrefix(ordered, nowCapped, m) && newlyCapped == (m > k)
    ensures forall i | k <= i < m :: Overfull(distributable, cap, WeightsOf(ordered), k, i)
    ensures !newlyCapped ==> Settled(distributable, cap, WeightsOf(ordered), k)
    ensures PassAmounts(ordered, distributable, cap, k, nowAmounts, |ordered|)
  {
    PassStarts(ordered, distributable, cap, capped, k, amounts);
    hide OneEach, CapsPrefix, PassAmounts, RewardWeight, LeftAfter, WeightFrom, Descending, Share;
    ghost var w := WeightsOf(ordered);
    var remaining, remainingWeight := PassTotals(ordered, weights, distributable, cap, capped, k);
    if remaining < 0 {
      remaining := 0;
    }
    nowCapped, nowAmounts, newlyCapped := capped, amounts, false;
    m := k;
    for i := 0 to |ordered|
      invariant k <= m && CapsPrefix(ordered, nowCapped, m) && newlyCapped == (m > k)
      invariant m <= (if i < k then k else i)
      invariant forall j | k <= j < m :: Overfull(distributable, cap, w, k, j)
      invariant forall j | m <= j < i :: !Overfull(distributable, cap, w, k, j)
      invariant PassAmounts(ordered, distributable, cap, k, nowAmounts, i)
    {
      InCapsPrefix(ordered, capped, k, i);
      if ordered[i].wallet in capped {
        PassAmountsGrow(ordered, distributable, cap, k, nowAmounts, i, cap);
        nowAmounts := nowAmounts[ordered[i].wallet := cap];
      } else {
        var weight := weights[ordered[i].wallet];
        var amount := if remainingWeight == 0 then 0 else MulDivFloor(remaining, weight, remainingWeight);
        ShareIs(distributable, cap, w, k, i, remaining, remainingWeight);
        if amount > cap {
          if m < i {
            assert !Overfull(distributable, cap, w, k, m);
            OverfullDescends(distributable, cap, w, k, m, i);
          }
          InCapsPrefix(ordered, nowCapped, m, i);
          nowCapped := nowCapped + {ordered[i].wallet};
          newlyCapped := true;
          m := m + 1;
        }
        PassAmountsGrow(ordered, distributable, cap, k, nowAmounts, i, amount);
        nowAmounts := nowAmounts[ordered[i].wallet := amount];
      }
    }
  }

  lemma ShareIs(d: nat, cap: nat, w: seq<nat>, k: nat, i: nat, left: nat, total: nat)
    requires k <= |w| && i < |w| && left == LeftAfter(d, cap, k) && total == WeightFrom(w, k)
    ensures Share(d, cap, w, k, i) == if total == 0 then 0 else MulDivFloor(left, w[i], total)
  {
  }

  lemma SettledIsCapCount(d: nat, cap: nat, w: seq<nat>, k: nat)
    requires Settled(d, cap, w, k) && forall j: nat | j < k :: !Settled(d, cap, w, j)
    ensures k == CapCount(d, cap, w)
  {
    assert Settled(d, cap, w, CapCount(d, cap, w));
  }

  /** Passes until the cap is stable. */
  method ShareOut(ordered: seq<Standing>, weights: map<Wallet, nat>, distributable: nat, cap: nat)
    returns (capped: set<Wallet>, amounts: map<Wallet, int>)
    requires OneEach(ordered) && Weighs(ordered, weights) && Descending(WeightsOf(ordered))
    ensures CapsPrefix(ordered, capped, CapCount(distributable, cap, WeightsOf(ordered)))
    ensures PassAmounts(ordered, distributable, cap, CapCount(distributable, cap, WeightsOf(ordered)), amounts, |ordered|)
  {
    ghost var w := WeightsOf(ordered);
    ghost var k := 0;
    capped, amounts := {}, map[];
    TimesSucc(0, cap);
    while true
      invariant CapsPrefix(ordered, capped, k)
      invariant LeftAfter(distributable, cap, k) >= 0
      invariant forall j: nat | j < k :: !Settled(distributable, cap, w, j)
      decreases |ordered| - k
    {
      hide OneEach, PassAmounts, RewardWeight, Share, LeftAfter, Settled;
      ghost var m;
      var newlyCapped;
      capped, amounts, newlyCapped, m := SharePass(ordered, weights, distributable, cap, capped, amounts, k);
      if !newlyCapped {
        SettledIsCapCount(distributable, cap, w, k);
        break;
      }
      BatchIsSteps(distributable, cap, w, k, m);
      k := m;
    }
  }

  // ---------------------------------------------------------------------
  // The whole procedure
  // ---------------------------------------------------------------------

  ghost function AllocationAt(ordered: seq<Standing>, d: nat, minimumClaim: int, i: nat): WalletAllocation
    requires Playing(ordered) && i < |ordered|
  {
    var w := WeightsOf(ordered);
    var cap := ApplyBasisPoints(d, PER_WALLET_CAP_BPS);
    var amount := Amount(d, cap, w, i);
    var claimable := amount >= minimumClaim;
    WalletAllocation(ordered[i].wallet, ordered[i].windowWarPoints, w[i],
                     if claimable then amount else 0,
                     i < CapCount(d, cap, w),
                     if claimable then 0 else amount)
  }

  ghost function Claimed(allocations: seq<WalletAllocation>): int {
    if allocations == [] then 0 else allocations[0].amount + Claimed(allocations[1..])
  }

  /** What one window pays, as a function of its inputs. */
  ghost function Distribution(pool: nat, standings: seq<Standing>, minimumClaim: nat): AllocationResult
    requires Playing(Ranked(standings))
  {
    var ordered := Ranked(standings);
    var d := ApplyBasisPoints(pool, POOL_DISTRIBUTABLE_BPS);
    var unqualified := |standings| - |ordered|;
    if ordered == [] || d == 0 then AllocationResult([], d, pool, 0, 0, 0, unqualified)
    else
      var w := WeightsOf(ordered);
      var allocations := seq(|ordered|, i requires 0 <= i < |ordered| => AllocationAt(ordered, d, minimumClaim, i));
      AllocationResult(allocations, d, pool - Claimed(allocations), Claimed(allocations), WeightFrom(w, 0),
                       CapCount(d, ApplyBasisPoints(d, PER_WALLET_CAP_BPS), w),
                       unqualified)
  }

  lemma RanksBeforeIsPreorder()
    ensures TotalPreorder(RanksBefore)
  {
  }

  lemma {:induction false} QualifiedCounts(standings: seq<Standing>, x: Standing)
    ensures multiset(Qualified(standings))[x] ==
            if x.windowWarPoints >= MIN_QUALIFYING_WP then multiset(standings)[x] else 0
  {
    if standings != [] {
      QualifiedCounts(standings[1..], x);
      assert standings == [standings[0]] + standings[1..];
    }
  }

  lemma RankedCounts(standings: seq<Standing>, x: Standing)
    ensures multiset(Ranked(standings))[x] ==
            if x.windowWarPoints >= MIN_QUALIFYING_WP then multiset(standings)[x] else 0
    ensures |Ranked(standings)| == |Qualified(standings)|
  {
    QualifiedCounts(standings, x);
    RanksBeforeIsPreorder();
    SortSorts(Qualified(standings), RanksBefore);
  }

  /** One entry per wallet, read off the multiset. */
  lemma OneEachCounts(s: seq<Standing>, i: nat, j: nat)
    requires i < j < |s|
    ensures s[i] == s[j] ==> multiset(s)[s[i]] >= 2
  {
    if s[i] == s[j] {
      assert s == s[..i] + [s[i]] + s[i + 1..j] + [s[j]] + s[j + 1..];
      assert multiset(s)[s[i]] >= multiset([s[i]])[s[i]] + multiset([s[j]])[s[i]];
    }
  }

  lemma {:induction false} OneEachOnce(s: seq<Standing>, x: Standing)
    requires OneEach(s)
    ensures multiset(s)[x] <= 1
  {
    if s != [] {
      assert s == [s[0]] + s[1..];
      forall i, j | 0 <= i < |s[1..]| && 0 <= j < |s[1..]| && s[1..][i].wallet == s[1..][j].wallet
        ensures i == j
      {
        assert s[i + 1].wallet == s[j + 1].wallet;
      }
      OneEachOnce(s[1..], x);
      assert forall i | 0 <= i < |s[1..]| :: s[1..][i] == s[i + 1] != s[0];
    }
  }

  /** A sequence drawn from rows with one entry per wallet has one entry per wallet. */
  lemma OneEachInherited(s: seq<Standing>, t: seq<Standing>)
    requires OneEach(s) && multiset(t) <= multiset(s)
    ensures OneEach(t)
  {
    forall i, j | 0 <= i < j < |t|
      ensures t[i].wallet != t[j].wallet
    {
      assert t[i] in multiset(t) && t[j] in multiset(t);
      assert t[i] in s && t[j] in s;
      OneEachCounts(t, i, j);
      OneEachOnce(s, t[i]);
    }
  }

  /** The ranking: the qualified wallets, each once, heaviest first. */
  lemma RankedIsProper(standings: seq<Standing>)
    requires OneEach(standings)
    ensures Playing(Ranked(standings)) && OneEach(Ranked(standings))
    ensures Descending(WeightsOf(Ranked(standings)))
    ensures SortedBy(Ranked(standings), RanksBefore)
  {
    var ordered := Ranked(standings);
    hide Ranked, RewardWeight;
    forall x
      ensures multiset(ordered)[x] <= multiset(standings)[x]
      ensures x in ordered ==> x.windowWarPoints >= MIN_QUALIFYING_WP
    {
      RankedCounts(standings, x);
      assert x in ordered <==> x in multiset(ordered);
    }
    OneEachInherited(standings, ordered);
    RankedSorted(standings);
    forall i, j | 0 <= i <= j < |ordered|
      ensures RewardWeight(ordered[i].windowWarPoints) >= RewardWeight(ordered[j].windowWarPoints)
    {
      assert i == j || RanksBefore(ordered[i], ordered[j]);
      RewardWeightMonotone(ordered[j].windowWarPoints, ordered[i].windowWarPoints);
    }
  }

  /** Whoever has fifty War Points in the window is ranked, as often as it is listed, and nobody else. */
  lemma RankedIff(standings: seq<Standing>, x: Standing)
    ensures multiset(Ranked(standings))[x] == if x.windowWarPoints >= 50 then multiset(standings)[x] else 0
  {
    RankedCounts(standings, x);
  }

  /** More War Points come first, and of as many the lesser address. */
  lemma RankedInOrder(standings: seq<Standing>, i: nat, j: nat)
    requires i < j < |Ranked(standings)|
    ensures var a, b := Ranked(standings)[i], Ranked(standings)[j];
            a.windowWarPoints > b.windowWarPoints || (a.windowWarPoints == b.windowWarPoints && a.wallet <= b.wallet)
  {
    RankedSorted(standings);
    hide Ranked;
    assert RanksBefore(Ranked(standings)[i], Ranked(standings)[j]);
  }

  lemma RankedSorted(standings: seq<Standing>)
    ensures SortedBy(Ranked(standings), RanksBefore)
  {
    RanksBeforeIsPreorder();
    SortSorts(Qualified(standings), RanksBefore);
  }

  /** The weights by wallet, each an exact integer square root. */
  method RewardWeights(ordered: seq<Standing>) returns (weights: map<Wallet, nat>, totalWeight: nat)
    requires OneEach(ordered) && Playing(ordered)
    ensures Weighs(ordered, weights)
    ensures totalWeight == WeightFrom(WeightsOf(ordered), 0)
  {
    ghost var w := WeightsOf(ordered);
    weights, totalWeight := map[], 0;
    for i := 0 to |ordered|
      invariant forall j | 0 <= j < i :: ordered[j].wallet in weights && weights[ordered[j].wallet] == w[j]
      invariant totalWeight + WeightFrom(w, i) == WeightFrom(w, 0)
    {
      hide FloorSqrt;
      var root := IntegerSqrt(ordered[i].windowWarPoints * REWARD_WEIGHT_SCALE * REWARD_WEIGHT_SCALE);
      assert w[i] == root.value;
      hide RewardWeight, WeightsOf;
      weights := weights[ordered[i].wallet := root.value];
      totalWeight := totalWeight + root.value;
    }
  }

  /** Refuses duplicate wallets and negative War Points, in the order they are met. */
  method CheckStandings(standings: seq<Standing>) returns (problem: Option<AllocationError>)
    ensures problem == Refusal(standings, 0)
    ensures problem.None? ==> OneEach(standings)
  {
    var seen: set<Wallet> := {};
    for i := 0 to |standings|
      invariant seen == Wallets(standings[..i])
      invariant Refusal(standings, 0) == Refusal(standings, i)
      invariant OneEach(standings[..i])
    {
      PrefixWallets(standings, i, i);
      OneEachGrows(standings, i);
      hide OneEach, Wallets;
      var standing := standings[i];
      if standing.wallet in seen {
        return Some(DuplicateWallet(standing.wallet));
      }
      seen := seen + {standing.wallet};
      if standing.windowWarPoints < 0 {
        return Some(BadWarPoints(standing.wallet));
      }
    }
    assert standings[..|standings|] == standings;
    return None;
  }

  lemma OneEachGrows(s: seq<Standing>, i: nat)
    requires i < |s| && OneEach(s[..i])
    ensures s[i].wallet !in Wallets(s[..i]) ==> OneEach(s[..i + 1])
  {
    var a, b := s[..i], s[..i + 1];
    if s[i].wallet !in Wallets(a) {
      forall x, y | 0 <= x < |b| && 0 <= y < |b| && b[x].wallet == b[y].wallet
        ensures x == y
      {
        assert x < i ==> b[x] == a[x] && a[x].wallet in Wallets(a);
        assert y < i ==> b[y] == a[y] && a[y].wallet in Wallets(a);
      }
    }
  }

  method AllocateDistribution(poolBalance: int, standings: seq<Standing>, minimumClaim: int)
    returns (r: Result<AllocationResult, AllocationError>)
    ensures poolBalance < 0 ==> r == Err(NegativePool)
    ensures poolBalance >= 0 && minimumClaim < 0 ==> r == Err(NegativeThreshold)
    ensures poolBalance >= 0 && minimumClaim >= 0 ==>
              match Refusal(standings, 0)
              case Some(problem) => r == Err(problem)
              case None => Playing(Ranked(standings)) && r == Ok(Distribution(poolBalance, standings, minimumClaim))
  {
    if poolBalance < 0 {
      return Err(NegativePool);
    }
    if minimumClaim < 0 {
      return Err(NegativeThreshold);
    }
    var problem := CheckStandings(standings);
    if problem.Some? {
      return Err(problem.value);
    }
    RankedIsProper(standings);
    RankedSize(standings);
    hide Refusal, Qualified, Ranked, RewardWeight, OneEach, CapsPrefix, PassAmounts, Amount, Settled, SortedBy, RanksBefore, Descending;
    var distributable := ApplyBasisPoints(poolBalance, POOL_DISTRIBUTABLE_BPS);
    var qualified := Qualified(standings);
    var unqualifiedWalletCount := |standings| - |qualified|;
    var ordered := Ranked(standings);
    if |qualified| == 0 || distributable == 0 {
      return Ok(AllocationResult([], distributable, poolBalance, 0, 0, 0, unqualifiedWalletCount));
    }
    var weights, totalWeight := RewardWeights(ordered);
    var cap := ApplyBasisPoints(distributable, PER_WALLET_CAP_BPS);
    var capped, amounts := ShareOut(ordered, weights, distributable, cap);
    var allocations, totalAllocated := Finish(ordered, weights, distributable, cap, minimumClaim, capped, amounts);
    CappedCount(ordered, capped, CapCount(distributable, cap, WeightsOf(ordered)));
    return Ok(AllocationResult(allocations, distributable, poolBalance - totalAllocated, totalAllocated, totalWeight,
                               |capped|, unqualifiedWalletCount));
  }

  lemma RankedSize(standings: seq<Standing>)
    ensures |Ranked(standings)| == |Qualified(standings)|
  {
    RanksBeforeIsPreorder();
    SortSorts(Qualified(standings), RanksBefore);
  }

  lemma {:induction false} CappedCount(ordered: seq<Standing>, capped: set<Wallet>, k: nat)
    requires OneEach(ordered) && CapsPrefix(ordered, capped, k)
    ensures |capped| == k
    decreases k
  {
    if k > 0 {
      var before := Wallets(ordered[..k - 1]);
      PrefixWallets(ordered, k - 1, k - 1);
      assert ordered[k - 1].wallet !in before;
      CappedCount(ordered, before, k - 1);
    }
  }

  /** The claim threshold comes last, on what a wallet would have received. */
  method Finish(ordered: seq<Standing>, weights: map<Wallet, nat>, d: nat, cap: nat, minimumClaim: int,
                capped: set<Wallet>, amounts: map<Wallet, int>)
    returns (allocations: seq<WalletAllocation>, totalAllocated: int)
    requires OneEach(ordered) && Weighs(ordered, weights) && cap == ApplyBasisPoints(d, PER_WALLET_CAP_BPS)
    requires CapsPrefix(ordered, capped, CapCount(d, cap, WeightsOf(ordered)))
    requires PassAmounts(ordered, d, cap, CapCount(d, cap, WeightsOf(ordered)), amounts, |ordered|)
    ensures allocations == seq(|ordered|, i requires 0 <= i < |ordered| => AllocationAt(ordered, d, minimumClaim, i))
    ensures totalAllocated == Claimed(allocations)
  {
    allocations, totalAllocated := [], 0;
    for i := 0 to |ordered|
      invariant |allocations| == i
      invariant forall j | 0 <= j < i :: allocations[j] == AllocationAt(ordered, d, minimumClaim, j)
      invariant totalAllocated == Claimed(allocations)
    {
      var standing := ordered[i];
      InCapsPrefix(ordered, capped, CapCount(d, cap, WeightsOf(ordered)), i);
      var amount := amounts[standing.wallet];
      var claimable := amount >= minimumClaim;
      var a := WalletAllocation(standing.wallet, standing.windowWarPoints, weights[standing.wallet],
                                if claimable then amount else 0,
                                standing.wallet in capped,
                                if claimable then 0 else amount);
      assert a == AllocationAt(ordered, d, minimumClaim, i);
      hide AllocationAt;
      ClaimedAppend(allocations, a);
      allocations := allocations + [a];
      totalAllocated := totalAllocated + a.amount;
    }
  }

  lemma {:induction false} ClaimedAppend(allocations: seq<WalletAllocation>, a: WalletAllocation)
    ensures Claimed(allocations + [a]) == Claimed(allocations) + a.amount
  {
    var all := allocations + [a];
    if allocations == [] {
      assert all[1..] == [];
    } else {
      assert all[1..] == allocations[1..] + [a];
      ClaimedAppend(allocations[1..], a);
    }
  }

  // ---------------------------------------------------------------------
  // What a window promises
  // ---------------------------------------------------------------------

  lemma {:induction false} ClaimedAtMostAmounts(ordered: seq<Standing>, d: nat, minimumClaim: nat, i: nat)
    requires OneEach(ordered) && Playing(ordered) && Descending(WeightsOf(ordered)) && i <= |ordered|
    ensures var allocations := seq(|ordered|, j requires 0 <= j < |ordered| => AllocationAt(ordered, d, minimumClaim, j));
            0 <= Claimed(allocations[i..])
              <= AmountsFrom(d, ApplyBasisPoints(d, PER_WALLET_CAP_BPS), WeightsOf(ordered), i)
    decreases |ordered| - i
  {
    var allocations := seq(|ordered|, j requires 0 <= j < |ordered| => AllocationAt(ordered, d, minimumClaim, j));
    if i < |ordered| {
      ClaimedAtMostAmounts(ordered, d, minimumClaim, i + 1);
      AmountsAreFair(d, ApplyBasisPoints(d, PER_WALLET_CAP_BPS), WeightsOf(ordered), i, i);
      assert allocations[i..][0] == AllocationAt(ordered, d, minimumClaim, i);
      assert allocations[i..][1..] == allocations[i + 1..];
      hide Amount, WeightsOf;
    }
  }

  lemma WeightsArePositive(ordered: seq<Standing>)
    requires Playing(ordered)
    ensures forall i | 0 <= i < |ordered| :: WeightsOf(ordered)[i] > 0
  {
    forall i | 0 <= i < |ordered|
      ensures WeightsOf(ordered)[i] > 0
    {
      RewardWeightPositive(ordered[i].windowWarPoints);
    }
  }

  /**
   Conservation: what is paid and what carries forward add up to the pool, no
   more than four fifths is paid, and so at least a fifth always carries.
   */
  lemma DistributionConserves(pool: nat, standings: seq<Standing>, minimumClaim: nat)
    requires OneEach(standings)
    ensures Playing(Ranked(standings))
    ensures var r := Distribution(pool, standings, minimumClaim);
            && r.totalAllocated + r.carriedForward == pool
            && 0 <= r.totalAllocated <= r.distributable
            && 5 * r.distributable <= 4 * pool
            && 5 * r.carriedForward >= pool
            && r.totalAllocated == Claimed(r.allocations)
  {
    var ordered := Ranked(standings);
    var d := ApplyBasisPoints(pool, POOL_DISTRIBUTABLE_BPS);
    FloorAtLeast(pool * POOL_DISTRIBUTABLE_BPS, BASIS_POINTS, d);
    RankedIsProper(standings);
    hide Ranked, OneEach, AmountsFrom, AllocationAt, RewardWeight;
    WeightsArePositive(ordered);
    ClaimedAtMostAmounts(ordered, d, minimumClaim, 0);
    AmountsConserve(d, ApplyBasisPoints(d, PER_WALLET_CAP_BPS), WeightsOf(ordered));
    var allocations := seq(|ordered|, j requires 0 <= j < |ordered| => AllocationAt(ordered, d, minimumClaim, j));
    assert allocations[0..] == allocations;
  }

  /**
   Every wallet is held to a fiftieth of what is distributed, is paid nothing or
   at least the minimum, and never earns less than a wallet with fewer War
   Points, nor other than a wallet with the same.
   */
  lemma DistributionIsFair(pool: nat, standings: seq<Standing>, minimumClaim: nat, i: nat, j: nat)
    requires OneEach(standings) && Playing(Ranked(standings))
    requires i < |Distribution(pool, standings, minimumClaim).allocations|
    requires j < |Distribution(pool, standings, minimumClaim).allocations|
    ensures var r := Distribution(pool, standings, minimumClaim);
            var a, b := r.allocations[i], r.allocations[j];
            && 0 <= a.amount && 50 * a.amount <= r.distributable
            && (a.amount == 0 || a.amount >= minimumClaim)
            && (a.windowWarPoints >= b.windowWarPoints ==> a.amount >= b.amount)
            && (a.windowWarPoints == b.windowWarPoints ==> a.amount == b.amount)
  {
    var ordered := Ranked(standings);
    var d := ApplyBasisPoints(pool, POOL_DISTRIBUTABLE_BPS);
    var cap := ApplyBasisPoints(d, PER_WALLET_CAP_BPS);
    var w := WeightsOf(ordered);
    RankedIsProper(standings);
    FloorAtLeast(d * PER_WALLET_CAP_BPS, BASIS_POINTS, cap);
    AmountsAreFair(d, cap, w, i, i);
    if i <= j {
      AmountsAreFair(d, cap, w, i, j);
    } else {
      AmountsAreFair(d, cap, w, j, i);
      assert RanksBefore(ordered[j], ordered[i]);
    }
    if ordered[i].windowWarPoints == ordered[j].windowWarPoints {
      if i <= j { EqualWeightsEqualAmounts(d, cap, w, i, j); } else { EqualWeightsEqualAmounts(d, cap, w, j, i); }
    }
  }

  // ---------------------------------------------------------------------
  // What each entry says
  // ---------------------------------------------------------------------

  /** What the wallet's share came to, before the claim threshold. */
  function Earned(a: WalletAllocation): int {
    a.amount + a.carriedForward
  }

  /**
   Entry by entry: four fifths of the pool is what is distributed, the capped are the
   first, and earn the cap, a fiftieth of it; and a share is paid whole or carried whole,
   as it reaches the threshold or not.
  */
  lemma EntriesAre(pool: nat, standings: seq<Standing>, minimumClaim: nat, i: nat)
    requires OneEach(standings) && Playing(Ranked(standings))
    requires i < |Distribution(pool, standings, minimumClaim).allocations|
    ensures var r := Distribution(pool, standings, minimumClaim);
            var a, share := r.allocations[i], Earned(r.allocations[i]);
            && 5 * r.distributable <= 4 * pool < 5 * (r.distributable + 1)
            && Standing(a.wallet, a.windowWarPoints) == Ranked(standings)[i]
            && (a.capped <==> i < r.cappedWalletCount)
            && (a.capped ==> 50 * share <= r.distributable < 50 * (share + 1))
            && (a.amount, a.carriedForward) == if share >= minimumClaim then (share, 0) else (0, share)
  {
    var d := ApplyBasisPoints(pool, POOL_DISTRIBUTABLE_BPS);
    var cap := ApplyBasisPoints(d, PER_WALLET_CAP_BPS);
    FloorIs(pool * POOL_DISTRIBUTABLE_BPS, BASIS_POINTS, d);
    FloorIs(d * PER_WALLET_CAP_BPS, BASIS_POINTS, cap);
    hide Ranked, OneEach, Settled, Share, RewardWeight;
  }

  /** What the distribution says of itself as a whole. */
  lemma TotalsAre(pool: nat, standings: seq<Standing>, minimumClaim: nat)
    requires Playing(Ranked(standings)) && Distribution(pool, standings, minimumClaim).allocations != []
    ensures var r := Distribution(pool, standings, minimumClaim);
            && r.totalWeight == WeightFrom(seq(|r.allocations|, i requires 0 <= i < |r.allocations| => r.allocations[i].weight), 0)
            && r.cappedWalletCount <= |r.allocations|
            && |r.allocations| + r.unqualifiedWalletCount == |standings|
  {
    hide Ranked, CapCount, Amount, RewardWeight, WeightFrom;
    var r, w := Distribution(pool, standings, minimumClaim), WeightsOf(Ranked(standings));
    CapCountFits(r.distributable, ApplyBasisPoints(r.distributable, PER_WALLET_CAP_BPS), w);
    assert seq(|r.allocations|, i requires 0 <= i < |r.allocations| => r.allocations[i].weight) == w;
  }

  lemma CapCountFits(d: nat, cap: nat, w: seq<nat>)
    ensures CapCount(d, cap, w) <= |w|
  {
    assert Settled(d, cap, w, CapCount(d, cap, w));
  }

  /** A weight is the square root of the War Points at the weight's scale, rounded down. */
  lemma WeightsAreRoots(pool: nat, standings: seq<Standing>, minimumClaim: nat, i: nat)
    requires OneEach(standings) && Playing(Ranked(standings))
    requires i < |Distribution(pool, standings, minimumClaim).allocations|
    ensures var a := Distribution(pool, standings, minimumClaim).allocations[i];
            a.windowWarPoints >= MIN_QUALIFYING_WP
            && a.weight * a.weight <= a.windowWarPoints * REWARD_WEIGHT_SCALE * REWARD_WEIGHT_SCALE < (a.weight + 1) * (a.weight + 1)
  {
    RankedIsProper(standings);
    hide Ranked, OneEach, CapCount, Amount, FloorSqrt;
  }

  lemma Proportional(left: nat, total: nat, v: nat, w: nat)
    requires total > 0 && v > 0
    ensures Times(left * v / total, w) < Times(left * w / total + 1, v)
  {
    var p, q := left * v / total, left * w / total;
    FloorLoses(left, v, total);
    FloorLoses(left, w, total);
    MulMonotone(p * total, left * v, w);
    MulMonotone(left * w + 1, q * total + total, v);
    assert (p * total) * w == (p * w) * total;
    assert (left * v) * w == (left * w) * v;
    assert (left * w + 1) * v == (left * w) * v + v;
    assert (q * total + total) * v == ((q + 1) * v) * total;
    if p * w >= (q + 1) * v {
      MulMonotone((q + 1) * v, p * w, total);
    }
  }

  /** Two uncapped wallets earn in the proportion of their weights, to within a unit. */
  lemma SharesFollowWeights(d: nat, cap: nat, w: seq<nat>, i: nat, j: nat)
    requires Descending(w) && CapCount(d, cap, w) <= i < |w| && CapCount(d, cap, w) <= j < |w| && w[i] > 0
    ensures Times(Amount(d, cap, w, i), w[j]) < Times(Amount(d, cap, w, j) + 1, w[i])
  {
    var k := CapCount(d, cap, w);
    PrefixOverfull(d, cap, w, k);
    WeightFromAtLeast(w, k, i);
    Proportional(LeftAfter(d, cap, k), WeightFrom(w, k), w[i], w[j]);
  }

  lemma UncappedFollowWeights(pool: nat, standings: seq<Standing>, minimumClaim: nat, i: nat, j: nat)
    requires OneEach(standings) && Playing(Ranked(standings))
    requires i < |Distribution(pool, standings, minimumClaim).allocations|
    requires j < |Distribution(pool, standings, minimumClaim).allocations|
    requires var r := Distribution(pool, standings, minimumClaim).allocations; !r[i].capped && !r[j].capped
    ensures var r := Distribution(pool, standings, minimumClaim).allocations;
            Earned(r[i]) * r[j].weight < (Earned(r[j]) + 1) * r[i].weight
  {
    var ordered := Ranked(standings);
    var d := ApplyBasisPoints(pool, POOL_DISTRIBUTABLE_BPS);
    RankedIsProper(standings);
    hide Ranked, OneEach, CapCount, Amount, RewardWeight;
    WeightsArePositive(ordered);
    SharesFollowWeights(d, ApplyBasisPoints(d, PER_WALLET_CAP_BPS), WeightsOf(ordered), i, j);
  }

  lemma ScaledShares(n: nat, v: nat, w: nat, p: nat, q: nat)
    requires n * w <= v < n * (w + 1) && w > 0 && n > 0
    requires p * w < (q + 1) * v && q * v < (p + 1) * w
    ensures n * q <= p && p * w < n * (q + 1) * (w + 1)
  {
    AtLeastScaled(n, v, w, p, q);
    MulMonotone(v, n * (w + 1), q + 1);
    Rearranged(n, q + 1, w + 1);
  }

  lemma AtLeastScaled(n: nat, v: nat, w: nat, p: nat, q: nat)
    requires n * w <= v && w > 0 && q * v < (p + 1) * w
    ensures n * q <= p
  {
    MulMonotone(n * w, v, q);
    assert (n * q) * w == (n * w) * q;
    if n * q >= p + 1 {
      MulMonotone(p + 1, n * q, w);
    }
  }

  lemma Rearranged(a: nat, b: nat, c: nat)
    ensures a * c * b == a * b * c
  {
  }

  /**
   Diminishing, exactly: with `n * n` times the War Points a wallet weighs `n` times as
   much, to within `n` units, and neither being capped it earns at least `n` times as
   much and at most that, to within the rounding of the two shares and weights. At
   `n == 2`, four times the War Points earn twice as much.
  */
  lemma SquaredPointsEarnInProportion(pool: nat, standings: seq<Standing>, minimumClaim: nat, i: nat, j: nat, n: nat)
    requires OneEach(standings) && Playing(Ranked(standings)) && n > 0
    requires i < |Distribution(pool, standings, minimumClaim).allocations|
    requires j < |Distribution(pool, standings, minimumClaim).allocations|
    requires var r := Distribution(pool, standings, minimumClaim).allocations; r[i].windowWarPoints == n * n * r[j].windowWarPoints
    ensures var r := Distribution(pool, standings, minimumClaim).allocations;
            var a, b := r[i], r[j];
            && n * b.weight <= a.weight < n * (b.weight + 1)
            && (!a.capped && !b.capped ==>
                  n * Earned(b) <= Earned(a) && Earned(a) * b.weight < n * (Earned(b) + 1) * (b.weight + 1))
  {
    WeightsAreRoots(pool, standings, minimumClaim, i);
    WeightsAreRoots(pool, standings, minimumClaim, j);
    var r := Distribution(pool, standings, minimumClaim).allocations;
    var a, b := r[i], r[j];
    ScaledPoints(n, b.windowWarPoints);
    RootOfMultiple(b.windowWarPoints * REWARD_WEIGHT_SCALE * REWARD_WEIGHT_SCALE, n, b.weight, a.weight);
    if !a.capped && !b.capped {
      UncappedFollowWeights(pool, standings, minimumClaim, i, j);
      UncappedFollowWeights(pool, standings, minimumClaim, j, i);
      EarnedIsNatural(pool, standings, minimumClaim, i);
      EarnedIsNatural(pool, standings, minimumClaim, j);
      hide Distribution, Ranked;
      ScaledShares(n, a.weight, b.weight, Earned(a), Earned(b));
    }
  }

  lemma ScaledPoints(n: nat, x: nat)
    ensures n * n * (x * REWARD_WEIGHT_SCALE * REWARD_WEIGHT_SCALE) == n * n * x * REWARD_WEIGHT_SCALE * REWARD_WEIGHT_SCALE
  {
  }

  lemma EarnedIsNatural(pool: nat, standings: seq<Standing>, minimumClaim: nat, i: nat)
    requires OneEach(standings) && Playing(Ranked(standings))
    requires i < |Distribution(pool, standings, minimumClaim).allocations|
    ensures var a := Distribution(pool, standings, minimumClaim).allocations[i]; Earned(a) >= 0 && a.weight > 0
  {
    var ordered := Ranked(standings);
    var d := ApplyBasisPoints(pool, POOL_DISTRIBUTABLE_BPS);
    RankedIsProper(standings);
    hide Ranked, OneEach, CapCount, Amount, RewardWeight;
    WeightsArePositive(ordered);
    AmountsAreFair(d, ApplyBasisPoints(d, PER_WALLET_CAP_BPS), WeightsOf(ordered), i, i);
  }

  lemma SameQualified(standings: seq<Standing>, shuffled: seq<Standing>)
    requires multiset(shuffled) == multiset(standings)
    ensures multiset(Qualified(shuffled)) == multiset(Qualified(standings))
  {
    var a, b := Qualified(standings), Qualified(shuffled);
    forall x
      ensures multiset(a)[x] == multiset(b)[x]
    {
      QualifiedCounts(standings, x);
      QualifiedCounts(shuffled, x);
    }
  }

  lemma SameRanks(standings: seq<Standing>, shuffled: seq<Standing>)
    requires multiset(shuffled) == multiset(standings)
    ensures Ranked(shuffled) == Ranked(standings)
  {
    SameQualified(standings, shuffled);
    RanksBeforeIsPreorder();
    hide Qualified, RanksBefore, Sort;
    SortIgnoresOrder(Qualified(standings), Qualified(shuffled), RanksBefore);
  }

  /** The order the rows came back in changes nothing at all. */
  lemma RowOrderIsIrrelevant(pool: nat, standings: seq<Standing>, shuffled: seq<Standing>, minimumClaim: nat)
    requires OneEach(standings) && Playing(Ranked(standings))
    requires multiset(shuffled) == multiset(standings)
    ensures Playing(Ranked(shuffled))
    ensures Distribution(pool, shuffled, minimumClaim) == Distribution(pool, standings, minimumClaim)
  {
    assert |multiset(standings)| == |multiset(shuffled)|;
    SameRanks(standings, shuffled);
    hide Ranked;
  }
}

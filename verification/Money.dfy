/**
 Exact integer money, packages/shared-types/src/money.ts, and the reward weight
 of packages/shared-types/src/rewards.ts.
 */
module Money {
  import opened Arithmetic
  import opened Wrappers

  const BASIS_POINTS: nat := 10_000
  const REWARD_WEIGHT_SCALE: nat := 1_000_000_000

  function MulDivFloor(amount: nat, numerator: nat, denominator: nat): nat
    requires denominator > 0
  {
    amount * numerator / denominator
  }

  function ApplyBasisPoints(amount: nat, bps: nat): nat {
    MulDivFloor(amount, bps, BASIS_POINTS)
  }

  // ---------------------------------------------------------------------
  // Square roots
  // ---------------------------------------------------------------------

  predicate IsFloorSqrt(n: nat, r: nat) {
    r * r <= n < (r + 1) * (r + 1)
  }

  function FloorSqrt(n: nat): (r: nat)
    ensures IsFloorSqrt(n, r)
  {
    if n == 0 then 0
    else
      var r := FloorSqrt(n - 1);
      SquareGrows(r);
      if (r + 1) * (r + 1) <= n then r + 1 else r
  }

  lemma SquareGrows(r: nat)
    ensures (r + 2) * (r + 2) > (r + 1) * (r + 1) + 1
  {
  }

  lemma SquareMonotone(a: nat, b: nat)
    requires a <= b
    ensures a * a <= b * b
  {
    MulMonotone(a, b, a);
    MulMonotone(a, b, b);
  }

  lemma FloorSqrtIsOnly(n: nat, r: nat)
    requires IsFloorSqrt(n, r)
    ensures r == FloorSqrt(n)
  {
    var s := FloorSqrt(n);
    if r < s {
      SquareMonotone(r + 1, s);
    } else if s < r {
      SquareMonotone(s + 1, r);
    }
  }

  lemma FloorSqrtMonotone(a: nat, b: nat)
    requires a <= b
    ensures FloorSqrt(a) <= FloorSqrt(b)
  {
    var r, s := FloorSqrt(a), FloorSqrt(b);
    if s < r {
      SquareMonotone(s + 1, r);
    }
  }

  /** Four times a product is at most the square of the sum. */
  lemma MeanInequality(x: int, y: int)
    ensures 4 * (x * y) <= (x + y) * (x + y)
  {
    assert (x + y) * (x + y) - 4 * (x * y) == (x - y) * (x - y) >= 0;
  }

  lemma ProductBelowSquare(x: nat, y: nat, s: nat)
    requires x + y <= 2 * s
    ensures x * y <= s * s
  {
    MeanInequality(x, y);
    SquareMonotone(x + y, 2 * s);
    assert (2 * s) * (2 * s) == 4 * (s * s);
  }

  lemma QuotientIsLarge(n: nat, p: nat, q: nat, s: nat)
    requires n < q * p + p && s * s <= n
    ensures p + q + 1 > 2 * s
  {
    assert (q + 1) * p == q * p + p;
    if p + q + 1 <= 2 * s {
      ProductBelowSquare(q + 1, p, s);
    }
  }

  /** A Newton step never falls below the root. */
  lemma NewtonStaysAbove(n: nat, p: nat)
    requires p > 0
    ensures (p + n / p) / 2 >= FloorSqrt(n)
  {
    FloorIs(n, p, n / p);
    QuotientIsLarge(n, p, n / p, FloorSqrt(n));
  }

  /** Where a Newton step stops shrinking, it is at the root. */
  lemma NewtonStops(n: nat, p: nat)
    requires p > 0 && p >= FloorSqrt(n) && (p + n / p) / 2 >= p
    ensures p == FloorSqrt(n)
  {
    FloorAtLeast(n, p, p);
    if p > FloorSqrt(n) {
      SquareMonotone(FloorSqrt(n) + 1, p);
    }
  }

  method IntegerSqrt(value: int) returns (r: Result<nat, string>)
    ensures value < 0 ==> r.Err?
    ensures value >= 0 ==> r == Ok(FloorSqrt(value))
  {
    if value < 0 {
      return Err("integerSqrt is undefined for negative input");
    }
    if value < 2 {
      FloorSqrtIsOnly(value, value);
      return Ok(value);
    }
    hide FloorSqrt;
    var previous := value;
    var current := (value + 1) / 2;
    NewtonStaysAbove(value, value);
    while current < previous
      invariant 0 < current && FloorSqrt(value) <= current
      invariant 0 < previous && FloorSqrt(value) <= previous
      invariant current == (previous + value / previous) / 2
      decreases previous
    {
      previous := current;
      NewtonStaysAbove(value, current);
      FloorAtLeast(value, current, 1);
      current := (current + value / current) / 2;
    }
    NewtonStops(value, previous);
    return Ok(previous);
  }

  // ---------------------------------------------------------------------
  // Reward weight
  // ---------------------------------------------------------------------

  /** `sqrt(WP)` at nine decimal places. */
  function RewardWeight(warPoints: nat): nat {
    FloorSqrt(warPoints * REWARD_WEIGHT_SCALE * REWARD_WEIGHT_SCALE)
  }

  lemma RewardWeightMonotone(a: nat, b: nat)
    requires a <= b
    ensures RewardWeight(a) <= RewardWeight(b)
  {
    FloorSqrtMonotone(a * REWARD_WEIGHT_SCALE * REWARD_WEIGHT_SCALE, b * REWARD_WEIGHT_SCALE * REWARD_WEIGHT_SCALE);
  }

  /** Any War Points at all weigh something: at least one whole unit of the scale. */
  lemma RewardWeightPositive(warPoints: nat)
    requires warPoints > 0
    ensures RewardWeight(warPoints) >= REWARD_WEIGHT_SCALE
  {
    FloorSqrtIsOnly(REWARD_WEIGHT_SCALE * REWARD_WEIGHT_SCALE, REWARD_WEIGHT_SCALE);
    FloorSqrtMonotone(REWARD_WEIGHT_SCALE * REWARD_WEIGHT_SCALE, warPoints * REWARD_WEIGHT_SCALE * REWARD_WEIGHT_SCALE);
  }

  /** The square root of `n * n` times a number is `n` times its root, to within `n` units. */
  lemma RootOfMultiple(x: nat, n: nat, root: nat, scaled: nat)
    requires n > 0 && IsFloorSqrt(x, root) && IsFloorSqrt(n * n * x, scaled)
    ensures n * root <= scaled < n * (root + 1)
  {
    SquareOfProduct(n, root);
    SquareOfProduct(n, root + 1);
    MulMonotone(root * root, x, n * n);
    MulMonotone(x + 1, (root + 1) * (root + 1), n * n);
    assert (x + 1) * (n * n) == n * n * x + n * n;
    hide IsFloorSqrt;
    if scaled + 1 <= n * root {
      SquareMonotone(scaled + 1, n * root);
    }
    if n * (root + 1) <= scaled {
      SquareMonotone(n * (root + 1), scaled);
    }
  }

  lemma SquareOfProduct(n: nat, root: nat)
    ensures (n * root) * (n * root) == (root * root) * (n * n)
  {
  }
}

/**
 Small nonlinear facts, stated once so that larger proofs stay linear: products that
 are monotone, floors and what they are at least, the least number with a property,
 powers of two and how many binary digits a number has.
 */
module Arithmetic {

  lemma MulMonotone(a: int, b: int, c: int)
    requires a <= b && c >= 0
    ensures a * c <= b * c
  {
  }

  /** A product, named so that proofs can treat it as an unknown. */
  ghost function Times(a: int, b: int): int {
    a * b
  }

  lemma TimesSucc(a: int, b: int)
    ensures Times(a + 1, b) == Times(a, b) + b
    ensures Times(0, b) == 0
  {
  }

  lemma TimesZero(a: int)
    ensures a * 0 == 0
  {
  }

  /** `q` is the floor of `a / b` exactly when `q * b <= a < (q + 1) * b`. */
  lemma FloorIs(a: int, b: int, q: int)
    requires b > 0
    ensures a / b == q <==> q * b <= a < q * b + b
  {
    var d := a / b;
    assert a == d * b + a % b;
    if q * b <= a < q * b + b {
      if q < d {
        MulMonotone(q + 1, d, b);
      } else if q > d {
        MulMonotone(d + 1, q, b);
      }
    }
  }

  /** A floor is at least `k` exactly when the numerator reaches `k * b`. */
  lemma FloorAtLeast(a: int, b: int, k: int)
    requires b > 0
    ensures a / b >= k <==> a >= k * b
  {
    var d := a / b;
    assert a == d * b + a % b;
    if d >= k {
      MulMonotone(k, d, b);
    } else {
      MulMonotone(d + 1, k, b);
    }
  }

  lemma FloorMonotone(a: int, c: int, b: int)
    requires b > 0 && a <= c
    ensures a / b <= c / b
  {
    FloorAtLeast(a, b, a / b);
    FloorAtLeast(c, b, a / b);
  }

  lemma ModOfSum(q: int, b: int, r: int)
    requires b > 0 && 0 <= r < b
    ensures (q * b + r) / b == q && (q * b + r) % b == r
  {
    FloorIs(q * b + r, b, q);
    var n := q * b + r;
    assert n == (n / b) * b + n % b;
  }

  /** The least `n >= from` with `ok(n)`, given one that is known. */
  ghost function Least(ok: nat -> bool, from: nat, known: nat): (n: nat)
    requires from <= known && ok(known)
    ensures from <= n <= known && ok(n)
    ensures forall k: nat :: from <= k < n ==> !ok(k)
    decreases known - from
  {
    if ok(from) then from else Least(ok, from + 1, known)
  }

  ghost function Pow2(n: nat): (p: nat)
    ensures p >= 1
  {
    if n == 0 then 1 else 2 * Pow2(n - 1)
  }

  /** How many binary digits `n` has. */
  ghost function BitLength(n: nat): nat {
    if n == 0 then 0 else 1 + BitLength(n / 2)
  }

  lemma {:induction false} BitLengthCovers(n: nat)
    ensures n < Pow2(BitLength(n))
  {
    if n > 0 {
      BitLengthCovers(n / 2);
    }
  }

  lemma {:induction false} BitLengthReaches(n: nat, t: nat)
    requires Pow2(t) <= n
    ensures t < BitLength(n)
  {
    if t > 0 {
      BitLengthReaches(n / 2, t - 1);
    }
  }
}

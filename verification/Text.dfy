/**
 Decimal numerals, fields joined by a separator, and the order of strings: numerals and
 joined fields determine what they were written from, and the source's `<` on strings
 is a strict total order.
 */
module Text {

  /** A separator outside the first field finds its end. */
  lemma SeparatorSplits(sep: char, a: string, b: string, c: string, d: string)
    requires sep !in a && sep !in c && a + [sep] + b == c + [sep] + d
    ensures a == c && b == d
  {
    var x, y := a + [sep] + b, c + [sep] + d;
    assert x[|a|] == sep && y[|c|] == sep;
    assert forall k | 0 <= k < |a| :: x[k] == a[k] != sep;
    assert forall k | 0 <= k < |c| :: y[k] == c[k] != sep;
    assert a == x[..|a|] && c == y[..|c|];
    assert b == x[|a| + 1..] && d == y[|c| + 1..];
  }

  function Digit(d: nat): char
    requires d < 10
  {
    ['0', '1', '2', '3', '4', '5', '6', '7', '8', '9'][d]
  }

  function Numeral(n: nat): string {
    if n < 10 then [Digit(n)] else Numeral(n / 10) + [Digit(n % 10)]
  }

  function Decimal(n: int): string {
    if n < 0 then "-" + Numeral(-n) else Numeral(n)
  }

  predicate IsDigit(c: char) {
    '0' <= c <= '9'
  }

  lemma {:induction false} NumeralDigits(n: nat)
    ensures Numeral(n) != [] && forall c | c in Numeral(n) :: IsDigit(c)
  {
    if n >= 10 {
      NumeralDigits(n / 10);
    }
  }

  lemma {:induction false} NumeralInjective(m: nat, n: nat)
    requires Numeral(m) == Numeral(n)
    ensures m == n
  {
    var a, b := Numeral(m), Numeral(n);
    if m >= 10 {
      NumeralDigits(m / 10);
    }
    if n >= 10 {
      NumeralDigits(n / 10);
    }
    assert Digit(m % 10) == a[|a| - 1] && Digit(n % 10) == b[|b| - 1];
    if m >= 10 && n >= 10 {
      assert Numeral(m / 10) == a[..|a| - 1] && Numeral(n / 10) == b[..|b| - 1];
      NumeralInjective(m / 10, n / 10);
    }
  }

  lemma DecimalSign(n: int)
    ensures Decimal(n) != [] && (Decimal(n)[0] == '-' <==> n < 0)
  {
    NumeralDigits(if n < 0 then -n else n);
    assert n >= 0 ==> Decimal(n)[0] in Numeral(n);
  }

  /** Different integers are written differently, in digits and a sign. */
  lemma DecimalInjective(m: int, n: int)
    requires Decimal(m) == Decimal(n)
    ensures m == n
  {
    DecimalSign(m);
    DecimalSign(n);
    if m < 0 {
      assert Numeral(-m) == Decimal(m)[1..] && Numeral(-n) == Decimal(n)[1..];
      NumeralInjective(-m, -n);
    } else {
      NumeralInjective(m, n);
    }
  }

  lemma DecimalHasNo(n: int, c: char)
    requires c != '-' && !IsDigit(c)
    ensures c !in Decimal(n)
  {
    NumeralDigits(if n < 0 then -n else n);
  }

  /** Fields in order, a separator between any two. */
  function Join(fields: seq<string>, sep: char): string {
    if fields == [] then ""
    else if |fields| == 1 then fields[0]
    else fields[0] + [sep] + Join(fields[1..], sep)
  }

  /** As many fields, none holding the separator, joined alike, are alike. */
  lemma {:induction false} JoinInjective(a: seq<string>, b: seq<string>, sep: char)
    requires |a| == |b| && Join(a, sep) == Join(b, sep)
    requires forall i | 0 <= i < |a| :: sep !in a[i] && sep !in b[i]
    ensures a == b
  {
    if |a| == 1 {
      assert a == [a[0]] && b == [b[0]];
    } else if |a| > 1 {
      SeparatorSplits(sep, a[0], Join(a[1..], sep), b[0], Join(b[1..], sep));
      JoinInjective(a[1..], b[1..], sep);
      assert a == [a[0]] + a[1..] && b == [b[0]] + b[1..];
    }
  }

  lemma {:induction false} JoinHasNo(fields: seq<string>, sep: char, c: char)
    requires c != sep && forall i | 0 <= i < |fields| :: c !in fields[i]
    ensures c !in Join(fields, sep)
  {
    if |fields| > 1 {
      JoinHasNo(fields[1..], sep, c);
    }
  }

  // ---------------------------------------------------------------------
  // The source's order on strings
  // ---------------------------------------------------------------------

  /** `<`. */
  predicate Before(a: string, b: string) {
    b != [] && (a == [] || a[0] < b[0] || (a[0] == b[0] && Before(a[1..], b[1..])))
  }

  predicate NotAfter(a: string, b: string) {
    !Before(b, a)
  }

  lemma {:induction false} BeforeIsTotal(a: string, b: string)
    ensures Before(a, b) || Before(b, a) || a == b
    ensures !(Before(a, b) && Before(b, a))
  {
    if a != [] && b != [] && a[0] == b[0] {
      BeforeIsTotal(a[1..], b[1..]);
      assert a == [a[0]] + a[1..] && b == [b[0]] + b[1..];
    }
  }

  lemma {:induction false} NotAfterIsTransitive(a: string, b: string, c: string)
    requires NotAfter(a, b) && NotAfter(b, c)
    ensures NotAfter(a, c)
  {
    if a != [] && b != [] && c != [] && a[0] == b[0] == c[0] {
      NotAfterIsTransitive(a[1..], b[1..], c[1..]);
    }
  }
}

/** What the square roots and the general channel of packages/battle-math/src/scoring.ts do to strength. */
module Diminishing {
  import opened Arithmetic
  import opened Money
  import opened Scoring

  /** A floored root, without what computes it. */
  lemma RootIs(n: nat)
    ensures var r := FloorSqrt(n); r * r <= n < (r + 1) * (r + 1)
  {
    assert IsFloorSqrt(n, FloorSqrt(n));
  }

  /** The root of four times a number, both floored. */
  lemma RootOfFour(n: nat)
    ensures 2 * FloorSqrt(n) <= FloorSqrt(4 * n) <= 2 * FloorSqrt(n) + 1
  {
    hide FloorSqrt;
    RootOfMultiple(n, 2, FloorSqrt(n), FloorSqrt(4 * n));
  }

  // ---------------------------------------------------------------------
  // Pons activity
  // ---------------------------------------------------------------------

  function FourfoldActivity(side: SideInputs): SideInputs {
    side.(qualifiedPonsActivity := 4 * side.qualifiedPonsActivity, uniqueActiveWallets := 4 * side.uniqueActiveWallets)
  }

  lemma PonsStrengthIs(side: SideInputs, activity: nat, wallets: nat)
    requires Scorable(side)
    requires activity == FloorSqrt(side.qualifiedPonsActivity * RATIO_SCALE * RATIO_SCALE)
    requires wallets == FloorSqrt(side.uniqueActiveWallets * RATIO_SCALE * RATIO_SCALE)
    ensures PonsStrength(side) == (activity * 70 + wallets * 30) / 100
  {
  }

  /** Four times the activity and the wallets count twice, within two millionths: nobody dominates linearly. */
  lemma ActivityIsDiminishing(side: SideInputs)
    requires Scorable(side)
    ensures Scorable(FourfoldActivity(side))
    ensures 2 * PonsStrength(side) <= PonsStrength(FourfoldActivity(side)) <= 2 * PonsStrength(side) + 2
  {
    var more := FourfoldActivity(side);
    var a, w := side.qualifiedPonsActivity * RATIO_SCALE * RATIO_SCALE, side.uniqueActiveWallets * RATIO_SCALE * RATIO_SCALE;
    RootOfFour(a);
    RootOfFour(w);
    PonsStrengthIs(side, FloorSqrt(a), FloorSqrt(w));
    PonsStrengthIs(more, FloorSqrt(4 * a), FloorSqrt(4 * w));
    hide FloorSqrt, PonsStrength;
  }

  // ---------------------------------------------------------------------
  // Card support
  // ---------------------------------------------------------------------

  function Fourfold(s: CardSupport): CardSupport {
    CardSupport(4 * s.market, 4 * s.volume, 4 * s.pons, 4 * s.general)
  }

  lemma ChannelOfFour(support: nat, general: nat, weight: nat)
    ensures 4 * Channel(support, general, weight) <= Channel(4 * support, 4 * general, weight)
         <= 4 * Channel(support, general, weight) + 3 * weight
  {
    var part, more := general * weight / 90, (4 * general) * weight / 90;
    assert (4 * general) * weight == 4 * (general * weight);
    assert 4 * part <= more <= 4 * part + 3;
    MulMonotone(4 * (support + part), 4 * support + more, weight);
    MulMonotone(4 * support + more, 4 * (support + part) + 3, weight);
  }

  lemma EffectiveOfFour(s: CardSupport)
    requires s.market >= 0 && s.volume >= 0 && s.pons >= 0 && s.general >= 0
    ensures 4 * EffectiveSupport(s) <= EffectiveSupport(Fourfold(s)) <= 4 * EffectiveSupport(s) + 270
  {
    ChannelOfFour(s.market, s.general, PRICE_WEIGHT);
    ChannelOfFour(s.volume, s.general, VOLUME_WEIGHT);
    ChannelOfFour(s.pons, s.general, PONS_WEIGHT);
    hide Channel;
  }

  lemma FourRoots(n: nat, m: nat, r: nat, q: nat)
    requires r * r <= n < (r + 1) * (r + 1) && q * q <= m
    requires n >= RATIO_SCALE * RATIO_SCALE && m <= 10 * n
    ensures q < 4 * r
  {
    if r < RATIO_SCALE {
      SquareMonotone(r + 1, RATIO_SCALE);
    }
    if q >= 4 * r {
      SquareMonotone(4 * r, q);
      assert (4 * r) * (4 * r) == 16 * (r * r);
      assert (r + 1) * (r + 1) == r * r + 2 * r + 1;
      MulMonotone(RATIO_SCALE, r, r);
    }
  }

  /** Up to ten times a number of at least a million squared has a root of less than four times its root. */
  lemma RootOfTen(n: nat, m: nat)
    requires n >= RATIO_SCALE * RATIO_SCALE && m <= 10 * n
    ensures FloorSqrt(m) < 4 * FloorSqrt(n)
  {
    RootIs(n);
    RootIs(m);
    hide *;
    FourRoots(n, m, FloorSqrt(n), FloorSqrt(m));
  }

  lemma NothingToScale()
    ensures FloorSqrt(0) == 0
  {
  }

  lemma CardStrengthIs(side: SideInputs)
    requires Scorable(side)
    ensures EffectiveSupport(side.cardSupport) >= 0
    ensures CardStrength(side) == FloorSqrt(EffectiveSupport(side.cardSupport) / 90 * RATIO_SCALE * RATIO_SCALE)
  {
    SupportNotNegative(side.cardSupport);
  }

  lemma RootsOfSupport(e: nat, f: nat)
    requires f <= 4 * e + 270
    ensures FloorSqrt(f / 90 * RATIO_SCALE * RATIO_SCALE) < 4 * FloorSqrt(e / 90 * RATIO_SCALE * RATIO_SCALE) <==> e >= 90
  {
    hide FloorSqrt;
    var n, m := e / 90 * RATIO_SCALE * RATIO_SCALE, f / 90 * RATIO_SCALE * RATIO_SCALE;
    if e >= 90 {
      assert f / 90 <= 10 * (e / 90);
      RootOfTen(n, m);
    } else {
      assert n == 0;
      NothingToScale();
    }
  }

  /**
   Four times the support is worth less than four times the strength exactly when the
   support was worth anything to begin with; below that it can go from nothing to
   something.
  */
  lemma SupportIsDiminishingIff(side: SideInputs)
    requires Scorable(side)
    ensures var more := side.(cardSupport := Fourfold(side.cardSupport));
            Scorable(more)
            && (CardStrength(more) < 4 * CardStrength(side) <==> EffectiveSupport(side.cardSupport) >= 90)
  {
    var more := side.(cardSupport := Fourfold(side.cardSupport));
    EffectiveOfFour(side.cardSupport);
    CardStrengthIs(side);
    CardStrengthIs(more);
    hide EffectiveSupport, CardStrength, FloorSqrt;
    RootsOfSupport(EffectiveSupport(side.cardSupport), EffectiveSupport(more.cardSupport));
  }

  // ---------------------------------------------------------------------
  // Roots of quotients
  // ---------------------------------------------------------------------

  /** The strength a quotient by the channels' weight gives. */
  function Strength(quotient: nat): nat {
    FloorSqrt(quotient * RATIO_SCALE * RATIO_SCALE)
  }

  function Quotient(side: SideInputs): nat
    requires Scorable(side)
  {
    SupportNotNegative(side.cardSupport);
    EffectiveSupport(side.cardSupport) / 90
  }

  lemma StrengthOf(side: SideInputs)
    requires Scorable(side)
    ensures CardStrength(side) == Strength(Quotient(side))
  {
    hide FloorSqrt, EffectiveSupport;
    CardStrengthIs(side);
  }

  lemma StrengthGrows(n: nat, m: nat)
    requires n <= m
    ensures Strength(n) <= Strength(m)
  {
    FloorSqrtMonotone(n * RATIO_SCALE * RATIO_SCALE, m * RATIO_SCALE * RATIO_SCALE);
  }

  /** The next square after a root `r` of `n` lies at or below `m`. */
  lemma NextSquareFits(n: nat, m: nat, r: nat, q: nat)
    requires r * r <= n && m < (q + 1) * (q + 1)
    requires n + 2 * r + 1 <= m
    ensures r < q
  {
    assert (r + 1) * (r + 1) == r * r + 2 * r + 1;
    if q <= r {
      SquareMonotone(q + 1, r + 1);
    }
  }

  lemma RootAtMost(n: nat, r: nat, s: nat)
    requires r * r <= n < (s + 1) * (s + 1)
    ensures r <= s
  {
    if r > s {
      SquareMonotone(s + 1, r);
    }
  }

  const DISTINCT: nat := 250_000_000_000

  /** Quotients up to a quarter of a million million all have strengths of their own. */
  lemma StrengthsDiffer(n: nat, m: nat)
    requires n < m && n < DISTINCT
    ensures Strength(n) < Strength(m)
  {
    var u, v := n * RATIO_SCALE * RATIO_SCALE, m * RATIO_SCALE * RATIO_SCALE;
    RootIs(u);
    RootIs(v);
    hide FloorSqrt;
    RootAtMost(u, FloorSqrt(u), 499_999_999_999);
    NextSquareFits(u, v, FloorSqrt(u), FloorSqrt(v));
  }

  /** From there on neighbours can share one. */
  lemma StrengthsMeet()
    ensures Strength(DISTINCT) == Strength(DISTINCT + 1)
  {
    var r := 500_000_000_000;
    FloorSqrtIsOnly(DISTINCT * RATIO_SCALE * RATIO_SCALE, r);
    FloorSqrtIsOnly((DISTINCT + 1) * RATIO_SCALE * RATIO_SCALE, r);
    hide FloorSqrt;
  }

  /** However large, quotients far enough apart for their size have different strengths. */
  lemma FarStrengthsDiffer(n: nat, m: nat)
    requires n < m && RATIO_SCALE * (m - n) >= 2 * n + 3
    ensures Strength(n) < Strength(m)
  {
    var u, v := n * RATIO_SCALE * RATIO_SCALE, m * RATIO_SCALE * RATIO_SCALE;
    var s := RATIO_SCALE * (n + 1);
    RootIs(u);
    RootIs(v);
    hide FloorSqrt;
    SquareAbove(n, u, s);
    RootAtMost(u, FloorSqrt(u), s);
    NextSquareFits(u, v, FloorSqrt(u), FloorSqrt(v));
  }

  lemma SquareAbove(n: nat, u: nat, s: nat)
    requires u == n * RATIO_SCALE * RATIO_SCALE && s == RATIO_SCALE * (n + 1)
    ensures u < (s + 1) * (s + 1)
  {
    assert s * s == RATIO_SCALE * RATIO_SCALE * ((n + 1) * (n + 1));
    assert (n + 1) * (n + 1) == n * n + 2 * n + 1;
    SquareMonotone(0, n);
    SquareMonotone(s, s + 1);
  }

  // ---------------------------------------------------------------------
  // General support
  // ---------------------------------------------------------------------

  datatype Aim = OnGeneral | OnMarket | OnVolume | OnPons

  /** The side with `g` more tenths of support, aimed. */
  function Aimed(side: SideInputs, aim: Aim, g: nat): SideInputs {
    var s := side.cardSupport;
    side.(cardSupport :=
            match aim
            case OnGeneral => s.(general := s.general + g)
            case OnMarket => s.(market := s.market + g)
            case OnVolume => s.(volume := s.volume + g)
            case OnPons => s.(pons := s.pons + g))
  }

  /** What `g` more tenths of general support add to the effective support, on top of `x`. */
  function Spread(x: nat, g: nat): int {
    ((x + g) * 45 / 90 - x * 45 / 90) * 45 + ((x + g) * 25 / 90 - x * 25 / 90) * 25 + ((x + g) * 20 / 90 - x * 20 / 90) * 20
  }

  lemma AimedEffect(side: SideInputs, g: nat)
    requires Scorable(side)
    ensures forall aim :: Scorable(Aimed(side, aim, g))
    ensures var s := side.cardSupport;
            var e := EffectiveSupport(s);
            && EffectiveSupport(Aimed(side, OnGeneral, g).cardSupport) == e + Spread(s.general, g)
            && EffectiveSupport(Aimed(side, OnMarket, g).cardSupport) == e + 45 * g
            && EffectiveSupport(Aimed(side, OnVolume, g).cardSupport) == e + 25 * g
            && EffectiveSupport(Aimed(side, OnPons, g).cardSupport) == e + 20 * g
  {
  }

  lemma SpreadBounds(x: nat, g: nat)
    ensures 3050 * g - 8100 < 90 * Spread(x, g) < 3050 * g + 8100
  {
  }

  /** On any side, strengths agree exactly where the quotients do, as long as these are not astronomical. */
  lemma StrengthsAgreeIff(a: SideInputs, b: SideInputs)
    requires Scorable(a) && Scorable(b)
    ensures Quotient(a) == Quotient(b) ==> CardStrength(a) == CardStrength(b)
    ensures Quotient(a) < Quotient(b) ==> CardStrength(a) <= CardStrength(b)
    ensures Quotient(a) < Quotient(b) && Quotient(a) < DISTINCT ==> CardStrength(a) < CardStrength(b)
  {
    StrengthOf(a);
    StrengthOf(b);
    var n, m := Quotient(a), Quotient(b);
    hide Strength, CardStrength, Quotient;
    if n < m {
      StrengthGrows(n, m);
      if n < DISTINCT {
        StrengthsDiffer(n, m);
      }
    }
  }

  /**
   Beside any other support, general support is worth less than the same amount on the
   market and more than on volume or Pons, from a couple of units on.
  */
  lemma GeneralBesideOthers(side: SideInputs, g: nat)
    requires Scorable(side)
    ensures forall aim :: Scorable(Aimed(side, aim, g))
    ensures g >= 17 ==> Quotient(Aimed(side, OnGeneral, g)) < Quotient(Aimed(side, OnMarket, g))
    ensures g >= 21 ==> Quotient(Aimed(side, OnVolume, g)) < Quotient(Aimed(side, OnGeneral, g))
    ensures g >= 13 ==> Quotient(Aimed(side, OnPons, g)) < Quotient(Aimed(side, OnGeneral, g))
  {
    AimedEffect(side, g);
    SpreadBounds(side.cardSupport.general, g);
    hide EffectiveSupport, Spread, Scorable;
  }

  /** A side with no card support yet. */
  predicate Bare(side: SideInputs) {
    Scorable(side) && side.cardSupport == CardSupport(0, 0, 0, 0)
  }

  lemma BareQuotients(side: SideInputs, g: nat)
    requires Bare(side)
    ensures forall aim :: Scorable(Aimed(side, aim, g))
    ensures Quotient(Aimed(side, OnGeneral, g)) == Spread(0, g) / 90 && Spread(0, g) >= 0
    ensures Quotient(Aimed(side, OnMarket, g)) == 45 * g / 90
    ensures Quotient(Aimed(side, OnVolume, g)) == 25 * g / 90
    ensures Quotient(Aimed(side, OnPons, g)) == 20 * g / 90
  {
    AimedEffect(side, g);
    NoSupport();
    SpreadGrows(g);
    hide EffectiveSupport, Spread, Scorable, Aimed;
  }

  lemma NoSupport()
    ensures EffectiveSupport(CardSupport(0, 0, 0, 0)) == 0
  {
  }

  lemma SpreadGrows(g: nat)
    ensures Spread(0, g) >= 0
  {
  }

  predicate SameOnVolume(g: nat) {
    g <= 5 || g == 8 || g == 11
  }

  predicate SameOnPons(g: nat) {
    g <= 3 || g == 5
  }

  /** Two quotients agree, or lie far apart for their size. */
  predicate EqualOrFar(n: nat, m: nat) {
    n == m || (n < m && RATIO_SCALE * (m - n) >= 2 * n + 3)
  }

  /** How the quotients of general and aimed support of `g` compare. */
  predicate BareOrdered(g: nat, spread: int) {
    var s := spread / 90;
    && 0 <= s
    && EqualOrFar(s, 45 * g / 90) && EqualOrFar(25 * g / 90, s) && EqualOrFar(20 * g / 90, s)
    && (s == 45 * g / 90 <==> g <= 1)
    && (s == 25 * g / 90 <==> SameOnVolume(g))
    && (s == 20 * g / 90 <==> SameOnPons(g))
  }

  lemma LargeOrder(g: nat, spread: int)
    requires g >= 22 && 3050 * g - 8100 < 90 * spread < 3050 * g + 8100
    ensures BareOrdered(g, spread)
  {
  }

  /** Floors of `g` in the channels' proportions, and of what they come to. */
  predicate Floored(g: nat, h: int, v: int, p: int, s: int) {
    && 90 * h <= 45 * g < 90 * h + 90 && 90 * v <= 25 * g < 90 * v + 90 && 90 * p <= 20 * g < 90 * p + 90
    && 90 * s <= 45 * h + 25 * v + 20 * p < 90 * s + 90
  }

  lemma SmallMarket(g: nat, h: int, v: int, p: int, s: int)
    requires g < 22 && Floored(g, h, v, p, s)
    ensures 0 <= s <= h && (s == h <==> g <= 1)
  {
  }

  lemma TinyVolume(g: nat, h: int, v: int, p: int, s: int)
    requires g < 9 && Floored(g, h, v, p, s)
    ensures 0 <= v <= s && (s == v <==> SameOnVolume(g))
  {
  }

  lemma SmallVolume(g: nat, h: int, v: int, p: int, s: int)
    requires g < 22 && Floored(g, h, v, p, s)
    ensures 0 <= v <= s && (s == v <==> SameOnVolume(g))
  {
    if g < 9 {
      TinyVolume(g, h, v, p, s);
    }
  }

  lemma TinyPons(g: nat, h: int, v: int, p: int, s: int)
    requires g < 9 && Floored(g, h, v, p, s)
    ensures 0 <= p <= s && (s == p <==> SameOnPons(g))
  {
    assert h == g / 2 && (v == if g < 4 then 0 else if g < 8 then 1 else 2) && p == if g < 5 then 0 else 1;
  }

  lemma SmallPons(g: nat, h: int, v: int, p: int, s: int)
    requires g < 22 && Floored(g, h, v, p, s)
    ensures 0 <= p <= s && (s == p <==> SameOnPons(g))
  {
    if g < 9 {
      TinyPons(g, h, v, p, s);
    }
  }

  lemma SmallFloors(g: nat)
    ensures Floored(g, g * 45 / 90, g * 25 / 90, g * 20 / 90, Spread(0, g) / 90)
  {
  }

  lemma SmallOrder(g: nat)
    requires g < 22
    ensures BareOrdered(g, Spread(0, g))
  {
    var h, v, p, s := g * 45 / 90, g * 25 / 90, g * 20 / 90, Spread(0, g) / 90;
    SmallFloors(g);
    SmallMarket(g, h, v, p, s);
    SmallVolume(g, h, v, p, s);
    SmallPons(g, h, v, p, s);
    hide Floored, Spread, SameOnVolume, SameOnPons;
  }

  lemma BareOrder(g: nat)
    ensures BareOrdered(g, Spread(0, g))
  {
    SpreadBounds(0, g);
    hide BareOrdered, Spread;
    if g >= 22 {
      LargeOrder(g, Spread(0, g));
    } else {
      SmallOrder(g);
    }
  }

  /**
   With no other support, what general support is worth against the same amount aimed
   at a channel, exactly: as much as on the market only up to a tenth of a unit, as on
   volume and Pons only at a few small amounts; otherwise less than on the market and
   more than on the other two.
  */
  lemma GeneralIsWorthTheSameIff(side: SideInputs, g: nat)
    requires Bare(side)
    ensures forall aim :: Scorable(Aimed(side, aim, g))
    ensures var general, market := CardStrength(Aimed(side, OnGeneral, g)), CardStrength(Aimed(side, OnMarket, g));
            var volume, pons := CardStrength(Aimed(side, OnVolume, g)), CardStrength(Aimed(side, OnPons, g));
            && (general == market <==> g <= 1) && general <= market
            && (general == volume <==> SameOnVolume(g)) && volume <= general
            && (general == pons <==> SameOnPons(g)) && pons <= general
  {
    BareQuotients(side, g);
    BareOrder(g);
    assert BareOrdered(g, Spread(0, g));
    forall aim
      ensures CardStrength(Aimed(side, aim, g)) == Strength(Quotient(Aimed(side, aim, g)))
    {
      StrengthOf(Aimed(side, aim, g));
    }
    var s := Spread(0, g) / 90;
    hide Strength, CardStrength, Quotient, Spread, Aimed, SameOnVolume, SameOnPons, Scorable;
    FarOrder(s, 45 * g / 90);
    FarOrder(25 * g / 90, s);
    FarOrder(20 * g / 90, s);
  }

  lemma FarOrder(n: nat, m: nat)
    requires EqualOrFar(n, m)
    ensures Strength(n) <= Strength(m) && (Strength(n) == Strength(m) <==> n == m)
  {
    hide Strength;
    if n < m {
      FarStrengthsDiffer(n, m);
    }
  }
}

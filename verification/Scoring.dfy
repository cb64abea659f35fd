/**
 The battle score, packages/battle-math/src/scoring.ts, scale.ts and
 resolution.ts: a hundred points split four ways in exact integers.
 */
module Scoring {
  import opened Arithmetic
  import opened Money
  import opened Wrappers

  const RATIO_SCALE: int := 1_000_000
  const POINT_SCALE: int := 1_000_000
  const FULL_SCORE: int := 100 * POINT_SCALE

  // ---------------------------------------------------------------------
  // Scaled arithmetic
  // ---------------------------------------------------------------------

  function ClampUnit(x: int): int {
    if x > RATIO_SCALE then RATIO_SCALE else if x < -RATIO_SCALE then -RATIO_SCALE else x
  }

  /** `bigint` division: toward zero. */
  function TruncDiv(a: int, b: int): int
    requires b != 0
  {
    var q := (if a < 0 then -a else a) / (if b < 0 then -b else b);
    if (a < 0) != (b < 0) then -q else q
  }

  /** `bigint` remainder: the sign of the dividend. */
  function TruncMod(a: int, b: int): int
    requires b != 0
  {
    a - TruncDiv(a, b) * b
  }

  /** A scaled quotient, corrected from truncation to a floor. */
  function DivScaled(numerator: int, denominator: int): int
    requires denominator != 0
  {
    var scaled := numerator * RATIO_SCALE;
    var quotient := TruncDiv(scaled, denominator);
    if TruncMod(scaled, denominator) != 0 && (scaled < 0) != (denominator < 0) then quotient - 1 else quotient
  }

  lemma FloorOfNegative(a: int, b: int)
    requires b > 0
    ensures (-a) / b == if a - (a / b) * b == 0 then -(a / b) else -(a / b) - 1
  {
    var d := a / b;
    FloorIs(a, b, d);
    var e := if a - d * b == 0 then -d else -d - 1;
    assert (-d) * b == -(d * b) && (-d - 1) * b == -(d * b) - b;
    FloorIs(-a, b, e);
  }

  lemma FloorOverPositive(numerator: int, denominator: int)
    requires denominator > 0
    ensures DivScaled(numerator, denominator) == numerator * RATIO_SCALE / denominator
  {
    var scaled := numerator * RATIO_SCALE;
    if scaled < 0 {
      FloorOfNegative(-scaled, denominator);
      assert (-(-scaled / denominator)) * denominator == -((-scaled / denominator) * denominator);
    } else {
      var d := scaled / denominator;
      FloorIs(scaled, denominator, d);
    }
  }

  lemma ZeroOver(b: int)
    requires b > 0
    ensures 0 / b == 0
  {
  }

  lemma SignsCancel(a: int, b: int)
    requires b != 0
    ensures TruncDiv(-a, -b) == TruncDiv(a, b)
    ensures TruncMod(-a, -b) == -TruncMod(a, b)
  {
    ZeroOver(if b < 0 then -b else b);
    var q := TruncDiv(a, b);
    assert TruncDiv(-a, -b) == q;
    hide TruncDiv;
    assert q * (-b) == -(q * b);
  }

  /** The correction is exact: this is the floor of the quotient, whatever the signs. */
  lemma DivScaledIsFloor(numerator: int, denominator: int)
    requires denominator != 0
    ensures DivScaled(numerator, denominator)
            == if denominator > 0 then numerator * RATIO_SCALE / denominator else (-numerator * RATIO_SCALE) / (-denominator)
  {
    if denominator > 0 {
      FloorOverPositive(numerator, denominator);
    } else {
      FloorOverPositive(-numerator, -denominator);
      var scaled := numerator * RATIO_SCALE;
      assert -numerator * RATIO_SCALE == -scaled;
      SignsCancel(scaled, denominator);
      if scaled == 0 {
        assert TruncMod(0, denominator) == 0;
      }
      hide TruncDiv, TruncMod;
    }
  }

  // ---------------------------------------------------------------------
  // Inputs and scores
  // ---------------------------------------------------------------------

  datatype CardSupport = CardSupport(market: int, volume: int, pons: int, general: int)

  datatype SideInputs = SideInputs(
    windowReturn: int,
    volatility: int,
    relativeVolume: int,
    qualifiedPonsActivity: int,
    uniqueActiveWallets: int,
    cardSupport: CardSupport)

  datatype Calibration = Calibration(priceEdge: int, volumeEdge: int, ponsEdge: int, cardEdge: int)

  datatype Breakdown = Breakdown(priceMomentum: int, relativeVolume: int, ponsPower: int, holderCardSupport: int) {
    function Total(): int {
      priceMomentum + relativeVolume + ponsPower + holderCardSupport
    }
  }

  datatype BattleScore = BattleScore(left: Breakdown, right: Breakdown) {
    function LeftTotal(): int { left.Total() }
    function RightTotal(): int { right.Total() }
  }

  const PRICE_WEIGHT: nat := 45
  const VOLUME_WEIGHT: nat := 25
  const PONS_WEIGHT: nat := 20
  const CARD_WEIGHT: nat := 10

  /** What the scoring functions refuse, by throwing. */
  predicate Scorable(side: SideInputs) {
    && side.volatility > 0
    && side.qualifiedPonsActivity >= 0 && side.uniqueActiveWallets >= 0
    && side.cardSupport.market >= 0 && side.cardSupport.volume >= 0
    && side.cardSupport.pons >= 0 && side.cardSupport.general >= 0
  }

  predicate Calibrated(c: Calibration) {
    c.priceEdge > 0 && c.volumeEdge > 0 && c.ponsEdge > 0 && c.cardEdge > 0
  }

  /** The left side's part of a component of weight `w` points. */
  function LeftPart(w: nat, edge: int): int {
    (w * POINT_SCALE) * (RATIO_SCALE + ClampUnit(edge)) / (2 * RATIO_SCALE)
  }

  function Edge(left: int, right: int, divisor: int): int
    requires divisor > 0
  {
    if left == right then 0 else ClampUnit(DivScaled(left - right, divisor))
  }

  function AdjustedReturn(side: SideInputs): int
    requires Scorable(side)
  {
    DivScaled(side.windowReturn, side.volatility)
  }

  function PonsStrength(side: SideInputs): nat
    requires Scorable(side)
  {
    var activity := FloorSqrt(side.qualifiedPonsActivity * RATIO_SCALE * RATIO_SCALE);
    var wallets := FloorSqrt(side.uniqueActiveWallets * RATIO_SCALE * RATIO_SCALE);
    (activity * 70 + wallets * 30) / 100
  }

  /** One channel's support with its part of the general support, under its weight. */
  function Channel(support: int, general: int, weight: nat): int {
    (support + general * weight / 90) * weight
  }

  function EffectiveSupport(s: CardSupport): int {
    Channel(s.market, s.general, PRICE_WEIGHT)
    + Channel(s.volume, s.general, VOLUME_WEIGHT)
    + Channel(s.pons, s.general, PONS_WEIGHT)
  }

  function CardStrength(side: SideInputs): nat
    requires Scorable(side)
  {
    SupportNotNegative(side.cardSupport);
    FloorSqrt(EffectiveSupport(side.cardSupport) / 90 * RATIO_SCALE * RATIO_SCALE)
  }

  lemma SupportNotNegative(s: CardSupport)
    requires s.market >= 0 && s.volume >= 0 && s.pons >= 0 && s.general >= 0
    ensures EffectiveSupport(s) >= 0
  {
    hide Channel;
    ChannelGrows(0, s.market, 0, s.general, PRICE_WEIGHT);
    ChannelGrows(0, s.volume, 0, s.general, VOLUME_WEIGHT);
    ChannelGrows(0, s.pons, 0, s.general, PONS_WEIGHT);
  }

  lemma ChannelGrows(a: nat, b: nat, g: nat, h: nat, weight: nat)
    requires a <= b && g <= h
    ensures 0 <= Channel(a, g, weight) <= Channel(b, h, weight)
  {
    MulMonotone(g, h, weight);
    FloorMonotone(g * weight, h * weight, 90);
    FloorAtLeast(g * weight, 90, 0);
    MulMonotone(a + g * weight / 90, b + h * weight / 90, weight);
  }

  datatype Edges = Edges(price: int, volume: int, pons: int, card: int)

  function EdgesOf(left: SideInputs, right: SideInputs, c: Calibration): Edges
    requires Scorable(left) && Scorable(right) && Calibrated(c)
  {
    Edges(Edge(AdjustedReturn(left), AdjustedReturn(right), c.priceEdge),
          Edge(left.relativeVolume, right.relativeVolume, c.volumeEdge),
          Edge(PonsStrength(left), PonsStrength(right), c.ponsEdge),
          Edge(CardStrength(left), CardStrength(right), c.cardEdge))
  }

  function Split(e: Edges): BattleScore {
    var p, v, n, k := LeftPart(PRICE_WEIGHT, e.price), LeftPart(VOLUME_WEIGHT, e.volume),
                      LeftPart(PONS_WEIGHT, e.pons), LeftPart(CARD_WEIGHT, e.card);
    BattleScore(Breakdown(p, v, n, k),
                Breakdown(PRICE_WEIGHT * POINT_SCALE - p, VOLUME_WEIGHT * POINT_SCALE - v,
                          PONS_WEIGHT * POINT_SCALE - n, CARD_WEIGHT * POINT_SCALE - k))
  }

  function ScoreBattle(left: SideInputs, right: SideInputs, c: Calibration): Result<BattleScore, string> {
    if !Scorable(left) || !Scorable(right) || !Calibrated(c) then Err("RangeError")
    else Ok(Split(EdgesOf(left, right, c)))
  }

  // ---------------------------------------------------------------------
  // Exactly a hundred points
  // ---------------------------------------------------------------------

  lemma LeftPartInRange(w: nat, edge: int)
    ensures 0 <= LeftPart(w, edge) <= w * POINT_SCALE
  {
    var a := RATIO_SCALE + ClampUnit(edge);
    MulMonotone(0, a, w * POINT_SCALE);
    MulMonotone(a, 2 * RATIO_SCALE, w * POINT_SCALE);
    FloorAtLeast((w * POINT_SCALE) * a, 2 * RATIO_SCALE, 0);
    FloorMonotone((w * POINT_SCALE) * a, (w * POINT_SCALE) * (2 * RATIO_SCALE), 2 * RATIO_SCALE);
    FloorIs((w * POINT_SCALE) * (2 * RATIO_SCALE), 2 * RATIO_SCALE, w * POINT_SCALE);
  }

  ghost predicate Shares(l: int, r: int, w: nat) {
    l >= 0 && r >= 0 && l + r == w * POINT_SCALE
  }

  /** No component steals from another, and the whole is always exactly a hundred. */
  lemma ExactlyAHundred(left: SideInputs, right: SideInputs, c: Calibration)
    requires ScoreBattle(left, right, c).Ok?
    ensures var s := ScoreBattle(left, right, c).value;
            && s.LeftTotal() + s.RightTotal() == FULL_SCORE
            && Shares(s.left.priceMomentum, s.right.priceMomentum, PRICE_WEIGHT)
            && Shares(s.left.relativeVolume, s.right.relativeVolume, VOLUME_WEIGHT)
            && Shares(s.left.ponsPower, s.right.ponsPower, PONS_WEIGHT)
            && Shares(s.left.holderCardSupport, s.right.holderCardSupport, CARD_WEIGHT)
  {
    var e := EdgesOf(left, right, c);
    LeftPartInRange(PRICE_WEIGHT, e.price);
    LeftPartInRange(VOLUME_WEIGHT, e.volume);
    LeftPartInRange(PONS_WEIGHT, e.pons);
    LeftPartInRange(CARD_WEIGHT, e.card);
    hide LeftPart, EdgesOf;
  }

  // ---------------------------------------------------------------------
  // Doing better never scores less
  // ---------------------------------------------------------------------

  lemma EdgeIs(left: int, right: int, divisor: int)
    requires divisor > 0
    ensures Edge(left, right, divisor) == ClampUnit((left - right) * RATIO_SCALE / divisor)
  {
    DivScaledIsFloor(left - right, divisor);
  }

  lemma LeftPartIs(w: nat, edge: int)
    ensures LeftPart(w, edge) == w * (RATIO_SCALE + ClampUnit(edge)) / 2
  {
    var n := RATIO_SCALE + ClampUnit(edge);
    assert (w * POINT_SCALE) * n == POINT_SCALE * (w * n);
    Halves(w * n);
  }

  lemma Halves(m: int)
    ensures POINT_SCALE * m / (2 * RATIO_SCALE) == m / 2
  {
  }

  lemma PartGrows(w: nat, a: int, b: int, other: int, divisor: int)
    requires divisor > 0 && a <= b
    ensures LeftPart(w, Edge(a, other, divisor)) <= LeftPart(w, Edge(b, other, divisor))
  {
    hide Edge, LeftPart, ClampUnit;
    EdgeIs(a, other, divisor);
    EdgeIs(b, other, divisor);
    FloorMonotone((a - other) * RATIO_SCALE, (b - other) * RATIO_SCALE, divisor);
    var d, e := Edge(a, other, divisor), Edge(b, other, divisor);
    ClampMonotone((a - other) * RATIO_SCALE / divisor, (b - other) * RATIO_SCALE / divisor);
    ClampMonotone(d, e);
    PartOfEdge(w, d, e);
  }

  lemma ClampMonotone(a: int, b: int)
    requires a <= b
    ensures ClampUnit(a) <= ClampUnit(b)
  {
  }

  lemma PartOfEdge(w: nat, d: int, e: int)
    requires ClampUnit(d) <= ClampUnit(e)
    ensures LeftPart(w, d) <= LeftPart(w, e)
  {
    hide LeftPart, ClampUnit;
    LeftPartIs(w, d);
    LeftPartIs(w, e);
    MulMonotone(RATIO_SCALE + ClampUnit(d), RATIO_SCALE + ClampUnit(e), w);
    FloorMonotone(w * (RATIO_SCALE + ClampUnit(d)), w * (RATIO_SCALE + ClampUnit(e)), 2);
  }

  /** `b` did at least as well as `a` on every input, over the same volatility. */
  ghost predicate AtLeastAsStrong(a: SideInputs, b: SideInputs) {
    && a.volatility == b.volatility && a.windowReturn <= b.windowReturn
    && a.relativeVolume <= b.relativeVolume
    && a.qualifiedPonsActivity <= b.qualifiedPonsActivity
    && a.uniqueActiveWallets <= b.uniqueActiveWallets
    && a.cardSupport.market <= b.cardSupport.market && a.cardSupport.volume <= b.cardSupport.volume
    && a.cardSupport.pons <= b.cardSupport.pons && a.cardSupport.general <= b.cardSupport.general
  }

  lemma ScaledRootGrows(a: nat, b: nat)
    requires a <= b
    ensures FloorSqrt(a * RATIO_SCALE * RATIO_SCALE) <= FloorSqrt(b * RATIO_SCALE * RATIO_SCALE)
  {
    hide FloorSqrt;
    FloorSqrtMonotone(a * RATIO_SCALE * RATIO_SCALE, b * RATIO_SCALE * RATIO_SCALE);
  }

  lemma SupportGrows(a: CardSupport, b: CardSupport)
    requires a.market >= 0 && a.volume >= 0 && a.pons >= 0 && a.general >= 0
    requires a.market <= b.market && a.volume <= b.volume && a.pons <= b.pons && a.general <= b.general
    ensures 0 <= EffectiveSupport(a) <= EffectiveSupport(b)
  {
    hide Channel;
    ChannelGrows(a.market, b.market, a.general, b.general, PRICE_WEIGHT);
    ChannelGrows(a.volume, b.volume, a.general, b.general, VOLUME_WEIGHT);
    ChannelGrows(a.pons, b.pons, a.general, b.general, PONS_WEIGHT);
  }

  lemma ReturnGrows(a: SideInputs, b: SideInputs)
    requires Scorable(a) && Scorable(b) && AtLeastAsStrong(a, b)
    ensures AdjustedReturn(a) <= AdjustedReturn(b)
  {
    DivScaledIsFloor(a.windowReturn, a.volatility);
    DivScaledIsFloor(b.windowReturn, b.volatility);
    hide DivScaled;
    FloorMonotone(a.windowReturn * RATIO_SCALE, b.windowReturn * RATIO_SCALE, a.volatility);
  }

  lemma StrengthsGrow(a: SideInputs, b: SideInputs)
    requires Scorable(a) && Scorable(b) && AtLeastAsStrong(a, b)
    ensures AdjustedReturn(a) <= AdjustedReturn(b)
    ensures PonsStrength(a) <= PonsStrength(b)
    ensures CardStrength(a) <= CardStrength(b)
  {
    hide FloorSqrt, EffectiveSupport, AdjustedReturn;
    ReturnGrows(a, b);
    ScaledRootGrows(a.qualifiedPonsActivity, b.qualifiedPonsActivity);
    ScaledRootGrows(a.uniqueActiveWallets, b.uniqueActiveWallets);
    SupportGrows(a.cardSupport, b.cardSupport);
    ScaledRootGrows(EffectiveSupport(a.cardSupport) / 90, EffectiveSupport(b.cardSupport) / 90);
  }

  /** A side that does at least as well on every input gets at least as many points, part by part. */
  lemma StrongerScoresMore(a: SideInputs, b: SideInputs, other: SideInputs, c: Calibration)
    requires Scorable(a) && Scorable(b) && Scorable(other) && Calibrated(c) && AtLeastAsStrong(a, b)
    ensures var s, t := ScoreBattle(a, other, c).value, ScoreBattle(b, other, c).value;
            && s.left.priceMomentum <= t.left.priceMomentum
            && s.left.relativeVolume <= t.left.relativeVolume
            && s.left.ponsPower <= t.left.ponsPower
            && s.left.holderCardSupport <= t.left.holderCardSupport
            && s.LeftTotal() <= t.LeftTotal() && s.RightTotal() >= t.RightTotal()
  {
    StrengthsGrow(a, b);
    hide AdjustedReturn, PonsStrength, CardStrength, LeftPart, Edge, AtLeastAsStrong;
    PartGrows(PRICE_WEIGHT, AdjustedReturn(a), AdjustedReturn(b), AdjustedReturn(other), c.priceEdge);
    assert a.relativeVolume <= b.relativeVolume by {
      VolumeGrows(a, b);
    }
    PartGrows(VOLUME_WEIGHT, a.relativeVolume, b.relativeVolume, other.relativeVolume, c.volumeEdge);
    PartGrows(PONS_WEIGHT, PonsStrength(a), PonsStrength(b), PonsStrength(other), c.ponsEdge);
    PartGrows(CARD_WEIGHT, CardStrength(a), CardStrength(b), CardStrength(other), c.cardEdge);
  }

  lemma VolumeGrows(a: SideInputs, b: SideInputs)
    requires AtLeastAsStrong(a, b)
    ensures a.relativeVolume <= b.relativeVolume
  {
  }

  // ---------------------------------------------------------------------
  // Which seat a stock takes
  // ---------------------------------------------------------------------

  /** How much more the `r` side of a component gets from the right seat than from the left one. */
  ghost function Skew(w: nat, l: int, r: int, divisor: int): int
    requires divisor > 0
  {
    w * POINT_SCALE - LeftPart(w, Edge(l, r, divisor)) - LeftPart(w, Edge(r, l, divisor))
  }

  /** Nothing is rounded: the edge is exact or saturated, and its half of the weight is whole. */
  ghost predicate Evenhanded(w: nat, l: int, r: int, divisor: int)
    requires divisor > 0
  {
    var x := (l - r) * RATIO_SCALE;
    && (x - (x / divisor) * divisor == 0 || x / divisor >= RATIO_SCALE || x / divisor < -RATIO_SCALE)
    && (w % 2 == 0 || Edge(l, r, divisor) % 2 == 0)
  }

  lemma EvenTimes(a: int, n: int)
    ensures (2 * a * n) % 2 == 0
  {
    assert 2 * a * n == 2 * (a * n);
  }

  lemma OddTimesOdd(a: int, b: int)
    ensures ((2 * a + 1) * (2 * b + 1)) % 2 == 1
  {
    assert (2 * a + 1) * (2 * b + 1) == 2 * (2 * a * b + a + b) + 1;
  }

  lemma ProductParity(w: int, n: int)
    ensures (w * n) % 2 == 0 <==> w % 2 == 0 || n % 2 == 0
  {
    if w % 2 == 0 {
      EvenTimes(w / 2, n);
    } else if n % 2 == 0 {
      EvenTimes(n / 2, w);
    } else {
      OddTimesOdd(w / 2, n / 2);
      assert w == 2 * (w / 2) + 1 && n == 2 * (n / 2) + 1;
    }
  }

  /** Halving `m` and `2 * half - m`, less `slipped`, both downward. */
  lemma HalvesSkew(half: int, m: int, w: int, slipped: bool)
    requires w > 0 && (w % 2 == 0 ==> m % 2 == 0)
    ensures var skew := half - m / 2 - (2 * half - m - (if slipped then w else 0)) / 2;
            0 <= skew <= (w + 1) / 2 && (skew == 0 <==> !slipped && m % 2 == 0)
  {
  }

  /** The two roundings of one component, with the edges `e` and `-e` or `-e - 1`. */
  lemma SkewOfEdges(w: nat, e: int, slip: int)
    requires w > 0 && -RATIO_SCALE <= e <= RATIO_SCALE && 0 <= slip <= 1 && -e - slip >= -RATIO_SCALE
    ensures var skew := w * POINT_SCALE - LeftPart(w, e) - LeftPart(w, -e - slip);
            0 <= skew <= (w + 1) / 2 && (skew == 0 <==> slip == 0 && (w % 2 == 0 || e % 2 == 0))
  {
    hide Times, LeftPart;
    LeftPartTimes(w, e);
    LeftPartTimes(w, -e - slip);
    TimesParity(w, RATIO_SCALE + e);
    Distributes(w, e);
    HalvesSkew(w * POINT_SCALE, Times(w, RATIO_SCALE + e), w, slip == 1);
  }

  lemma LeftPartTimes(w: nat, e: int)
    requires -RATIO_SCALE <= e <= RATIO_SCALE
    ensures LeftPart(w, e) == Times(w, RATIO_SCALE + e) / 2
  {
    LeftPartIs(w, e);
  }

  lemma TimesParity(w: int, n: int)
    ensures Times(w, n) % 2 == 0 <==> w % 2 == 0 || n % 2 == 0
  {
    ProductParity(w, n);
  }

  lemma Distributes(w: int, e: int)
    ensures Times(w, RATIO_SCALE - e) == 2 * (w * POINT_SCALE) - Times(w, RATIO_SCALE + e)
    ensures Times(w, RATIO_SCALE - e - 1) == 2 * (w * POINT_SCALE) - Times(w, RATIO_SCALE + e) - w
  {
  }

  lemma ComponentSkew(w: nat, l: int, r: int, divisor: int)
    requires divisor > 0 && w > 0
    ensures 0 <= Skew(w, l, r, divisor) <= (w + 1) / 2
    ensures Skew(w, l, r, divisor) == 0 <==> Evenhanded(w, l, r, divisor)
  {
    EdgeIs(l, r, divisor);
    EdgeIs(r, l, divisor);
    var x := (l - r) * RATIO_SCALE;
    assert (r - l) * RATIO_SCALE == -x;
    FloorOfNegative(x, divisor);
    var e, f := Edge(l, r, divisor), Edge(r, l, divisor);
    SkewOfEdges(w, e, -e - f);
  }

  /** What the right seat is worth to `r` over all four components. */
  ghost function SeatGain(l: SideInputs, r: SideInputs, c: Calibration): int
    requires Scorable(l) && Scorable(r) && Calibrated(c)
  {
    Skew(PRICE_WEIGHT, AdjustedReturn(l), AdjustedReturn(r), c.priceEdge)
    + Skew(VOLUME_WEIGHT, l.relativeVolume, r.relativeVolume, c.volumeEdge)
    + Skew(PONS_WEIGHT, PonsStrength(l), PonsStrength(r), c.ponsEdge)
    + Skew(CARD_WEIGHT, CardStrength(l), CardStrength(r), c.cardEdge)
  }

  lemma TotalSkew(l: SideInputs, r: SideInputs, c: Calibration)
    requires Scorable(l) && Scorable(r) && Calibrated(c)
    ensures ScoreBattle(l, r, c).value.RightTotal() - ScoreBattle(r, l, c).value.LeftTotal() == SeatGain(l, r, c)
  {
    hide AdjustedReturn, PonsStrength, CardStrength, LeftPart, Edge;
  }

  ghost predicate NothingRounds(l: SideInputs, r: SideInputs, c: Calibration)
    requires Scorable(l) && Scorable(r) && Calibrated(c)
  {
    && Evenhanded(PRICE_WEIGHT, AdjustedReturn(l), AdjustedReturn(r), c.priceEdge)
    && Evenhanded(VOLUME_WEIGHT, l.relativeVolume, r.relativeVolume, c.volumeEdge)
    && Evenhanded(PONS_WEIGHT, PonsStrength(l), PonsStrength(r), c.ponsEdge)
    && Evenhanded(CARD_WEIGHT, CardStrength(l), CardStrength(r), c.cardEdge)
  }

  lemma GainBounds(l: SideInputs, r: SideInputs, c: Calibration)
    requires Scorable(l) && Scorable(r) && Calibrated(c)
    ensures 0 <= SeatGain(l, r, c) <= 51 && (SeatGain(l, r, c) == 0 <==> NothingRounds(l, r, c))
  {
    hide AdjustedReturn, PonsStrength, CardStrength, Skew, Evenhanded;
    ComponentSkew(PRICE_WEIGHT, AdjustedReturn(l), AdjustedReturn(r), c.priceEdge);
    ComponentSkew(VOLUME_WEIGHT, l.relativeVolume, r.relativeVolume, c.volumeEdge);
    ComponentSkew(PONS_WEIGHT, PonsStrength(l), PonsStrength(r), c.ponsEdge);
    ComponentSkew(CARD_WEIGHT, CardStrength(l), CardStrength(r), c.cardEdge);
  }

  /**
   The right seat is never the worse one, and is worth at most 51 millionths of a
   point; the seats are worth the same exactly when no component rounds.
  */
  lemma RightSeatIsNeverWorse(l: SideInputs, r: SideInputs, c: Calibration)
    requires Scorable(l) && Scorable(r) && Calibrated(c)
    ensures var gain := ScoreBattle(l, r, c).value.RightTotal() - ScoreBattle(r, l, c).value.LeftTotal();
            0 <= gain <= 51 && (gain == 0 <==> NothingRounds(l, r, c))
  {
    TotalSkew(l, r, c);
    GainBounds(l, r, c);
    hide SeatGain, NothingRounds;
  }

  /**
   Changing seats takes twice the right seat's gain from `r`'s lead: who is ahead
   changes exactly when something rounds and `r` was level or ahead by no more than
   that, and so never for a lead over 102 millionths.
  */
  lemma SeatDecidesIff(l: SideInputs, r: SideInputs, c: Calibration)
    requires Scorable(l) && Scorable(r) && Calibrated(c)
    ensures var s, t, gain := ScoreBattle(l, r, c).value, ScoreBattle(r, l, c).value, SeatGain(l, r, c);
            var lead, after := s.RightTotal() - s.LeftTotal(), t.LeftTotal() - t.RightTotal();
            && after == lead - 2 * gain && 0 <= gain <= 51
            && ((lead > 0 <==> after > 0) && (lead < 0 <==> after < 0) <==> !(gain > 0 && 0 <= lead <= 2 * gain))
  {
    TotalSkew(l, r, c);
    GainBounds(l, r, c);
    ExactlyAHundred(l, r, c);
    ExactlyAHundred(r, l, c);
    hide SeatGain, NothingRounds, Split, EdgesOf, Shares;
  }

  /** Two stocks, one a hair ahead on price and the other on volume: whoever sits on the right wins. */
  lemma SeatCanDecide() returns (l: SideInputs, r: SideInputs, c: Calibration)
    ensures Scorable(l) && Scorable(r) && Calibrated(c)
    ensures var s, t := ScoreBattle(l, r, c).value, ScoreBattle(r, l, c).value;
            s.RightTotal() > s.LeftTotal() && t.RightTotal() > t.LeftTotal()
  {
    var none := CardSupport(0, 0, 0, 0);
    l := SideInputs(1, 1_000_000, 1_000_000, 0, 0, none);
    r := SideInputs(0, 1_000_000, 1_000_001, 0, 0, none);
    c := Calibration(2_000_000, 2_000_000, 2_000_000, 2_000_000);
    hide PonsStrength, CardStrength, LeftPart;
    assert AdjustedReturn(l) == 1 && AdjustedReturn(r) == 0;
    SmallEdges();
    SameStrengths(l, r);
    hide AdjustedReturn, Edge;
    SmallParts();
    assert EdgesOf(l, r, c) == Edges(0, -1, 0, 0);
    assert EdgesOf(r, l, c) == Edges(-1, 0, 0, 0);
  }

  lemma SameStrengths(a: SideInputs, b: SideInputs)
    requires Scorable(a) && Scorable(b)
    requires a.(windowReturn := b.windowReturn, relativeVolume := b.relativeVolume) == b
    ensures PonsStrength(a) == PonsStrength(b) && CardStrength(a) == CardStrength(b)
    ensures forall d | d > 0 :: Edge(PonsStrength(a), PonsStrength(b), d) == 0 == Edge(CardStrength(a), CardStrength(b), d)
  {
    hide FloorSqrt, EffectiveSupport;
  }

  lemma SmallEdges()
    ensures Edge(1, 0, 2_000_000) == 0 && Edge(0, 1, 2_000_000) == -1
    ensures Edge(1_000_001, 1_000_000, 2_000_000) == 0 && Edge(1_000_000, 1_000_001, 2_000_000) == -1
  {
  }

  lemma SmallParts()
    ensures LeftPart(45, 0) == 22_500_000 && LeftPart(45, -1) == 22_499_977
    ensures LeftPart(25, 0) == 12_500_000 && LeftPart(25, -1) == 12_499_987
    ensures LeftPart(20, 0) == 10_000_000 && LeftPart(10, 0) == 5_000_000
  {
  }

  // ---------------------------------------------------------------------
  // What each part measures
  // ---------------------------------------------------------------------

  /** A return is measured in volatilities, at the ratio scale and rounded down. */
  lemma AdjustedReturnIs(side: SideInputs)
    requires Scorable(side)
    ensures var a := AdjustedReturn(side);
            a * side.volatility <= side.windowReturn * RATIO_SCALE < (a + 1) * side.volatility
  {
    DivScaledIsFloor(side.windowReturn, side.volatility);
    FloorIs(side.windowReturn * RATIO_SCALE, side.volatility, AdjustedReturn(side));
    hide DivScaled;
  }

  /** Of two stocks with the same return the calmer one counts as having moved further, up or down. */
  lemma CalmerCountsFurther(calm: SideInputs, wild: SideInputs)
    requires Scorable(calm) && Scorable(wild)
    requires calm.windowReturn == wild.windowReturn && calm.volatility <= wild.volatility
    ensures calm.windowReturn >= 0 ==> AdjustedReturn(calm) >= AdjustedReturn(wild) >= 0
    ensures calm.windowReturn < 0 ==> AdjustedReturn(calm) <= AdjustedReturn(wild) < 0
  {
    AdjustedReturnIs(calm);
    AdjustedReturnIs(wild);
    hide AdjustedReturn;
    var a, b := AdjustedReturn(calm), AdjustedReturn(wild);
    if calm.windowReturn >= 0 {
      NotNegative(b + 1, wild.volatility);
      MulMonotone(calm.volatility, wild.volatility, b);
      FloorOrder(b, a, calm.volatility);
    } else {
      NotNegative(-b, wild.volatility);
      MulMonotone(calm.volatility, wild.volatility, -b - 1);
      assert (b + 1) * calm.volatility >= (b + 1) * wild.volatility;
      FloorOrder(a, b, calm.volatility);
    }
  }

  lemma NotNegative(x: int, v: int)
    requires v > 0 && x * v > 0
    ensures x > 0
  {
    if x <= 0 {
      MulMonotone(x, 0, v);
    }
  }

  lemma FloorOrder(low: int, high: int, v: int)
    requires v > 0 && low * v < (high + 1) * v
    ensures low <= high
  {
    if low > high {
      MulMonotone(high + 1, low, v);
    }
  }

  /**
   A component gives each side half its weight, moved by the lead in the proportion of
   the lead to the divisor, to within the rounding of the edge and of the points; and all
   of it from a lead of the divisor on.
  */
  lemma PartFollowsLead(w: nat, left: int, right: int, divisor: int)
    requires divisor > 0 && w > 0
    ensures var part, lead := LeftPart(w, Edge(left, right, divisor)), left - right;
            && (lead >= divisor ==> part == w * POINT_SCALE)
            && (lead <= -divisor ==> part == 0)
            && (-divisor <= lead <= divisor ==>
                  2 * (part * divisor) <= w * POINT_SCALE * (divisor + lead) < 2 * (part * divisor) + (w + 2) * divisor)
  {
    EdgeIs(left, right, divisor);
    var lead, e := left - right, Edge(left, right, divisor);
    var q := lead * RATIO_SCALE / divisor;
    FloorIs(lead * RATIO_SCALE, divisor, q);
    EdgeOfLead(lead, q, divisor);
    hide Edge, LeftPart, ClampUnit;
    LeftPartIs(w, e);
    if -divisor <= lead <= divisor {
      RoundedTwice(w, lead, divisor, e, LeftPart(w, e));
    }
  }

  lemma EdgeOfLead(lead: int, q: int, divisor: int)
    requires divisor > 0 && q * divisor <= lead * RATIO_SCALE < q * divisor + divisor
    ensures lead >= divisor ==> ClampUnit(q) == RATIO_SCALE
    ensures lead <= -divisor ==> ClampUnit(q) == -RATIO_SCALE
    ensures -divisor <= lead <= divisor ==> ClampUnit(q) == q
  {
    if lead >= divisor {
      FloorOrder(RATIO_SCALE, q, divisor);
    }
    if lead <= divisor {
      FloorOrder(q, RATIO_SCALE, divisor);
    }
    if lead >= -divisor {
      FloorOrder(-RATIO_SCALE, q, divisor);
    }
    if lead <= -divisor {
      FloorOrder(q, -RATIO_SCALE, divisor);
    }
  }

  lemma RoundedTwice(w: nat, lead: int, divisor: int, e: int, part: int)
    requires divisor > 0 && e * divisor <= lead * RATIO_SCALE < e * divisor + divisor
    requires part == w * (RATIO_SCALE + e) / 2
    ensures 2 * (part * divisor) <= w * POINT_SCALE * (divisor + lead) < 2 * (part * divisor) + (w + 2) * divisor
  {
    var whole := w * (RATIO_SCALE + e);
    var exact := w * ((divisor + lead) * RATIO_SCALE);
    assert (RATIO_SCALE + e) * divisor == divisor * RATIO_SCALE + e * divisor;
    assert whole * divisor == w * ((RATIO_SCALE + e) * divisor);
    MulMonotone((RATIO_SCALE + e) * divisor, (divisor + lead) * RATIO_SCALE, w);
    MulMonotone((divisor + lead) * RATIO_SCALE, (RATIO_SCALE + e) * divisor + divisor, w);
    assert w * ((RATIO_SCALE + e) * divisor + divisor) == whole * divisor + w * divisor;
    assert 2 * part <= whole < 2 * part + 2;
    MulMonotone(2 * part, whole, divisor);
    MulMonotone(whole, 2 * part + 1, divisor);
    assert exact == w * POINT_SCALE * (divisor + lead);
    assert (2 * part + 1) * divisor == 2 * (part * divisor) + divisor;
    assert (w + 2) * divisor == w * divisor + 2 * divisor;
  }

  /** Pons strength is seven parts the root of the activity to three the root of the wallets. */
  lemma StrengthOfSquares(side: SideInputs, activity: nat, wallets: nat)
    requires Scorable(side)
    requires side.qualifiedPonsActivity == activity * activity && side.uniqueActiveWallets == wallets * wallets
    ensures 10 * PonsStrength(side) == (7 * activity + 3 * wallets) * RATIO_SCALE
  {
    ScaledSquare(activity);
    ScaledSquare(wallets);
    hide FloorSqrt;
    assert PonsStrength(side) == (activity * RATIO_SCALE * 70 + wallets * RATIO_SCALE * 30) / 100;
    hide PonsStrength;
    SevenAndThree(activity, wallets);
  }

  lemma SevenAndThree(a: nat, b: nat)
    ensures 10 * ((a * RATIO_SCALE * 70 + b * RATIO_SCALE * 30) / 100) == (7 * a + 3 * b) * RATIO_SCALE
  {
  }

  lemma ScaledSquare(root: nat)
    ensures FloorSqrt(root * root * RATIO_SCALE * RATIO_SCALE) == root * RATIO_SCALE
  {
    var n, r := root * root * RATIO_SCALE * RATIO_SCALE, root * RATIO_SCALE;
    assert r * r == n;
    assert (r + 1) * (r + 1) == r * r + 2 * r + 1;
    FloorSqrtIsOnly(n, r);
  }

  /**
   Support aimed at the channels counts in the proportion 45, 25 and 20 of ninety, and
   what it comes to counts by its root.
  */
  lemma StrengthOfSupport(side: SideInputs, market: nat, volume: nat, pons: nat, root: nat)
    requires Scorable(side) && side.cardSupport == CardSupport(2 * market, 18 * volume, 9 * pons, 0)
    requires market + 5 * volume + 2 * pons == root * root
    ensures CardStrength(side) == root * RATIO_SCALE
  {
    ScaledSquare(root);
    AimedSupport(market, volume, pons);
    hide FloorSqrt, EffectiveSupport;
    NinetiethOf(root * root);
  }

  lemma AimedSupport(market: nat, volume: nat, pons: nat)
    ensures EffectiveSupport(CardSupport(2 * market, 18 * volume, 9 * pons, 0)) == 90 * (market + 5 * volume + 2 * pons)
  {
  }

  lemma NinetiethOf(n: nat)
    ensures 90 * n / 90 == n
  {
  }
}

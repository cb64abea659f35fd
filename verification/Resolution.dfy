/**
 Who won, and by which rule: packages/battle-math/src/resolution.ts.
 */
module Resolution {
  import opened Scoring
  import opened Wrappers

  datatype Side = LeftSide | RightSide

  datatype Step = PriceMomentum | RelativeVolume | PonsPower | ChainDerived

  /** The tiebreak order, fixed before any battle. Card support is not in it. */
  const TIEBREAK_ORDER: seq<Step> := [PriceMomentum, RelativeVolume, PonsPower, ChainDerived]

  datatype Outcome = Outcome(side: Side, tiebreak: Option<Step>, margin: nat)

  /** The low bit of the tiebreak digest over a block hash (lower case, no prefix) and a battle id. */
  type TieBit = (string, string) -> bool

  function Component(b: Breakdown, step: Step): int
    requires step != ChainDerived
  {
    match step
    case PriceMomentum => b.priceMomentum
    case RelativeVolume => b.relativeVolume
    case PonsPower => b.ponsPower
  }

  predicate IsHex(c: char) {
    '0' <= c <= '9' || 'a' <= c <= 'f' || 'A' <= c <= 'F'
  }

  function Lower(c: char): char {
    if 'A' <= c <= 'F' then (c as int - 'A' as int + 'a' as int) as char else c
  }

  function Normalized(hash: string): string {
    if |hash| >= 2 && hash[0] == '0' && (hash[1] == 'x' || hash[1] == 'X') then hash[2..] else hash
  }

  predicate ValidHash(hash: string) {
    var h := Normalized(hash);
    h != "" && forall i | 0 <= i < |h| :: IsHex(h[i])
  }

  function ChainDerivedSide(hash: string, battleId: string, bit: TieBit): Result<Side, string> {
    if !ValidHash(hash) || battleId == "" then Err("TypeError")
    else
      var h := Normalized(hash);
      Ok(if bit(seq(|h|, i requires 0 <= i < |h| => Lower(h[i])), battleId) then RightSide else LeftSide)
  }

  function Walk(score: BattleScore, steps: seq<Step>, hash: Option<string>, battleId: string,
      bit: TieBit): Result<Outcome, string> {
    if steps == [] then Err("tiebreak order exhausted")
    else if steps[0] == ChainDerived then
      if hash.None? then Err("needs a finalized block hash")
      else match ChainDerivedSide(hash.value, battleId, bit)
        case Err(e) => Err(e)
        case Ok(side) => Ok(Outcome(side, Some(ChainDerived), 0))
    else
      var delta := Component(score.left, steps[0]) - Component(score.right, steps[0]);
      if delta != 0 then Ok(Outcome(if delta > 0 then LeftSide else RightSide, Some(steps[0]), 0))
      else Walk(score, steps[1..], hash, battleId, bit)
  }

  function ResolveBattle(score: BattleScore, hash: Option<string>, battleId: string,
      bit: TieBit): Result<Outcome, string> {
    var delta := score.LeftTotal() - score.RightTotal();
    if delta > 0 then Ok(Outcome(LeftSide, None, delta))
    else if delta < 0 then Ok(Outcome(RightSide, None, -delta))
    else Walk(score, TIEBREAK_ORDER, hash, battleId, bit)
  }

  predicate NeedsChainTiebreak(score: BattleScore) {
    score.LeftTotal() == score.RightTotal()
    && forall step | step in TIEBREAK_ORDER && step != ChainDerived :: Component(score.left, step) == Component(score.right, step)
  }

  // ---------------------------------------------------------------------
  // What decides a battle
  // ---------------------------------------------------------------------

  /** The totals, then the market components in their fixed order. */
  ghost function Standing(b: Breakdown): seq<int> {
    [b.Total(), b.priceMomentum, b.relativeVolume, b.ponsPower]
  }

  /** `a` and `b` first differ at place `k`. */
  ghost predicate FirstDiffer(a: seq<int>, b: seq<int>, k: nat)
    requires |a| == |b|
  {
    k < |a| && a[k] != b[k] && forall i | 0 <= i < k :: a[i] == b[i]
  }

  lemma OrderIs()
    ensures TIEBREAK_ORDER[1..] == [RelativeVolume, PonsPower, ChainDerived]
    ensures TIEBREAK_ORDER[1..][1..] == [PonsPower, ChainDerived]
    ensures TIEBREAK_ORDER[1..][1..][1..] == [ChainDerived]
  {
  }

  lemma NeedsChainIs(score: BattleScore)
    ensures NeedsChainTiebreak(score) <==> Standing(score.left) == Standing(score.right)
  {
    var a, b := Standing(score.left), Standing(score.right);
    StandingsAgreeIff(score.left, score.right);
    assert TIEBREAK_ORDER[0] == PriceMomentum && TIEBREAK_ORDER[1] == RelativeVolume && TIEBREAK_ORDER[2] == PonsPower;
    if NeedsChainTiebreak(score) {
      assert Component(score.left, PriceMomentum) == Component(score.right, PriceMomentum);
      assert Component(score.left, RelativeVolume) == Component(score.right, RelativeVolume);
      assert Component(score.left, PonsPower) == Component(score.right, PonsPower);
    }
  }

  lemma StandingsAgreeIff(l: Breakdown, r: Breakdown)
    ensures Standing(l) == Standing(r) <==>
              && l.Total() == r.Total() && l.priceMomentum == r.priceMomentum
              && l.relativeVolume == r.relativeVolume && l.ponsPower == r.ponsPower
  {
    var a, b := Standing(l), Standing(r);
    assert a == b <==> a[0] == b[0] && a[1] == b[1] && a[2] == b[2] && a[3] == b[3];
  }

  /** The step a difference at place `k` of the standings is reported as. */
  ghost function StepAt(k: nat): Option<Step>
    requires k < 4
  {
    if k == 0 then None else Some(TIEBREAK_ORDER[k - 1])
  }

  lemma DecidedAt(score: BattleScore, hash: Option<string>, battleId: string, bit: TieBit, k: nat)
    requires FirstDiffer(Standing(score.left), Standing(score.right), k)
    ensures var a, b := Standing(score.left), Standing(score.right);
            ResolveBattle(score, hash, battleId, bit)
            == Ok(Outcome(if a[k] > b[k] then LeftSide else RightSide, StepAt(k),
                          if k > 0 then 0 else if a[0] > b[0] then a[0] - b[0] else b[0] - a[0]))
  {
    OrderIs();
    var a, b := Standing(score.left), Standing(score.right);
    var s1 := TIEBREAK_ORDER[1..];
    if k > 0 {
      assert a[0] == b[0];
      if k > 1 {
        assert a[1] == b[1];
        assert Walk(score, TIEBREAK_ORDER, hash, battleId, bit) == Walk(score, s1, hash, battleId, bit);
      }
      if k > 2 {
        assert a[2] == b[2];
        assert Walk(score, s1, hash, battleId, bit) == Walk(score, s1[1..], hash, battleId, bit);
      }
    }
  }

  lemma DeadHeat(score: BattleScore, hash: Option<string>, battleId: string, bit: TieBit)
    requires NeedsChainTiebreak(score)
    ensures ResolveBattle(score, hash, battleId, bit) == Walk(score, [ChainDerived], hash, battleId, bit)
  {
    OrderIs();
    NeedsChainIs(score);
    StandingsAgreeIff(score.left, score.right);
    var s1 := TIEBREAK_ORDER[1..];
    var s2 := s1[1..];
    assert Walk(score, TIEBREAK_ORDER, hash, battleId, bit) == Walk(score, s1, hash, battleId, bit);
    assert Walk(score, s1, hash, battleId, bit) == Walk(score, s2, hash, battleId, bit);
    assert Walk(score, s2, hash, battleId, bit) == Walk(score, s2[1..], hash, battleId, bit);
  }

  lemma FirstDifference(a: seq<int>, b: seq<int>) returns (k: nat)
    requires |a| == |b| == 4 && a != b
    ensures FirstDiffer(a, b, k)
  {
    k := if a[0] != b[0] then 0 else if a[1] != b[1] then 1 else if a[2] != b[2] then 2 else 3;
  }

  lemma FirstDifferenceIsOnly(a: seq<int>, b: seq<int>, j: nat, k: nat)
    requires |a| == |b| && FirstDiffer(a, b, j) && FirstDiffer(a, b, k)
    ensures j == k
  {
  }

  /**
   Without a block hash a battle is refused exactly when it needs the chain; and
   whenever it does not, no hash, battle id or digest has any say.
  */
  lemma HashMattersIff(score: BattleScore, hash: Option<string>, battleId: string, bit: TieBit)
    ensures ResolveBattle(score, None, battleId, bit).Err? <==> NeedsChainTiebreak(score)
    ensures !NeedsChainTiebreak(score) ==> ResolveBattle(score, hash, battleId, bit) == ResolveBattle(score, None, battleId, bit)
    ensures NeedsChainTiebreak(score) && hash.Some? ==>
              (ResolveBattle(score, hash, battleId, bit).Ok? <==> ValidHash(hash.value) && battleId != "")
  {
    NeedsChainIs(score);
    if NeedsChainTiebreak(score) {
      DeadHeat(score, None, battleId, bit);
      DeadHeat(score, hash, battleId, bit);
    } else {
      var k := FirstDifference(Standing(score.left), Standing(score.right));
      DecidedAt(score, None, battleId, bit, k);
      DecidedAt(score, hash, battleId, bit, k);
    }
  }

  /**
   A scored battle resolves to the side ahead at the first place the standings
   differ; the chain is asked only when there is none. A tiebreak is named
   exactly when the totals tie, and the margin is then zero.
  */
  lemma ResolvesByStanding(score: BattleScore, hash: Option<string>, battleId: string, bit: TieBit)
    requires ResolveBattle(score, hash, battleId, bit).Ok?
    ensures var r := ResolveBattle(score, hash, battleId, bit).value;
            var a, b := Standing(score.left), Standing(score.right);
            && (r.tiebreak == Some(ChainDerived) <==> a == b)
            && (forall k: nat | FirstDiffer(a, b, k) :: r.side == (if a[k] > b[k] then LeftSide else RightSide) && r.tiebreak == StepAt(k))
            && (r.tiebreak.None? <==> score.LeftTotal() != score.RightTotal())
            && (r.tiebreak.Some? ==> r.margin == 0)
            && (r.tiebreak.None? && r.side == LeftSide ==> r.margin == score.LeftTotal() - score.RightTotal() > 0)
            && (r.tiebreak.None? && r.side == RightSide ==> r.margin == score.RightTotal() - score.LeftTotal() > 0)
  {
    var a, b := Standing(score.left), Standing(score.right);
    NeedsChainIs(score);
    if a == b {
      DeadHeat(score, hash, battleId, bit);
    } else {
      var k := FirstDifference(a, b);
      DecidedAt(score, hash, battleId, bit, k);
      forall j: nat | FirstDiffer(a, b, j)
        ensures j == k
      {
        FirstDifferenceIsOnly(a, b, j, k);
      }
    }
  }

  /** A dead heat is an even split of all four components, cards included. */
  lemma DeadHeatIsEven(left: SideInputs, right: SideInputs, c: Calibration)
    requires ScoreBattle(left, right, c).Ok?
    ensures var s := ScoreBattle(left, right, c).value;
            NeedsChainTiebreak(s) <==>
              s.left == s.right == Breakdown(22_500_000, 12_500_000, 10_000_000, 5_000_000)
  {
    ExactlyAHundred(left, right, c);
    var s := ScoreBattle(left, right, c).value;
    hide ScoreBattle;
    NeedsChainIs(s);
    StandingsAgreeIff(s.left, s.right);
  }

  // ---------------------------------------------------------------------
  // Victory labels
  // ---------------------------------------------------------------------

  datatype Confidence = HeavyUnderdog | Underdog | Even | Favored | StrongFavorite | Dominant

  datatype VictoryLabel = NarrowVictory | Victory | DecisiveVictory | UpsetVictory | MajorUpset | ComebackVictory

  datatype VictoryThresholds = VictoryThresholds(narrow: int, decisive: int)

  predicate Ordered(t: VictoryThresholds) {
    0 <= t.narrow <= t.decisive
  }

  function ClassifyVictory(margin: nat, winner: Confidence, comeback: bool,
      t: VictoryThresholds): Result<VictoryLabel, string> {
    if !Ordered(t) then Err("RangeError")
    else if winner == HeavyUnderdog then Ok(MajorUpset)
    else if winner == Underdog then Ok(UpsetVictory)
    else if comeback then Ok(ComebackVictory)
    else if margin <= t.narrow then Ok(NarrowVictory)
    else if margin >= t.decisive then Ok(DecisiveVictory)
    else Ok(Victory)
  }

  /**
   What each label says: an upset of the winner's confidence, before a comeback, before the
   margin; a margin at both thresholds is narrow.
  */
  ghost predicate Labels(v: VictoryLabel, margin: int, winner: Confidence, comeback: bool, t: VictoryThresholds) {
    var upset := winner == HeavyUnderdog || winner == Underdog;
    && (v == MajorUpset <==> winner == HeavyUnderdog) && (v == UpsetVictory <==> winner == Underdog)
    && (v == ComebackVictory <==> !upset && comeback)
    && (v == NarrowVictory <==> !upset && !comeback && margin <= t.narrow)
    && (v == Victory <==> !upset && !comeback && t.narrow < margin < t.decisive)
    && (v == DecisiveVictory <==> !upset && !comeback && t.narrow < margin && t.decisive <= margin)
  }

  lemma VictoryIff(margin: nat, winner: Confidence, comeback: bool, t: VictoryThresholds)
    ensures ClassifyVictory(margin, winner, comeback, t).Ok? <==> Ordered(t)
    ensures Ordered(t) ==> Labels(ClassifyVictory(margin, winner, comeback, t).value, margin, winner, comeback, t)
  {
  }

  /** In lower case, with no prefix. */
  ghost predicate Plain(hash: string) {
    hash != "" && forall c | c in hash :: '0' <= c <= '9' || 'a' <= c <= 'f'
  }

  /**
   In a dead heat the digest's bit over the plain hash and the battle's id picks the
   side, the right one when it is set, with or without the hash's prefix.
  */
  lemma DeadHeatIsHashed(score: BattleScore, hash: string, battleId: string, bit: TieBit)
    requires NeedsChainTiebreak(score) && Plain(hash) && battleId != ""
    ensures var side := if bit(hash, battleId) then RightSide else LeftSide;
            && ResolveBattle(score, Some(hash), battleId, bit) == Ok(Outcome(side, Some(ChainDerived), 0))
            && ResolveBattle(score, Some("0x" + hash), battleId, bit) == Ok(Outcome(side, Some(ChainDerived), 0))
  {
    DeadHeat(score, Some(hash), battleId, bit);
    DeadHeat(score, Some("0x" + hash), battleId, bit);
    hide ResolveBattle, NeedsChainTiebreak;
    PlainIsItself(hash);
    assert ("0x" + hash)[2..] == hash;
  }

  /** The same digits, in whichever case. */
  ghost predicate Spells(other: string, hash: string) {
    |other| == |hash| && forall i | 0 <= i < |hash| ::
      other[i] == hash[i] || ('a' <= hash[i] <= 'f' && other[i] as int == hash[i] as int - 'a' as int + 'A' as int)
  }

  /** Nor does the case of its digits show. */
  lemma CaseIsIrrelevant(score: BattleScore, hash: string, other: string, battleId: string, bit: TieBit)
    requires NeedsChainTiebreak(score) && Plain(hash) && Spells(other, hash) && battleId != ""
    ensures ResolveBattle(score, Some(other), battleId, bit) == ResolveBattle(score, Some(hash), battleId, bit)
  {
    DeadHeat(score, Some(hash), battleId, bit);
    DeadHeat(score, Some(other), battleId, bit);
    PlainIsItself(hash);
    SpelledIsPlain(other, hash);
    hide ResolveBattle, NeedsChainTiebreak;
  }

  lemma SpelledIsPlain(other: string, hash: string)
    requires Plain(hash) && Spells(other, hash)
    ensures Normalized(other) == other && ValidHash(other)
    ensures seq(|other|, i requires 0 <= i < |other| => Lower(other[i])) == hash
  {
    assert forall i | 0 <= i < |hash| :: hash[i] in hash;
  }

  lemma PlainIsItself(hash: string)
    requires Plain(hash)
    ensures Normalized(hash) == hash && ValidHash(hash) && ValidHash("0x" + hash)
    ensures seq(|hash|, i requires 0 <= i < |hash| => Lower(hash[i])) == hash
  {
    assert ("0x" + hash)[2..] == hash;
    assert forall i | 0 <= i < |hash| :: hash[i] in hash;
  }
}

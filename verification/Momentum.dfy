/**
 War Momentum, packages/battle-math/src/momentum.ts: what the battlefield shows,
 derived from the lead and from the memory of earlier leads.
 */
module Momentum {
  import opened Scoring
  import opened Wrappers

  datatype Thresholds = Thresholds(push: int, surge: int, dominance: int, comeback: int)

  predicate Usable(t: Thresholds) {
    0 < t.push < t.surge < t.dominance && 0 < t.comeback <= RATIO_SCALE
  }

  datatype Memory = Memory(peakLeft: int, peakRight: int, previous: int, ticks: nat)

  const INITIAL: Memory := Memory(0, 0, 0, 0)

  datatype MomentumState = Contested | Pushing | Surging | Dominating | Comeback

  datatype Sample = Sample(state: MomentumState, advantage: int, velocity: int, memory: Memory)

  function Magnitude(x: int): nat {
    if x < 0 then -x else x
  }

  function AdvantageFromScores(leftTotal: int, rightTotal: int): int {
    var total := leftTotal + rightTotal;
    if total <= 0 then 0 else ClampUnit(TruncDiv((leftTotal - rightTotal) * RATIO_SCALE, total))
  }

  function Advantage(leftTotal: int): int {
    AdvantageFromScores(leftTotal, FULL_SCORE - leftTotal)
  }

  function Position(lead: nat, t: Thresholds): MomentumState {
    if lead >= t.dominance then Dominating
    else if lead >= t.surge then Surging
    else if lead >= t.push then Pushing
    else Contested
  }

  function NextMomentum(m: Memory, advantage: int, t: Thresholds): Result<Sample, string> {
    if !Usable(t) then Err("RangeError")
    else
      var clamped := ClampUnit(advantage);
      var velocity := if m.ticks == 0 then 0 else clamped - m.previous;
      var lead := Magnitude(clamped);
      var trailedBadly := if clamped > 0 then m.peakRight >= t.comeback else m.peakLeft >= t.comeback;
      Ok(Sample(
           if lead > 0 && trailedBadly then Comeback else Position(lead, t),
           clamped,
           velocity,
           Memory(if clamped > m.peakLeft then clamped else m.peakLeft,
                  if -clamped > m.peakRight then -clamped else m.peakRight,
                  clamped,
                  m.ticks + 1)))
  }

  function WasComeback(m: Memory, advantage: int, threshold: int): bool {
    advantage != 0 && if advantage > 0 then m.peakRight >= threshold else m.peakLeft >= threshold
  }

  // ---------------------------------------------------------------------
  // The advantage
  // ---------------------------------------------------------------------

  /** The lead as a share of the hundred points, the same either way round; even within fifty millionths of a point. */
  lemma AdvantageIsFair(leftTotal: int)
    requires 0 <= leftTotal <= FULL_SCORE
    ensures Advantage(FULL_SCORE - leftTotal) == -Advantage(leftTotal)
    ensures -RATIO_SCALE <= Advantage(leftTotal) <= RATIO_SCALE
    ensures Advantage(leftTotal) > 0 <==> leftTotal >= FULL_SCORE / 2 + 50
    ensures Advantage(leftTotal) < 0 <==> leftTotal <= FULL_SCORE / 2 - 50
    ensures Advantage(leftTotal) == RATIO_SCALE <==> leftTotal == FULL_SCORE
    ensures leftTotal >= FULL_SCORE / 2 ==> 100 * Advantage(leftTotal) <= 2 * leftTotal - FULL_SCORE < 100 * (Advantage(leftTotal) + 1)
  {
  }

  // ---------------------------------------------------------------------
  // Runs
  // ---------------------------------------------------------------------

  /** The memory after a run of ticks with the given advantages. */
  ghost function Remember(advantages: seq<int>): Memory {
    if advantages == [] then INITIAL
    else
      var m := Remember(advantages[..|advantages| - 1]);
      var x := ClampUnit(advantages[|advantages| - 1]);
      Memory(if x > m.peakLeft then x else m.peakLeft, if -x > m.peakRight then -x else m.peakRight, x, m.ticks + 1)
  }

  lemma NextRemembers(advantages: seq<int>, x: int, t: Thresholds)
    requires Usable(t)
    ensures NextMomentum(Remember(advantages), x, t).value.memory == Remember(advantages + [x])
  {
    assert (advantages + [x])[..|advantages|] == advantages;
  }

  /** A side led by at least `level`, a positive amount, at some tick. */
  ghost predicate LedBy(advantages: seq<int>, sign: int, level: int) {
    exists i :: 0 <= i < |advantages| && sign * ClampUnit(advantages[i]) >= level
  }

  /** The peaks are the running maxima: they reach a level exactly when some tick did. */
  lemma {:induction false} PeaksAreMaxima(advantages: seq<int>, level: int)
    requires level > 0
    ensures var m := Remember(advantages);
            && m.ticks == |advantages|
            && m.peakLeft >= 0 && m.peakRight >= 0
            && (m.peakLeft >= level <==> LedBy(advantages, 1, level))
            && (m.peakRight >= level <==> LedBy(advantages, -1, level))
            && (advantages != [] ==> m.previous == ClampUnit(advantages[|advantages| - 1]))
  {
    if advantages != [] {
      var n := |advantages| - 1;
      var before := advantages[..n];
      PeaksAreMaxima(before, level);
      LedLater(advantages, 1, level);
      LedLater(advantages, -1, level);
    }
  }

  lemma LedLater(advantages: seq<int>, sign: int, level: int)
    requires advantages != []
    ensures var n := |advantages| - 1;
            LedBy(advantages, sign, level) <==> LedBy(advantages[..n], sign, level) || sign * ClampUnit(advantages[n]) >= level
  {
    var n := |advantages| - 1;
    if LedBy(advantages[..n], sign, level) {
      var i :| 0 <= i < n && sign * ClampUnit(advantages[..n][i]) >= level;
      assert sign * ClampUnit(advantages[i]) >= level;
    }
    if LedBy(advantages, sign, level) && sign * ClampUnit(advantages[n]) < level {
      var i :| 0 <= i <= n && sign * ClampUnit(advantages[i]) >= level;
      assert sign * ClampUnit(advantages[..n][i]) >= level;
    }
  }

  /**
   The battlefield shows a comeback exactly when the side now ahead was behind by
   the threshold at an earlier tick, and the memory kept afterwards says the same.
  */
  lemma ComebackIff(earlier: seq<int>, x: int, t: Thresholds)
    requires Usable(t)
    ensures var shown := NextMomentum(Remember(earlier), x, t).value.state;
            var a := ClampUnit(x);
            && (shown == Comeback <==> a != 0 && LedBy(earlier, if a > 0 then -1 else 1, t.comeback))
            && (shown == Comeback <==> WasComeback(Remember(earlier + [x]), a, t.comeback))
  {
    PeaksAreMaxima(earlier, t.comeback);
    NextRemembers(earlier, x, t);
  }

  /** Short of a comeback, what is shown is the lead measured against the thresholds, whichever side leads. */
  lemma ShownByLead(m: Memory, x: int, t: Thresholds)
    requires Usable(t)
    ensures var s := NextMomentum(m, x, t).value;
            var lead := if s.advantage < 0 then -s.advantage else s.advantage;
            && s.advantage == s.memory.previous && (-RATIO_SCALE <= x <= RATIO_SCALE ==> s.advantage == x)
            && (m.ticks > 0 ==> s.velocity == s.advantage - m.previous) && (m.ticks == 0 ==> s.velocity == 0)
            && (s.state != Comeback ==>
                  && (s.state == Dominating <==> lead >= t.dominance)
                  && (s.state == Surging <==> t.surge <= lead < t.dominance)
                  && (s.state == Pushing <==> t.push <= lead < t.surge)
                  && (s.state == Contested <==> lead < t.push))
  {
  }
}

/**
 The end of a round, packages/battle-engine/src/round.ts: every battle settled at
 once, and the War Points its picks earned.
 */
module RoundFinalization {
  import opened BattleEngine
  import opened Counting
  import opened Resolution
  import opened Round
  import opened Scoring
  import opened Wrappers
  import M = Momentum

  datatype Reason = Win | UnderdogWin | HeavyUnderdogWin | CardAssist

  datatype Award = Award(wallet: Wallet, battleId: BattleId, reason: Reason, points: nat)

  datatype Tally = Tally(battles: seq<Engine>, results: seq<BattleResult>, voided: seq<BattleId>)

  datatype RoundOutcome = RoundOutcome(state: RoundState, results: seq<BattleResult>, voided: seq<BattleId>, awards: seq<Award>)

  // ---------------------------------------------------------------------
  // Settling the battles
  // ---------------------------------------------------------------------

  function SettleOne(t: Tally, b: Engine, at: int, hash: Option<string>, config: Config, complete: bool,
      h: Hashing): Result<Tally, string> {
    if b.state == Void then Ok(Tally(t.battles + [b], t.results, t.voided + [b.setup.battleId]))
    else
      match FinalizeBattle(b, at, hash, config, complete, h)
      case Err(e) => Err(e)
      case Ok(Waiting(s)) => Ok(Tally(t.battles + [s], t.results, t.voided))
      case Ok(Settled(s, result)) => Ok(Tally(t.battles + [s], t.results + [result], t.voided))
      case Ok(GaveUp(s)) => Ok(Tally(t.battles + [s], t.results, t.voided + [b.setup.battleId]))
  }

  function SettleAll(battles: seq<Engine>, at: int, hash: Option<string>, config: Config, complete: bool,
      h: Hashing): Result<Tally, string>
    decreases |battles|
  {
    if battles == [] then Ok(Tally([], [], []))
    else
      var n := |battles| - 1;
      match SettleAll(battles[..n], at, hash, config, complete, h)
      case Err(e) => Err(e)
      case Ok(t) => SettleOne(t, battles[n], at, hash, config, complete, h)
  }

  // ---------------------------------------------------------------------
  // War Points
  // ---------------------------------------------------------------------

  function BaseReason(winner: Confidence): Reason {
    if winner == HeavyUnderdog then HeavyUnderdogWin else if winner == Underdog then UnderdogWin else Win
  }

  function PointsFor(reason: Reason): nat {
    match reason
    case Win => 10
    case UnderdogWin => 12
    case HeavyUnderdogWin => 14
    case CardAssist => 2
  }

  function WinningPickPoints(winner: Confidence, cardDeployed: bool): nat {
    PointsFor(BaseReason(winner)) + if cardDeployed then PointsFor(CardAssist) else 0
  }

  /** The last result recorded for a battle. */
  function ResultOf(results: seq<BattleResult>, id: BattleId): Option<BattleResult> {
    if results == [] then None
    else
      var n := |results| - 1;
      if results[n].battleId == id then Some(results[n]) else ResultOf(results[..n], id)
  }

  /** The first battle of a round under an id. */
  function BattleOf(battles: seq<Engine>, id: BattleId): Option<Engine> {
    if battles == [] then None
    else if battles[0].setup.battleId == id then Some(battles[0])
    else BattleOf(battles[1..], id)
  }

  function LabelOf(b: Engine, winner: Ticker): Confidence {
    if winner == b.setup.left then b.setup.leftLabel else b.setup.rightLabel
  }

  /** The awards of one pick. */
  function PickAwards(pick: Pick, battles: seq<Engine>, results: seq<BattleResult>): seq<Award> {
    var result := ResultOf(results, pick.battleId);
    var battle := BattleOf(battles, pick.battleId);
    if result.None? || result.value.winner != pick.backed || battle.None? then []
    else
      var reason := BaseReason(LabelOf(battle.value, result.value.winner));
      [Award(pick.wallet, pick.battleId, reason, PointsFor(reason))]
      + if pick.card.Some? then [Award(pick.wallet, pick.battleId, CardAssist, PointsFor(CardAssist))] else []
  }

  function AllAwards(picks: seq<Pick>, battles: seq<Engine>, results: seq<BattleResult>): seq<Award> {
    if picks == [] then []
    else
      var n := |picks| - 1;
      AllAwards(picks[..n], battles, results) + PickAwards(picks[n], battles, results)
  }

  method AwardsFor(r: RoundState, results: seq<BattleResult>) returns (awards: seq<Award>)
    ensures awards == AllAwards(r.picks, r.battles, results)
  {
    var byBattle: map<BattleId, BattleResult> := map[];
    for i := 0 to |results|
      invariant forall id :: ResultOf(results[..i], id) == if id in byBattle then Some(byBattle[id]) else None
    {
      assert results[..i + 1][..i] == results[..i];
      byBattle := byBattle[results[i].battleId := results[i]];
    }
    assert results[..|results|] == results;
    awards := [];
    hide ResultOf;
    for i := 0 to |r.picks|
      invariant awards == AllAwards(r.picks[..i], r.battles, results)
    {
      hide BattleOf, LabelOf;
      var pick := r.picks[i];
      ghost var before := awards;
      AwardsUnfold(r.picks, i, r.battles, results);
      assert ResultOf(results, pick.battleId) == if pick.battleId in byBattle then Some(byBattle[pick.battleId]) else None;
      if pick.battleId in byBattle && byBattle[pick.battleId].winner == pick.backed {
        var result := byBattle[pick.battleId];
        var battle := BattleOf(r.battles, pick.battleId);
        if battle.Some? {
          var winner := LabelOf(battle.value, result.winner);
          var points := WinningPickPoints(winner, false);
          awards := awards + [Award(pick.wallet, pick.battleId, BaseReason(winner), points)];
          if pick.card.Some? {
            awards := awards + [Award(pick.wallet, pick.battleId, CardAssist, WinningPickPoints(winner, true) - points)];
          }
        }
      }
      assert awards == before + PickAwards(pick, r.battles, results);
      hide AllAwards;
    }
    assert r.picks[..|r.picks|] == r.picks;
  }

  lemma AwardsUnfold(picks: seq<Pick>, i: nat, battles: seq<Engine>, results: seq<BattleResult>)
    requires i < |picks|
    ensures AllAwards(picks[..i + 1], battles, results) == AllAwards(picks[..i], battles, results) + PickAwards(picks[i], battles, results)
  {
    hide PickAwards;
    assert picks[..i + 1][..i] == picks[..i];
  }

  // ---------------------------------------------------------------------
  // Finalizing
  // ---------------------------------------------------------------------

  ghost function Finish(r: RoundState, t: Tally): RoundOutcome {
    var settled := |t.results| + |t.voided| == |r.battles|;
    RoundOutcome(r.(phase := if settled then RoundFinalized else Finalizing, battles := t.battles),
            t.results, t.voided,
            if settled then AllAwards(r.picks, r.battles, t.results) else [])
  }

  ghost function Finalization(r: RoundState, at: int, hash: Option<string>, config: Config, complete: bool,
      h: Hashing): Result<RoundOutcome, string> {
    if !CanTransitionRound(r.phase, Finalizing) then Err("throws")
    else match SettleAll(r.battles, at, hash, config, complete, h)
      case Err(e) => Err("throws")
      case Ok(t) => Ok(Finish(r, t))
  }

  method FinalizeRound(r: RoundState, at: int, hash: Option<string>, config: Config, complete: bool, h: Hashing)
    returns (outcome: Result<RoundOutcome, string>)
    ensures outcome == Finalization(r, at, hash, config, complete, h)
  {
    if !CanTransitionRound(r.phase, Finalizing) {
      return Err("throws");
    }
    var t := Tally([], [], []);
    hide SettleOne;
    assert r.battles[..0] == [];
    for i := 0 to |r.battles|
      invariant SettleAll(r.battles[..i], at, hash, config, complete, h) == Ok(t)
    {
      var next := SettleOne(t, r.battles[i], at, hash, config, complete, h);
      SettleNext(r.battles, i, at, hash, config, complete, h);
      if next.Err? {
        SettleStops(r.battles, i + 1, at, hash, config, complete, h);
        return Err("throws");
      }
      t := next.value;
    }
    assert r.battles[..|r.battles|] == r.battles;
    var settled := |t.results| + |t.voided| == |r.battles|;
    var awards: seq<Award> := [];
    if settled {
      awards := AwardsFor(r, t.results);
    }
    return Ok(RoundOutcome(r.(phase := if settled then RoundFinalized else Finalizing, battles := t.battles), t.results, t.voided, awards));
  }

  lemma SettleNext(battles: seq<Engine>, i: nat, at: int, hash: Option<string>, config: Config, complete: bool,
      h: Hashing)
    requires i < |battles| && SettleAll(battles[..i], at, hash, config, complete, h).Ok?
    ensures SettleAll(battles[..i + 1], at, hash, config, complete, h)
            == SettleOne(SettleAll(battles[..i], at, hash, config, complete, h).value, battles[i], at, hash, config, complete, h)
  {
    hide SettleOne;
    assert battles[..i + 1][..i] == battles[..i];
  }

  lemma {:induction false} SettleStops(battles: seq<Engine>, i: nat, at: int, hash: Option<string>, config: Config,
      complete: bool, h: Hashing)
    requires i <= |battles| && SettleAll(battles[..i], at, hash, config, complete, h).Err?
    ensures SettleAll(battles, at, hash, config, complete, h).Err?
    decreases |battles| - i
  {
    hide SettleOne;
    if i == |battles| {
      assert battles[..i] == battles;
    } else {
      assert battles[..i + 1][..i] == battles[..i];
      SettleStops(battles, i + 1, at, hash, config, complete, h);
    }
  }

  // ---------------------------------------------------------------------
  // Every battle accounted for, once
  // ---------------------------------------------------------------------

  /** What becomes of one battle when its round is finalized. */
  ghost function Verdict(b: Engine, at: int, hash: Option<string>, config: Config, complete: bool,
      h: Hashing): Option<FinalizeOutcome> {
    if b.state == Void then Some(GaveUp(b))
    else
      var o := FinalizeBattle(b, at, hash, config, complete, h);
      if o.Ok? then Some(o.value) else None
  }

  ghost function VerdictOf(b: Engine, at: int, hash: Option<string>, config: Config, complete: bool,
      h: Hashing): FinalizeOutcome
    requires Verdict(b, at, hash, config, complete, h).Some?
  {
    Verdict(b, at, hash, config, complete, h).value
  }

  ghost predicate AllDecided(battles: seq<Engine>, at: int, hash: Option<string>, config: Config, complete: bool,
      h: Hashing) {
    forall i | 0 <= i < |battles| :: Verdict(battles[i], at, hash, config, complete, h).Some?
  }

  ghost predicate AnyWaits(battles: seq<Engine>, at: int, hash: Option<string>, config: Config, complete: bool,
      h: Hashing) {
    exists i :: 0 <= i < |battles| && Verdict(battles[i], at, hash, config, complete, h).Some?
                && VerdictOf(battles[i], at, hash, config, complete, h).Waiting?
  }

  ghost function States(battles: seq<Engine>, at: int, hash: Option<string>, config: Config, complete: bool,
      h: Hashing): seq<Engine>
    requires AllDecided(battles, at, hash, config, complete, h)
  {
    seq(|battles|, i requires 0 <= i < |battles| => VerdictOf(battles[i], at, hash, config, complete, h).state)
  }

  lemma OneMore(t: Tally, b: Engine, at: int, hash: Option<string>, config: Config, complete: bool, h: Hashing)
    ensures var next := SettleOne(t, b, at, hash, config, complete, h);
            var v := Verdict(b, at, hash, config, complete, h);
            && (next.Ok? <==> v.Some?)
            && (next.Ok? ==>
                  && next.value.battles == t.battles + [v.value.state]
                  && next.value.results == (if v.value.Settled? then t.results + [v.value.result] else t.results)
                  && next.value.voided == (if v.value.GaveUp? then t.voided + [b.setup.battleId] else t.voided))
  {
    hide FinalizeBattle;
  }

  /** Settling fails exactly when one battle does; otherwise every battle is settled, voided or waiting, in order. */
  lemma {:induction false} SettledBattles(battles: seq<Engine>, at: int, hash: Option<string>, config: Config,
      complete: bool, h: Hashing)
    ensures var t := SettleAll(battles, at, hash, config, complete, h);
            && (t.Ok? <==> AllDecided(battles, at, hash, config, complete, h))
            && (t.Ok? ==>
                  && t.value.battles == States(battles, at, hash, config, complete, h)
                  && |t.value.results| + |t.value.voided| <= |battles|
                  && (|t.value.results| + |t.value.voided| < |battles| <==> AnyWaits(battles, at, hash, config, complete, h)))
    decreases |battles|
  {
    hide SettleOne, Verdict;
    if battles != [] {
      var n := |battles| - 1;
      var front := battles[..n];
      SettledBattles(front, at, hash, config, complete, h);
      DecidedSplits(battles, at, hash, config, complete, h);
      var t := SettleAll(front, at, hash, config, complete, h);
      if t.Ok? {
        OneMore(t.value, battles[n], at, hash, config, complete, h);
      }
    }
  }

  lemma DecidedSplits(battles: seq<Engine>, at: int, hash: Option<string>, config: Config, complete: bool, h: Hashing)
    requires battles != []
    ensures var n := |battles| - 1;
            var last := Verdict(battles[n], at, hash, config, complete, h);
            && (AllDecided(battles, at, hash, config, complete, h) <==>
                AllDecided(battles[..n], at, hash, config, complete, h) && last.Some?)
            && (AnyWaits(battles, at, hash, config, complete, h) <==>
                AnyWaits(battles[..n], at, hash, config, complete, h) || (last.Some? && last.value.Waiting?))
            && (AllDecided(battles, at, hash, config, complete, h) ==>
                  States(battles, at, hash, config, complete, h)
                  == States(battles[..n], at, hash, config, complete, h) + [last.value.state])
  {
    hide Verdict;
    var n := |battles| - 1;
    assert forall i | 0 <= i < n :: battles[..n][i] == battles[i];
    if AnyWaits(battles[..n], at, hash, config, complete, h) {
      var i :| 0 <= i < n && Verdict(battles[..n][i], at, hash, config, complete, h).Some? && VerdictOf(battles[..n][i], at, hash, config, complete, h).Waiting?;
      assert Verdict(battles[i], at, hash, config, complete, h).Some? && VerdictOf(battles[i], at, hash, config, complete, h).Waiting?;
    }
    if AllDecided(battles[..n], at, hash, config, complete, h) && Verdict(battles[n], at, hash, config, complete, h).Some? {
      forall i | 0 <= i < |battles|
        ensures Verdict(battles[i], at, hash, config, complete, h).Some?
      {
        if i < n { assert Verdict(battles[..n][i], at, hash, config, complete, h).Some?; }
      }
    }
  }

  lemma WaitsMeans(b: Engine, at: int, hash: Option<string>, config: Config, complete: bool, h: Hashing)
    ensures var v := Verdict(b, at, hash, config, complete, h);
            v.Some? && v.value.Waiting? <==>
              b.state == Live && !complete && at >= b.setup.clock.battleEndAt && at - b.setup.clock.battleEndAt < config.maxWait
  {
    hide ScoreBattle, ResolveBattle, ClassifyVictory;
  }

  /**
   A round stays in FINALIZING exactly while a live battle may still wait for late
   data; then nothing is paid, and otherwise it is final.
  */
  lemma FinalizingIff(r: RoundState, at: int, hash: Option<string>, config: Config, complete: bool, h: Hashing)
    requires Finalization(r, at, hash, config, complete, h).Ok?
    ensures var o := Finalization(r, at, hash, config, complete, h).value;
            && (o.state.phase == Finalizing || o.state.phase == RoundFinalized)
            && AllDecided(r.battles, at, hash, config, complete, h)
            && o.state.battles == States(r.battles, at, hash, config, complete, h)
            && (o.state.phase == Finalizing <==>
                exists i :: 0 <= i < |r.battles| && r.battles[i].state == Live && !complete
                            && 0 <= at - r.battles[i].setup.clock.battleEndAt < config.maxWait)
            && (o.state.phase == Finalizing ==> o.awards == [])
  {
    hide SettleAll, Verdict, AllAwards;
    SettledBattles(r.battles, at, hash, config, complete, h);
    forall i | 0 <= i < |r.battles|
      ensures Verdict(r.battles[i], at, hash, config, complete, h).Some? && VerdictOf(r.battles[i], at, hash, config, complete, h).Waiting? <==>
                r.battles[i].state == Live && !complete && 0 <= at - r.battles[i].setup.clock.battleEndAt < config.maxWait
    {
      WaitsMeans(r.battles[i], at, hash, config, complete, h);
    }
  }

  /**
   No round is finalized twice. The same guard refuses the retry of a round left
   waiting in FINALIZING, whatever data has arrived by then.
  */
  lemma NeverFinalizedAgain(r: RoundState, at: int, hash: Option<string>, config: Config, complete: bool, h: Hashing,
                            at2: int, hash2: Option<string>, complete2: bool)
    requires Finalization(r, at, hash, config, complete, h).Ok?
    ensures Finalization(Finalization(r, at, hash, config, complete, h).value.state, at2, hash2, config, complete2, h).Err?
  {
    hide SettleAll, AllAwards;
  }

  // ---------------------------------------------------------------------
  // When a block hash is needed
  // ---------------------------------------------------------------------

  /** The battle tells some history: it came from a fresh one by ticks. */
  ghost predicate Sound(b: Engine, config: Config, h: Hashing) {
    exists hist :: Tells(b, hist, config, h)
  }

  ghost predicate RoundSound(r: RoundState, config: Config, h: Hashing) {
    && DistinctIds(r.battles) && OnePickEach(r.picks)
    && forall i | 0 <= i < |r.battles| ::
         var b := r.battles[i];
         Sound(b, config, h) && b.setup.clock == r.clock && (b.state == Live || b.state == Void)
  }

  predicate NeedsHash(b: Engine, config: Config) {
    && b.state == Live && b.last.Some?
    && var score := ScoreBattle(b.last.value.0, b.last.value.1, config.scoring);
       score.Ok? && NeedsChainTiebreak(score.value)
  }

  predicate NeedsFinalizationBlockHash(r: RoundState, config: Config) {
    exists i | 0 <= i < |r.battles| :: NeedsHash(r.battles[i], config)
  }

  lemma BattleNeedsHashIff(b: Engine, at: int, config: Config, complete: bool, h: Hashing)
    requires Sound(b, config, h) && (b.state == Live || b.state == Void) && Ordered(config.victory)
    requires at >= b.setup.clock.battleEndAt
    ensures Verdict(b, at, None, config, complete, h).None? <==> complete && NeedsHash(b, config)
  {
    hide Tells, ScoreBattle, NeedsChainTiebreak, FinalizeBattle;
    var hist :| Tells(b, hist, config, h);
    if b.state == Live {
      FinalizeRefusesIff(b, hist, at, None, config, complete, h);
    }
  }

  /** Without a block hash a round fails to finalize exactly when one was said to be needed. */
  lemma NeedsHashExactly(r: RoundState, at: int, config: Config, complete: bool, h: Hashing)
    requires RoundSound(r, config, h) && r.phase == BattleLive && Ordered(config.victory) && at >= r.clock.battleEndAt
    ensures Finalization(r, at, None, config, complete, h).Err? <==> complete && NeedsFinalizationBlockHash(r, config)
  {
    hide SettleAll, Verdict, Sound, NeedsHash, AllAwards;
    SettledBattles(r.battles, at, None, config, complete, h);
    forall i | 0 <= i < |r.battles|
      ensures Verdict(r.battles[i], at, None, config, complete, h).None? <==> complete && NeedsHash(r.battles[i], config)
    {
      BattleNeedsHashIff(r.battles[i], at, config, complete, h);
    }
  }

  lemma LockedSound(r: RoundState, at: int, picks: seq<Pick>, config: Config, h: Hashing)
    requires Lockable(r, at, picks) && DistinctIds(r.battles)
    requires forall i | 0 <= i < |r.battles| :: r.battles[i] == BeginBattle(r.battles[i].setup) && r.battles[i].setup.clock == r.clock
    ensures RoundSound(Locked(r, picks), config, h)
  {
    hide Tells, SupportSum, BeginBattle;
    var l := Locked(r, picks);
    forall i | 0 <= i < |l.battles|
      ensures Sound(l.battles[i], config, h) && l.battles[i].setup.clock == l.clock && l.battles[i].state == Live
    {
      assert r.battles[i] == BeginBattle(r.battles[i].setup);
      var b := l.battles[i];
      FreshTells(b.setup, b.leftSupport, b.rightSupport, config, h);
      assert Tells(b, NO_HISTORY, config, h);
    }
  }

  lemma StepSound(b: Engine, e: Event, config: Config, h: Hashing)
    requires Sound(b, config, h) && (b.state == Live || b.state == Void) && BattleStep(b, e, config, h).Ok?
    ensures var next := BattleStep(b, e, config, h).value;
            Sound(next, config, h) && next.setup == b.setup && (next.state == Live || next.state == Void)
  {
    hide Tells, ApplyTick;
    var hist :| Tells(b, hist, config, h);
    if b.setup.battleId == e.battleId {
      StepTells(b, hist, e.input, config, h);
      StepState(b, e.input, config, h);
    }
  }

  lemma StepState(b: Engine, input: TickInput, config: Config, h: Hashing)
    requires ApplyTick(b, input, config, h).Ok? && (b.state == Live || b.state == Void)
    ensures var s := ApplyTick(b, input, config, h).value.state.state; s == Live || s == Void
  {
    hide ScoreBattle;
  }

  /** Locked and then ticked in any way, a round stays sound: the conditions of the theorems here are those of every run. */
  lemma {:induction false} TicksKeepSound(r: RoundState, events: seq<Event>, config: Config, h: Hashing)
    requires RoundSound(r, config, h) && TickAll(r, events, config, h).Ok?
    ensures var next := TickAll(r, events, config, h).value;
            RoundSound(next, config, h) && next == r.(battles := next.battles) && |next.battles| == |r.battles|
    decreases |events|
  {
    hide Sound, BattleStep;
    if events != [] {
      var next := TickBattle(r, events[0], config, h).value;
      forall i | 0 <= i < |next.battles|
        ensures Sound(next.battles[i], config, h) && next.battles[i].setup == r.battles[i].setup
        ensures next.battles[i].state == Live || next.battles[i].state == Void
      {
        assert Sound(r.battles[i], config, h);
        StepSound(r.battles[i], events[0], config, h);
      }
      TicksKeepSound(next, events[1..], config, h);
    }
  }

  // ---------------------------------------------------------------------
  // What a pick earns
  // ---------------------------------------------------------------------

  ghost function Earned(awards: seq<Award>, w: Wallet): int {
    SumBy(awards, (a: Award) => if a.wallet == w then a.points else 0)
  }

  ghost predicate NoDouble(awards: seq<Award>) {
    forall i, j | 0 <= i < j < |awards| ::
      (awards[i].wallet, awards[i].battleId, awards[i].reason) != (awards[j].wallet, awards[j].battleId, awards[j].reason)
  }

  ghost function PickPoints(pick: Pick, battles: seq<Engine>, results: seq<BattleResult>): nat {
    var result := ResultOf(results, pick.battleId);
    var battle := BattleOf(battles, pick.battleId);
    if result.None? || result.value.winner != pick.backed || battle.None? then 0
    else WinningPickPoints(LabelOf(battle.value, result.value.winner), pick.card.Some?)
  }

  lemma OnePickPays(pick: Pick, battles: seq<Engine>, results: seq<BattleResult>, w: Wallet)
    ensures var awards := PickAwards(pick, battles, results);
            && Earned(awards, w) == (if w == pick.wallet then PickPoints(pick, battles, results) else 0)
            && NoDouble(awards) && forall a | a in awards :: a.wallet == pick.wallet
  {
    hide ResultOf, BattleOf, LabelOf;
    var awards := PickAwards(pick, battles, results);
    if |awards| == 1 {
      assert awards == [awards[0]];
      EarnedOne(awards[0], w);
    } else if |awards| == 2 {
      assert awards == [awards[0]] + [awards[1]];
      EarnedJoins([awards[0]], [awards[1]], w);
      EarnedOne(awards[0], w);
      EarnedOne(awards[1], w);
    }
  }

  lemma EarnedOne(a: Award, w: Wallet)
    ensures Earned([a], w) == if a.wallet == w then a.points else 0
  {
    SumByOne(a, (a: Award) => if a.wallet == w then a.points else 0);
  }

  lemma EarnedJoins(a: seq<Award>, b: seq<Award>, w: Wallet)
    ensures Earned(a + b, w) == Earned(a, w) + Earned(b, w)
  {
    SumByJoins(a, b, (a: Award) => if a.wallet == w then a.points else 0);
  }

  lemma NoDoubleJoins(a: seq<Award>, b: seq<Award>)
    requires NoDouble(a) && NoDouble(b) && forall x, y | x in a && y in b :: x.wallet != y.wallet
    ensures NoDouble(a + b)
  {
    var c := a + b;
    forall i, j | 0 <= i < j < |c|
      ensures (c[i].wallet, c[i].battleId, c[i].reason) != (c[j].wallet, c[j].battleId, c[j].reason)
    {
      if i < |a| <= j {
        assert c[i] in a && c[j] in b;
      }
    }
  }

  /** The wallets paid are wallets that picked, each paid for its own pick. */
  lemma {:induction false} AwardsPayPicks(picks: seq<Pick>, battles: seq<Engine>, results: seq<BattleResult>)
    requires OnePickEach(picks)
    ensures var awards := AllAwards(picks, battles, results);
            && NoDouble(awards)
            && (forall a | a in awards :: exists k :: 0 <= k < |picks| && a.wallet == picks[k].wallet)
            && (forall k | 0 <= k < |picks| :: Earned(awards, picks[k].wallet) == PickPoints(picks[k], battles, results))
    decreases |picks|
  {
    hide PickAwards, PickPoints;
    if picks != [] {
      var n := |picks| - 1;
      var front := picks[..n];
      FrontPicks(picks);
      AwardsPayPicks(front, battles, results);
      var a, b := AllAwards(front, battles, results), PickAwards(picks[n], battles, results);
      OnePickPays(picks[n], battles, results, picks[n].wallet);
      forall x, y | x in a && y in b
        ensures x.wallet != y.wallet
      {
        var k :| 0 <= k < n && x.wallet == front[k].wallet;
        assert front[k] == picks[k];
        PicksDiffer(picks, k, n);
      }
      hide NoDouble, OnePickEach;
      NoDoubleJoins(a, b);
      forall k | 0 <= k < |picks|
        ensures Earned(a + b, picks[k].wallet) == PickPoints(picks[k], battles, results)
      {
        EarnedJoins(a, b, picks[k].wallet);
        if k == n {
          forall x | x in a
            ensures x.wallet != picks[n].wallet
          {
            var j :| 0 <= j < n && x.wallet == front[j].wallet;
            assert front[j] == picks[j];
            PicksDiffer(picks, j, n);
          }
          NothingEarned(a, picks[n].wallet);
        } else {
          OnePickPays(picks[n], battles, results, picks[k].wallet);
          PicksDiffer(picks, k, n);
          assert front[k] == picks[k];
        }
      }
      forall x | x in a + b
        ensures exists k :: 0 <= k < |picks| && x.wallet == picks[k].wallet
      {
        if x in a {
          var k :| 0 <= k < n && x.wallet == front[k].wallet;
          assert x.wallet == picks[k].wallet;
        } else {
          assert x.wallet == picks[n].wallet;
        }
      }
    }
  }

  lemma FrontPicks(picks: seq<Pick>)
    requires picks != [] && OnePickEach(picks)
    ensures OnePickEach(picks[..|picks| - 1])
  {
  }

  lemma PicksDiffer(picks: seq<Pick>, i: nat, j: nat)
    requires i < j < |picks| && OnePickEach(picks)
    ensures picks[i].wallet != picks[j].wallet
  {
  }

  lemma {:induction false} NothingEarned(awards: seq<Award>, w: Wallet)
    requires forall a | a in awards :: a.wallet != w
    ensures Earned(awards, w) == 0
  {
    if awards != [] {
      NothingEarned(awards[1..], w);
    }
  }

  /** The result a battle gets when its round is finalized, if any. */
  ghost function ResultFor(b: Engine, at: int, hash: Option<string>, config: Config, complete: bool,
      h: Hashing): Option<BattleResult> {
    var v := Verdict(b, at, hash, config, complete, h);
    if v.Some? && v.value.Settled? then Some(v.value.result) else None
  }

  lemma ResultKeepsId(b: Engine, at: int, hash: Option<string>, config: Config, complete: bool, h: Hashing)
    ensures var x := ResultFor(b, at, hash, config, complete, h); x.Some? ==> x.value.battleId == b.setup.battleId
  {
    hide ScoreBattle, ResolveBattle, ClassifyVictory;
  }

  /** What the last battle adds to the results, as a lookup sees it. */
  lemma ResultsGrow(battles: seq<Engine>, id: BattleId, at: int, hash: Option<string>, config: Config,
      complete: bool, h: Hashing)
    requires battles != [] && SettleAll(battles, at, hash, config, complete, h).Ok?
    ensures SettleAll(battles[..|battles| - 1], at, hash, config, complete, h).Ok?
    ensures var last := battles[|battles| - 1];
            var x := ResultFor(last, at, hash, config, complete, h);
            var before := SettleAll(battles[..|battles| - 1], at, hash, config, complete, h).value.results;
            ResultOf(SettleAll(battles, at, hash, config, complete, h).value.results, id)
            == if x.Some? && last.setup.battleId == id then x else ResultOf(before, id)
  {
    hide SettleOne, Verdict, ResultOf;
    var last := battles[|battles| - 1];
    var t := SettleAll(battles[..|battles| - 1], at, hash, config, complete, h).value;
    OneMore(t, last, at, hash, config, complete, h);
    ResultKeepsId(last, at, hash, config, complete, h);
    var x := ResultFor(last, at, hash, config, complete, h);
    if x.Some? {
      ResultAppended(t.results, x.value, id);
    }
  }

  lemma FrontDistinct(battles: seq<Engine>)
    requires battles != [] && DistinctIds(battles)
    ensures var n := |battles| - 1;
            && DistinctIds(battles[..n])
            && forall i | 0 <= i < n :: battles[..n][i] == battles[i] && battles[i].setup.battleId != battles[n].setup.battleId
  {
  }

  /** Under distinct ids the results list holds each battle's own result and no other. */
  lemma {:induction false} ResultsByBattle(battles: seq<Engine>, id: BattleId, at: int, hash: Option<string>,
      config: Config, complete: bool, h: Hashing)
    requires SettleAll(battles, at, hash, config, complete, h).Ok? && DistinctIds(battles)
    ensures var results := SettleAll(battles, at, hash, config, complete, h).value.results;
            && (forall i | 0 <= i < |battles| && battles[i].setup.battleId == id ::
                  ResultOf(results, id) == ResultFor(battles[i], at, hash, config, complete, h))
            && ((forall i | 0 <= i < |battles| :: battles[i].setup.battleId != id) ==> ResultOf(results, id).None?)
    decreases |battles|
  {
    if battles == [] {
      hide ResultFor;
    } else {
      hide *;
      var n := |battles| - 1;
      ResultsGrow(battles, id, at, hash, config, complete, h);
      FrontDistinct(battles);
      ResultsByBattle(battles[..n], id, at, hash, config, complete, h);
    }
  }

  lemma ResultAppended(results: seq<BattleResult>, x: BattleResult, id: BattleId)
    ensures ResultOf(results + [x], id) == if x.battleId == id then Some(x) else ResultOf(results, id)
  {
    assert (results + [x])[..|results|] == results;
  }

  lemma {:induction false} BattleFound(battles: seq<Engine>, i: nat)
    requires i < |battles| && DistinctIds(battles)
    ensures BattleOf(battles, battles[i].setup.battleId) == Some(battles[i])
    decreases i
  {
    if i > 0 {
      assert battles[0].setup.battleId != battles[i].setup.battleId;
      assert forall j, k | 0 <= j < k < |battles| - 1 :: battles[1..][j].setup.battleId != battles[1..][k].setup.battleId;
      BattleFound(battles[1..], i - 1);
    }
  }

  /** What a win pays under the winner's confidence: why, and how much. */
  ghost function Due(winner: Confidence): (Reason, nat) {
    match winner
    case HeavyUnderdog => (HeavyUnderdogWin, 14)
    case Underdog => (UnderdogWin, 12)
    case _ => (Win, 10)
  }

  lemma PickAwardsAre(pick: Pick, battles: seq<Engine>, results: seq<BattleResult>, a: Award)
    requires BattleOf(battles, pick.battleId).Some?
    ensures var result, setup := ResultOf(results, pick.battleId), BattleOf(battles, pick.battleId).value.setup;
            var (reason, points) := Due(if pick.backed == setup.left then setup.leftLabel else setup.rightLabel);
            var won := result.Some? && result.value.winner == pick.backed;
            && (a in PickAwards(pick, battles, results) <==>
                won && (|| a == Award(pick.wallet, pick.battleId, reason, points)
                        || (pick.card.Some? && a == Award(pick.wallet, pick.battleId, CardAssist, 2))))
            && PickPoints(pick, battles, results) == (if won then points + (if pick.card.Some? then 2 else 0) else 0)
  {
    hide ResultOf, BattleOf;
  }

  lemma AwardsOfLast(picks: seq<Pick>, battles: seq<Engine>, results: seq<BattleResult>, a: Award)
    requires picks != []
    ensures var n := |picks| - 1;
            && (a in AllAwards(picks, battles, results) <==>
                  a in AllAwards(picks[..n], battles, results) || a in PickAwards(picks[n], battles, results))
            && (a in PickAwards(picks[n], battles, results) ==> a.wallet == picks[n].wallet)
  {
    OnePickPays(picks[|picks| - 1], battles, results, a.wallet);
    hide PickAwards, NoDouble, Earned;
  }

  lemma {:induction false} AwardsOfPick(picks: seq<Pick>, battles: seq<Engine>, results: seq<BattleResult>, k: nat, a: Award)
    requires OnePickEach(picks) && k < |picks| && a.wallet == picks[k].wallet
    ensures a in AllAwards(picks, battles, results) <==> a in PickAwards(picks[k], battles, results)
    decreases |picks|
  {
    hide PickAwards, AllAwards, OnePickEach;
    var n := |picks| - 1;
    FrontPicks(picks);
    AwardsOfLast(picks, battles, results, a);
    if k < n {
      PicksDiffer(picks, k, n);
      AwardsOfPick(picks[..n], battles, results, k, a);
    } else {
      NoneOfLater(picks, battles, results, a);
    }
  }

  lemma NoneOfLater(picks: seq<Pick>, battles: seq<Engine>, results: seq<BattleResult>, a: Award)
    requires OnePickEach(picks) && picks != [] && a.wallet == picks[|picks| - 1].wallet
    ensures a !in AllAwards(picks[..|picks| - 1], battles, results)
  {
    var n := |picks| - 1;
    FrontPicks(picks);
    AwardsPayPicks(picks[..n], battles, results);
    forall k | 0 <= k < n
      ensures picks[..n][k].wallet != a.wallet
    {
      PicksDiffer(picks, k, n);
    }
    hide AllAwards, OnePickEach;
  }

  /** A settled battle's label is an upset exactly when its winner's confidence pays one. */
  lemma LabelFitsDue(b: Engine, at: int, hash: Option<string>, config: Config, complete: bool, h: Hashing)
    requires ResultFor(b, at, hash, config, complete, h).Some? && b.setup.left != b.setup.right
    ensures var result := ResultFor(b, at, hash, config, complete, h).value;
            var due := Due(if result.winner == b.setup.left then b.setup.leftLabel else b.setup.rightLabel).0;
            && (result.victory == MajorUpset <==> due == HeavyUnderdogWin)
            && (result.victory == UpsetVictory <==> due == UnderdogWin)
  {
    hide FinalizeBattle, Conclude, ResolveBattle, M.WasComeback, M.Advantage;
    SettledMeans(b, at, hash, config, complete, h);
    Concludes(b, ScoreOf(b, config), at, hash, config, h);
  }

  /**
   In a finalized round the awards of a pick are exactly what its battle says: the award
   of a winning pick under the winner's confidence, two more points if a card went in,
   and nothing on a loss or a voided battle. None is written twice, and the reason is an
   upset exactly when the result's own label is.
  */
  lemma RoundPaysWinners(r: RoundState, at: int, hash: Option<string>, config: Config, complete: bool, h: Hashing,
      k: nat, i: nat, a: Award)
    requires DistinctIds(r.battles) && OnePickEach(r.picks)
    requires Finalization(r, at, hash, config, complete, h).Ok?
    requires Finalization(r, at, hash, config, complete, h).value.state.phase == RoundFinalized
    requires k < |r.picks| && i < |r.battles| && r.picks[k].battleId == r.battles[i].setup.battleId
    requires a.wallet == r.picks[k].wallet
    ensures var awards := Finalization(r, at, hash, config, complete, h).value.awards;
            var pick, b := r.picks[k], r.battles[i];
            var result := ResultFor(b, at, hash, config, complete, h);
            var (reason, points) := Due(if pick.backed == b.setup.left then b.setup.leftLabel else b.setup.rightLabel);
            var won := result.Some? && result.value.winner == pick.backed;
            && NoDouble(awards)
            && (a in awards <==> won && (|| a == Award(pick.wallet, pick.battleId, reason, points)
                                         || (pick.card.Some? && a == Award(pick.wallet, pick.battleId, CardAssist, 2))))
            && Earned(awards, pick.wallet) == (if won then points + (if pick.card.Some? then 2 else 0) else 0)
            && (won && b.setup.left != b.setup.right ==>
                  && (result.value.victory == MajorUpset <==> reason == HeavyUnderdogWin)
                  && (result.value.victory == UpsetVictory <==> reason == UnderdogWin))
  {
    hide SettleAll, Verdict, NoDouble, DistinctIds, OnePickEach, ResultFor, AllAwards, PickAwards, PickPoints, BattleOf, ResultOf, Due, Earned;
    var results := SettleAll(r.battles, at, hash, config, complete, h).value.results;
    AwardsPayPicks(r.picks, r.battles, results);
    AwardsOfPick(r.picks, r.battles, results, k, a);
    ResultsByBattle(r.battles, r.battles[i].setup.battleId, at, hash, config, complete, h);
    BattleFound(r.battles, i);
    PickAwardsAre(r.picks[k], r.battles, results, a);
    if ResultFor(r.battles[i], at, hash, config, complete, h).Some? && r.battles[i].setup.left != r.battles[i].setup.right {
      LabelFitsDue(r.battles[i], at, hash, config, complete, h);
    }
  }

  // ---------------------------------------------------------------------
  // When a round is finalized
  // ---------------------------------------------------------------------

  function Undated(x: BattleResult): BattleResult {
    x.(finalizedAt := 0)
  }

  /** The same results, up to the instant they carry. */
  ghost predicate SameResults(a: seq<BattleResult>, b: seq<BattleResult>) {
    |a| == |b| && forall i | 0 <= i < |a| :: Undated(a[i]) == Undated(b[i])
  }

  lemma VerdictAnyTime(b: Engine, s: int, t: int, hash: Option<string>, config: Config, h: Hashing)
    requires s >= b.setup.clock.battleEndAt && t >= b.setup.clock.battleEndAt
    ensures var v, w := Verdict(b, s, hash, config, true, h), Verdict(b, t, hash, config, true, h);
            && (v.Some? <==> w.Some?)
            && (v.Some? ==> v.value.state == w.value.state && (v.value.Settled? <==> w.value.Settled?) && (v.value.GaveUp? <==> w.value.GaveUp?)
                            && (v.value.Settled? ==> Undated(v.value.result) == Undated(w.value.result)))
  {
    hide ScoreBattle, ResolveBattle, ClassifyVictory;
  }

  lemma {:induction false} SettleAnyTime(battles: seq<Engine>, s: int, t: int, hash: Option<string>, config: Config,
      h: Hashing)
    requires forall i | 0 <= i < |battles| :: s >= battles[i].setup.clock.battleEndAt && t >= battles[i].setup.clock.battleEndAt
    ensures var x, y := SettleAll(battles, s, hash, config, true, h), SettleAll(battles, t, hash, config, true, h);
            && (x.Ok? <==> y.Ok?)
            && (x.Ok? ==> x.value.battles == y.value.battles && x.value.voided == y.value.voided && SameResults(x.value.results, y.value.results))
    decreases |battles|
  {
    hide SettleOne, Verdict;
    if battles != [] {
      var n := |battles| - 1;
      SettleAnyTime(battles[..n], s, t, hash, config, h);
      VerdictAnyTime(battles[n], s, t, hash, config, h);
      var x, y := SettleAll(battles[..n], s, hash, config, true, h), SettleAll(battles[..n], t, hash, config, true, h);
      if x.Ok? {
        OneMore(x.value, battles[n], s, hash, config, true, h);
        OneMore(y.value, battles[n], t, hash, config, true, h);
      }
    }
  }

  lemma {:induction false} WinnersAnyTime(a: seq<BattleResult>, b: seq<BattleResult>, id: BattleId)
    requires SameResults(a, b)
    ensures var x, y := ResultOf(a, id), ResultOf(b, id);
            (x.Some? <==> y.Some?) && (x.Some? ==> x.value.winner == y.value.winner)
    decreases |a|
  {
    if a != [] {
      var n := |a| - 1;
      assert Undated(a[n]) == Undated(b[n]);
      WinnersAnyTime(a[..n], b[..n], id);
    }
  }

  lemma {:induction false} AwardsAnyTime(picks: seq<Pick>, battles: seq<Engine>, a: seq<BattleResult>,
      b: seq<BattleResult>)
    requires SameResults(a, b)
    ensures AllAwards(picks, battles, a) == AllAwards(picks, battles, b)
    decreases |picks|
  {
    hide SameResults, ResultOf, BattleOf;
    if picks != [] {
      var n := |picks| - 1;
      AwardsAnyTime(picks[..n], battles, a, b);
      WinnersAnyTime(a, b, picks[n].battleId);
    }
  }

  /** The instant of finalization shows in the dates of the results and nowhere else. */
  lemma FinalizationAnyTime(r: RoundState, s: int, t: int, hash: Option<string>, config: Config, h: Hashing)
    requires forall i | 0 <= i < |r.battles| :: s >= r.battles[i].setup.clock.battleEndAt && t >= r.battles[i].setup.clock.battleEndAt
    ensures var x, y := Finalization(r, s, hash, config, true, h), Finalization(r, t, hash, config, true, h);
            && (x.Ok? <==> y.Ok?)
            && (x.Ok? ==> x.value.state == y.value.state && x.value.voided == y.value.voided && x.value.awards == y.value.awards
                          && SameResults(x.value.results, y.value.results))
  {
    hide SettleAll, AllAwards;
    SettleAnyTime(r.battles, s, t, hash, config, h);
    var x, y := SettleAll(r.battles, s, hash, config, true, h), SettleAll(r.battles, t, hash, config, true, h);
    if x.Ok? {
      AwardsAnyTime(r.picks, r.battles, x.value.results, y.value.results);
    }
  }
}

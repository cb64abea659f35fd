/**
 One battle as a reducer, packages/battle-engine/src/engine.ts.
 */
module BattleEngine {
  import opened Evidence
  import opened Feed
  import opened Resolution
  import opened Scoring
  import opened Wrappers
  import M = Momentum

  type Ticker = string
  type BattleId = string

  datatype Clock = Clock(lockAt: int, battleStartAt: int, battleEndAt: int)

  datatype BattleState = Scheduled | Live | Finalized | Void

  predicate CanTransitionBattle(from: BattleState, to: BattleState) {
    match from
    case Scheduled => to == Live || to == Void
    case Live => to == Finalized || to == Void
    case Finalized => false
    case Void => false
  }

  datatype Tiers = Tiers(medium: int, high: int, max: int)

  datatype Config = Config(
    scoring: Calibration,
    momentum: M.Thresholds,
    victory: VictoryThresholds,
    maxWait: int,
    tiers: Tiers,
    version: string)

  /** The two functions of bytes the engine relies on. */
  datatype Hashing = Hashing(digest: Digest, tieBit: TieBit)

  datatype Setup = Setup(
    battleId: BattleId,
    roundId: string,
    left: Ticker,
    right: Ticker,
    clock: Clock,
    leftLabel: Confidence,
    rightLabel: Confidence)

  const NO_SUPPORT: CardSupport := CardSupport(0, 0, 0, 0)

  datatype Engine = Engine(
    setup: Setup,
    state: BattleState,
    tickSequence: nat,
    momentum: M.Memory,
    evidenceHash: string,
    leftScore: int,
    rightScore: int,
    last: Option<(SideInputs, SideInputs)>,
    lastTickAt: Option<int>,
    leftSupport: CardSupport,
    rightSupport: CardSupport)

  datatype TickInput = TickInput(at: int, left: SideInputs, right: SideInputs, leftHealth: FeedHealth, rightHealth: FeedHealth)

  datatype Tier = Low | Medium | High | Max

  datatype Update = Update(
    battleId: BattleId,
    serverTime: int,
    timeRemaining: int,
    momentum: M.MomentumState,
    cardSupport: Tier,
    healthy: bool)

  datatype TickOutcome =
    | Ignored(state: Engine, reason: string)
    | Updated(state: Engine, update: Update)
    | Voided(state: Engine)

  function BeginBattle(setup: Setup): Engine {
    Engine(setup, Scheduled, 0, M.INITIAL, EMPTY_EVIDENCE, 0, 0, None, None, NO_SUPPORT, NO_SUPPORT)
  }

  function OpenBattle(b: Engine, at: int): Result<Engine, string> {
    if !CanTransitionBattle(b.state, Live) then Err("cannot open")
    else if at < b.setup.clock.battleStartAt then Err("RangeError")
    else Ok(b.(state := Live))
  }

  predicate RequiresVoid(h: FeedHealth) {
    h == Stale || h == Unavailable
  }

  function Total(s: CardSupport): int {
    s.market + s.volume + s.pons + s.general
  }

  function TierOf(support: int, t: Tiers): Tier {
    if support >= t.max then Max else if support >= t.high then High else if support >= t.medium then Medium else Low
  }

  /** The tick as the evidence records it. */
  function Recorded(sequence: nat, input: TickInput, score: BattleScore): EvidenceTick {
    EvidenceTick(sequence, input.at, input.left, input.right, input.leftHealth, input.rightHealth,
                 score.LeftTotal(), score.RightTotal())
  }

  function Advance(b: Engine, input: TickInput, score: BattleScore, memory: M.Memory, h: Hashing): Engine {
    b.(tickSequence := b.tickSequence + 1,
       momentum := memory,
       evidenceHash := FoldEvidence(b.evidenceHash, Recorded(b.tickSequence + 1, input, score), h.digest),
       leftScore := score.LeftTotal(),
       rightScore := score.RightTotal(),
       last := Some((input.left, input.right)),
       lastTickAt := Some(input.at))
  }

  function ApplyTick(b: Engine, input: TickInput, config: Config, h: Hashing): Result<TickOutcome, string> {
    var clock := b.setup.clock;
    if b.state != Live then Ok(Ignored(b, "battle is not live"))
    else if input.at < clock.battleStartAt then Ok(Ignored(b, "before the scoring window opened"))
    else if input.at >= clock.battleEndAt then Ok(Ignored(b, "after the hard cutoff"))
    else if b.lastTickAt.Some? && input.at < b.lastTickAt.value then Ok(Ignored(b, "older than the last accepted tick"))
    else if RequiresVoid(input.leftHealth) || RequiresVoid(input.rightHealth) then Ok(Voided(b.(state := Void)))
    else
      match ScoreBattle(input.left, input.right, config.scoring)
      case Err(e) => Err(e)
      case Ok(score) =>
        match M.NextMomentum(b.momentum, M.Advantage(score.LeftTotal()), config.momentum)
        case Err(e) => Err(e)
        case Ok(sample) =>
          var remaining := clock.battleEndAt - input.at;
          Ok(Updated(
               Advance(b, input, score, sample.memory, h),
               Update(b.setup.battleId,
                      input.at,
                      if remaining > 0 then remaining else 0,
                      sample.state,
                      TierOf(Total(input.left.cardSupport) + Total(input.right.cardSupport), config.tiers),
                      input.leftHealth == Healthy && input.rightHealth == Healthy)))
  }

  datatype Decision = Wait | Finalize | GiveUp

  function DecideFinalization(clock: Clock, at: int, complete: bool, maxWait: int): Result<Decision, string> {
    if at < clock.battleEndAt then Err("RangeError")
    else if complete then Ok(Finalize)
    else Ok(if at - clock.battleEndAt < maxWait then Wait else GiveUp)
  }

  datatype BattleResult = BattleResult(
    battleId: BattleId,
    roundId: string,
    left: Ticker,
    right: Ticker,
    winner: Ticker,
    score: BattleScore,
    victory: VictoryLabel,
    tiebreak: Option<Step>,
    tiebreakHash: Option<string>,
    version: string,
    finalizedAt: int,
    evidenceHash: string)

  datatype FinalizeOutcome =
    | Waiting(state: Engine)
    | Settled(state: Engine, result: BattleResult)
    | GaveUp(state: Engine)

  /** The result of a battle whose last accepted inputs score as `score`. */
  function Conclude(b: Engine, score: BattleScore, at: int, hash: Option<string>, config: Config,
      h: Hashing): Result<FinalizeOutcome, string> {
    match ResolveBattle(score, hash, b.setup.battleId, h.tieBit)
    case Err(e) => Err(e)
    case Ok(outcome) =>
      var winnerLabel := if outcome.side == LeftSide then b.setup.leftLabel else b.setup.rightLabel;
      var comeback := M.WasComeback(b.momentum, M.Advantage(score.LeftTotal()), config.momentum.comeback);
      match ClassifyVictory(outcome.margin, winnerLabel, comeback, config.victory)
      case Err(e) => Err(e)
      case Ok(victory) =>
        Ok(Settled(
             b.(state := Finalized, leftScore := score.LeftTotal(), rightScore := score.RightTotal()),
             BattleResult(b.setup.battleId, b.setup.roundId, b.setup.left, b.setup.right,
                          if outcome.side == LeftSide then b.setup.left else b.setup.right,
                          score, victory, outcome.tiebreak,
                          if outcome.tiebreak == Some(ChainDerived) then hash else None,
                          config.version, at, b.evidenceHash)))
  }

  function FinalizeBattle(b: Engine, at: int, hash: Option<string>, config: Config, complete: bool,
      h: Hashing): Result<FinalizeOutcome, string> {
    if b.state != Live then Err("finalization is exactly-once, from a live battle")
    else
      match DecideFinalization(b.setup.clock, at, complete, config.maxWait)
      case Err(e) => Err(e)
      case Ok(Wait) => Ok(Waiting(b))
      case Ok(GiveUp) => Ok(GaveUp(b.(state := Void)))
      case Ok(Finalize) =>
        if b.tickSequence == 0 || b.last.None? then Ok(GaveUp(b.(state := Void)))
        else
          match ScoreBattle(b.last.value.0, b.last.value.1, config.scoring)
          case Err(e) => Err(e)
          case Ok(score) => Conclude(b, score, at, hash, config, h)
  }

  // ---------------------------------------------------------------------
  // Every run of ticks
  // ---------------------------------------------------------------------

  /** A run of ticks over one battle, stopped by the first that throws. */
  function RunTicks(b: Engine, inputs: seq<TickInput>, config: Config, h: Hashing): Result<Engine, string>
    decreases |inputs|
  {
    if inputs == [] then Ok(b)
    else
      match ApplyTick(b, inputs[0], config, h)
      case Err(e) => Err(e)
      case Ok(outcome) => RunTicks(outcome.state, inputs[1..], config, h)
  }

  /** The ticks a run accepted, as evidence, and the momentum published last. */
  datatype History = History(ticks: seq<EvidenceTick>, shown: Option<M.MomentumState>)

  ghost function HistoryOf(b: Engine, inputs: seq<TickInput>, config: Config, h: Hashing, before: History): History
    requires RunTicks(b, inputs, config, h).Ok?
    decreases |inputs|
  {
    if inputs == [] then before
    else
      var outcome := ApplyTick(b, inputs[0], config, h).value;
      HistoryOf(outcome.state, inputs[1..], config, h, Extended(before, b, inputs[0], outcome))
  }

  ghost function Extended(before: History, b: Engine, input: TickInput, outcome: TickOutcome): History {
    if outcome.Updated? then
      History(before.ticks + [EvidenceTick(outcome.state.tickSequence, input.at, input.left, input.right, input.leftHealth, input.rightHealth,
                                           outcome.state.leftScore, outcome.state.rightScore)],
              Some(outcome.update.momentum))
    else before
  }

  ghost function Advantages(ticks: seq<EvidenceTick>): seq<int> {
    seq(|ticks|, i requires 0 <= i < |ticks| => M.Advantage(ticks[i].leftScore))
  }

  ghost predicate InWindow(ticks: seq<EvidenceTick>, clock: Clock) {
    && (forall i | 0 <= i < |ticks| :: clock.battleStartAt <= ticks[i].at < clock.battleEndAt)
    && (forall i, j | 0 <= i < j < |ticks| :: ticks[i].at <= ticks[j].at)
    && (forall i | 0 <= i < |ticks| :: !RequiresVoid(ticks[i].leftHealth) && !RequiresVoid(ticks[i].rightHealth))
  }

  /** The stored score is the score of the last accepted inputs, as the evidence has it. */
  ghost predicate ScoreOfLast(b: Engine, ticks: seq<EvidenceTick>, config: Config) {
    && (ticks == [] <==> b.last.None?) && (ticks == [] <==> b.lastTickAt.None?)
    && (ticks != [] ==>
          var t := ticks[|ticks| - 1];
          var score := ScoreBattle(t.left, t.right, config.scoring);
          && b.last == Some((t.left, t.right)) && b.lastTickAt == Some(t.at)
          && score.Ok? && score.value.LeftTotal() == b.leftScore == t.leftScore
          && score.value.RightTotal() == b.rightScore == t.rightScore)
  }

  /** The battlefield showed a comeback at the last accepted tick exactly when finalization will call it one. */
  ghost predicate ShowsComeback(b: Engine, hist: History, config: Config) {
    && (hist.shown.None? <==> hist.ticks == [])
    && (hist.shown.Some? ==>
          (hist.shown.value == M.Comeback <==> M.WasComeback(b.momentum, M.Advantage(b.leftScore), config.momentum.comeback)))
  }

  /** What the state of a battle says about the ticks it accepted. */
  ghost predicate Tells(b: Engine, hist: History, config: Config, h: Hashing) {
    && b.tickSequence == |hist.ticks|
    && Numbered(hist.ticks)
    && b.evidenceHash == Chain(hist.ticks, h.digest)
    && b.momentum == M.Remember(Advantages(hist.ticks))
    && InWindow(hist.ticks, b.setup.clock)
    && ScoreOfLast(b, hist.ticks, config)
    && ShowsComeback(b, hist, config)
  }

  const NO_HISTORY: History := History([], None)

  lemma FreshTells(setup: Setup, leftSupport: CardSupport, rightSupport: CardSupport, config: Config, h: Hashing)
    ensures Tells(BeginBattle(setup).(state := Live, leftSupport := leftSupport, rightSupport := rightSupport), NO_HISTORY, config, h)
  {
  }

  lemma AppendTick(ticks: seq<EvidenceTick>, t: EvidenceTick, h: Digest)
    ensures Chain(ticks + [t], h) == FoldEvidence(Chain(ticks, h), t, h)
    ensures Advantages(ticks + [t]) == Advantages(ticks) + [M.Advantage(t.leftScore)]
  {
    assert (ticks + [t])[..|ticks|] == ticks;
  }

  lemma AppendInWindow(ticks: seq<EvidenceTick>, t: EvidenceTick, clock: Clock)
    requires InWindow(ticks, clock) && clock.battleStartAt <= t.at < clock.battleEndAt
    requires ticks != [] ==> ticks[|ticks| - 1].at <= t.at
    requires !RequiresVoid(t.leftHealth) && !RequiresVoid(t.rightHealth)
    ensures InWindow(ticks + [t], clock)
  {
  }

  lemma AdvantageIsClamped(leftScore: int)
    ensures ClampUnit(M.Advantage(leftScore)) == M.Advantage(leftScore)
  {
    hide TruncDiv;
  }

  /** What an accepted tick went through. */
  lemma AcceptedTick(b: Engine, input: TickInput, config: Config, h: Hashing) returns (score: BattleScore,
      sample: M.Sample)
    requires ApplyTick(b, input, config, h).Ok? && ApplyTick(b, input, config, h).value.Updated?
    ensures ScoreBattle(input.left, input.right, config.scoring) == Ok(score)
    ensures M.NextMomentum(b.momentum, M.Advantage(score.LeftTotal()), config.momentum) == Ok(sample)
    ensures var o := ApplyTick(b, input, config, h).value;
            o.state == Advance(b, input, score, sample.memory, h) && o.update.momentum == sample.state
    ensures b.setup.clock.battleStartAt <= input.at < b.setup.clock.battleEndAt
    ensures b.lastTickAt.Some? ==> b.lastTickAt.value <= input.at
    ensures !RequiresVoid(input.leftHealth) && !RequiresVoid(input.rightHealth)
  {
    hide ScoreBattle, M.NextMomentum, M.Advantage, Advance;
    score := ScoreBattle(input.left, input.right, config.scoring).value;
    sample := M.NextMomentum(b.momentum, M.Advantage(score.LeftTotal()), config.momentum).value;
  }

  lemma MomentumTells(m: M.Memory, shown: M.MomentumState, ticks: seq<EvidenceTick>, t: EvidenceTick, config: Config)
    requires m == M.Remember(Advantages(ticks))
    requires M.NextMomentum(m, M.Advantage(t.leftScore), config.momentum).Ok?
    ensures var sample := M.NextMomentum(m, M.Advantage(t.leftScore), config.momentum).value;
            && sample.memory == M.Remember(Advantages(ticks + [t]))
            && (sample.state == M.Comeback <==>
                M.WasComeback(sample.memory, M.Advantage(t.leftScore), config.momentum.comeback))
  {
    AppendTick(ticks, t, x => "");
    AdvantageIsClamped(t.leftScore);
    M.NextRemembers(Advantages(ticks), M.Advantage(t.leftScore), config.momentum);
    M.ComebackIff(Advantages(ticks), M.Advantage(t.leftScore), config.momentum);
    hide M.Remember, M.Advantage, Advantages, M.LedBy, M.WasComeback, ClampUnit;
  }

  lemma AppendNumbered(ticks: seq<EvidenceTick>, t: EvidenceTick)
    requires Numbered(ticks) && t.sequence == |ticks| + 1
    ensures Numbered(ticks + [t])
  {
  }

  lemma ExtendedIs(before: History, b: Engine, input: TickInput, o: TickOutcome, score: BattleScore,
      memory: M.Memory, h: Hashing)
    requires o.Updated? && o.state == Advance(b, input, score, memory, h)
    ensures Extended(before, b, input, o)
            == History(before.ticks + [Recorded(b.tickSequence + 1, input, score)], Some(o.update.momentum))
  {
  }

  lemma UpdateTells(b: Engine, hist: History, input: TickInput, config: Config, h: Hashing)
    requires Tells(b, hist, config, h)
    requires ApplyTick(b, input, config, h).Ok? && ApplyTick(b, input, config, h).value.Updated?
    ensures var o := ApplyTick(b, input, config, h).value;
            Tells(o.state, Extended(hist, b, input, o), config, h)
  {
    hide ScoreBattle, M.NextMomentum, ApplyTick, M.Advantage, M.Remember, InWindow, Numbered, Chain, FoldEvidence, Advantages, M.WasComeback, Extended;
    var score, sample := AcceptedTick(b, input, config, h);
    var o := ApplyTick(b, input, config, h).value;
    var t := Recorded(b.tickSequence + 1, input, score);
    ExtendedIs(hist, b, input, o, score, sample.memory, h);
    AppendTick(hist.ticks, t, h.digest);
    AppendInWindow(hist.ticks, t, b.setup.clock);
    AppendNumbered(hist.ticks, t);
    MomentumTells(b.momentum, sample.state, hist.ticks, t, config);
  }

  lemma TellsWhateverState(b: Engine, s: BattleState, hist: History, config: Config, h: Hashing)
    requires Tells(b, hist, config, h)
    ensures Tells(b.(state := s), hist, config, h)
  {
    hide ScoreBattle, M.Remember, M.Advantage, InWindow, Numbered, Chain, Advantages, M.WasComeback;
  }

  /** Whatever ticks arrive, the state keeps telling the history of those it accepted. */
  lemma {:induction false} RunTells(b: Engine, hist: History, inputs: seq<TickInput>, config: Config, h: Hashing)
    requires Tells(b, hist, config, h) && RunTicks(b, inputs, config, h).Ok?
    ensures Tells(RunTicks(b, inputs, config, h).value, HistoryOf(b, inputs, config, h, hist), config, h)
    ensures RunTicks(b, inputs, config, h).value.setup == b.setup
    decreases |inputs|
  {
    if inputs != [] {
      var o := ApplyTick(b, inputs[0], config, h).value;
      var next := Extended(hist, b, inputs[0], o);
      StepTells(b, hist, inputs[0], config, h);
      RunTells(o.state, next, inputs[1..], config, h);
    }
  }

  lemma StepTells(b: Engine, hist: History, input: TickInput, config: Config, h: Hashing)
    requires Tells(b, hist, config, h) && ApplyTick(b, input, config, h).Ok?
    ensures var o := ApplyTick(b, input, config, h).value;
            Tells(o.state, Extended(hist, b, input, o), config, h) && o.state.setup == b.setup
  {
    hide *;
    UnacceptedTick(b, hist, input, config, h);
    if ApplyTick(b, input, config, h).value.Updated? {
      UpdateTells(b, hist, input, config, h);
    } else {
      TellsWhateverState(b, Void, hist, config, h);
    }
  }

  /** Ticks outside the window, out of order or from a broken feed leave no trace but the state. */
  lemma UnacceptedTick(b: Engine, before: History, input: TickInput, config: Config, h: Hashing)
    requires ApplyTick(b, input, config, h).Ok?
    ensures var o := ApplyTick(b, input, config, h).value;
            && o.state.setup == b.setup
            && (!o.Updated? ==> o.state == b || o.state == b.(state := Void))
            && (!o.Updated? ==> Extended(before, b, input, o) == before)
  {
    hide ScoreBattle, M.NextMomentum, M.Advantage, FoldEvidence;
  }

  // ---------------------------------------------------------------------
  // Which ticks count
  // ---------------------------------------------------------------------

  predicate OnClock(clock: Clock, input: TickInput) {
    clock.battleStartAt <= input.at < clock.battleEndAt
  }

  predicate Broken(input: TickInput) {
    input.leftHealth in {Stale, Unavailable} || input.rightHealth in {Stale, Unavailable}
  }

  /** Both sides can be scored, and by this configuration. */
  predicate CanScore(input: TickInput, config: Config) {
    Scorable(input.left) && Scorable(input.right) && Calibrated(config.scoring) && M.Usable(config.momentum)
  }

  /** A tick counts in a live battle, inside the window, and not before the last that counted. */
  predicate Timely(b: Engine, input: TickInput) {
    b.state == Live && OnClock(b.setup.clock, input) && (b.lastTickAt.Some? ==> b.lastTickAt.value <= input.at)
  }

  /**
   A tick out of its time is ignored; in time it voids the battle when a feed is broken,
   is refused when it cannot be scored, and otherwise is the next tick of the battle.
  */
  lemma TickOutcomes(b: Engine, input: TickInput, config: Config, h: Hashing)
    ensures var r := ApplyTick(b, input, config, h);
            && (r.Ok? && r.value.Ignored? <==> !Timely(b, input))
            && (r.Ok? && r.value.Voided? <==> Timely(b, input) && Broken(input))
            && (r.Ok? && r.value.Updated? <==> Timely(b, input) && !Broken(input) && CanScore(input, config))
            && (r.Ok? && r.value.Ignored? ==> r.value.state == b)
            && (r.Ok? && r.value.Voided? ==> r.value.state == b.(state := Void))
  {
    hide EdgesOf, Split, M.Advantage, FoldEvidence;
  }

  /**
   What the public is shown of it: the time that is left, healthy only where both feeds
   are, and how much support both sides brought together.
  */
  lemma UpdateShows(b: Engine, input: TickInput, config: Config, h: Hashing)
    requires ApplyTick(b, input, config, h).Ok? && ApplyTick(b, input, config, h).value.Updated?
    ensures var u := ApplyTick(b, input, config, h).value.update;
            && u.battleId == b.setup.battleId && u.serverTime == input.at
            && u.serverTime + u.timeRemaining == b.setup.clock.battleEndAt && u.timeRemaining > 0
            && (u.healthy <==> input.leftHealth == Healthy && input.rightHealth == Healthy)
            && var l, r := input.left.cardSupport, input.right.cardSupport;
               var support := l.market + l.volume + l.pons + l.general + r.market + r.volume + r.pons + r.general;
               && (u.cardSupport == Max <==> support >= config.tiers.max)
               && (u.cardSupport == High <==> config.tiers.high <= support < config.tiers.max)
               && (u.cardSupport == Low <==> support < config.tiers.medium && support < config.tiers.high && support < config.tiers.max)
  {
    hide ScoreBattle, M.NextMomentum, M.Advantage, Advance;
  }

  /** No tick of the window before the `i`-th is later than it. */
  predicate InTurn(clock: Clock, inputs: seq<TickInput>, i: nat)
    requires i < |inputs|
  {
    OnClock(clock, inputs[i]) && forall j | 0 <= j < i && OnClock(clock, inputs[j]) :: inputs[j].at <= inputs[i].at
  }

  /** The offered ticks that count, from the `k`-th on: those in turn, up to the first from a broken feed. */
  function Counted(clock: Clock, inputs: seq<TickInput>, k: nat): seq<TickInput>
    requires k <= |inputs|
    decreases |inputs| - k
  {
    if k == |inputs| then []
    else if !InTurn(clock, inputs, k) then Counted(clock, inputs, k + 1)
    else if Broken(inputs[k]) then []
    else [inputs[k]] + Counted(clock, inputs, k + 1)
  }

  /** A tick of the window in turn comes from a broken feed. */
  predicate Breaks(clock: Clock, inputs: seq<TickInput>, k: nat)
    requires k <= |inputs|
  {
    exists i | k <= i < |inputs| :: InTurn(clock, inputs, i) && Broken(inputs[i])
  }

  /** What was offered, as the history has it. */
  function Offered(t: EvidenceTick): TickInput {
    TickInput(t.at, t.left, t.right, t.leftHealth, t.rightHealth)
  }

  ghost function OfferedAll(ticks: seq<EvidenceTick>): seq<TickInput> {
    seq(|ticks|, i requires 0 <= i < |ticks| => Offered(ticks[i]))
  }

  /** The battle has taken the first `k` of the ticks offered. */
  ghost predicate Taken(b: Engine, inputs: seq<TickInput>, k: nat)
    requires k <= |inputs|
  {
    && (b.lastTickAt.Some? ==> exists j | 0 <= j < k :: OnClock(b.setup.clock, inputs[j]) && inputs[j].at == b.lastTickAt.value)
    && (forall j | 0 <= j < k && OnClock(b.setup.clock, inputs[j]) ::
          b.lastTickAt.Some? && inputs[j].at <= b.lastTickAt.value)
  }

  lemma TimelyInTurn(b: Engine, inputs: seq<TickInput>, k: nat)
    requires k < |inputs| && Taken(b, inputs, k) && b.state == Live
    ensures Timely(b, inputs[k]) <==> InTurn(b.setup.clock, inputs, k)
  {
  }

  lemma TakesNext(b: Engine, inputs: seq<TickInput>, k: nat, v: Engine)
    requires k < |inputs| && Taken(b, inputs, k) && b.state == Live && v.setup == b.setup
    requires v.lastTickAt == if Timely(b, inputs[k]) then Some(inputs[k].at) else b.lastTickAt
    ensures Taken(v, inputs, k + 1)
  {
    if v.lastTickAt.Some? && !Timely(b, inputs[k]) {
      var j :| 0 <= j < k && OnClock(b.setup.clock, inputs[j]) && inputs[j].at == b.lastTickAt.value;
      assert 0 <= j < k + 1;
    }
  }

  lemma {:induction false} DeadTakesNothing(b: Engine, inputs: seq<TickInput>, config: Config, h: Hashing, before: History)
    requires b.state != Live
    ensures RunTicks(b, inputs, config, h) == Ok(b) && HistoryOf(b, inputs, config, h, before) == before
    decreases |inputs|
  {
    hide ScoreBattle, M.NextMomentum, M.Advantage, FoldEvidence;
    if inputs != [] {
      DeadTakesNothing(b, inputs[1..], config, h, before);
    }
  }

  lemma OfferedGrows(before: History, b: Engine, input: TickInput, config: Config, h: Hashing)
    requires ApplyTick(b, input, config, h).Ok? && ApplyTick(b, input, config, h).value.Updated?
    ensures var o := ApplyTick(b, input, config, h).value;
            && OfferedAll(Extended(before, b, input, o).ticks) == OfferedAll(before.ticks) + [input]
            && o.state.setup == b.setup && o.state.state == Live && o.state.lastTickAt == Some(input.at)
  {
    hide ScoreBattle, M.NextMomentum, M.Advantage, FoldEvidence;
  }

  /** From the `k`-th tick on, a run throws at a counted tick it cannot score, or counts the ticks in turn and no others. */
  lemma {:induction false} RunCounts(b: Engine, inputs: seq<TickInput>, k: nat, config: Config, h: Hashing, before: History)
    requires k <= |inputs| && Taken(b, inputs, k) && b.state == Live
    ensures RunTicks(b, inputs[k..], config, h).Ok? <==> forall x | x in Counted(b.setup.clock, inputs, k) :: CanScore(x, config)
    ensures var clock := b.setup.clock;
            RunTicks(b, inputs[k..], config, h).Ok? ==>
            && OfferedAll(HistoryOf(b, inputs[k..], config, h, before).ticks) == OfferedAll(before.ticks) + Counted(clock, inputs, k)
            && RunTicks(b, inputs[k..], config, h).value.state == if Breaks(clock, inputs, k) then Void else Live
    decreases |inputs| - k
  {
    hide ApplyTick, OfferedAll, Taken, Timely, InTurn, Broken, CanScore;
    if k < |inputs| {
      var input, rest := inputs[k], inputs[k..][1..];
      assert inputs[k..][0] == input && rest == inputs[k + 1..];
      TickOutcomes(b, input, config, h);
      TimelyInTurn(b, inputs, k);
      if ApplyTick(b, input, config, h).Ok? {
        var o := ApplyTick(b, input, config, h).value;
        if o.Voided? {
          DeadTakesNothing(o.state, rest, config, h, before);
        } else {
          if o.Updated? {
            OfferedGrows(before, b, input, config, h);
          }
          TakesNext(b, inputs, k, o.state);
          RunCounts(o.state, inputs, k + 1, config, h, Extended(before, b, input, o));
        }
      }
    }
  }

  /**
   The history of a battle is a plain filter of the ticks it was offered: those inside
   the window that no earlier tick of the window is later than, up to the first that
   comes from a broken feed. That one voids the battle, and nothing else does. The run
   throws exactly when one that counts cannot be scored.
  */
  lemma HistoryIsFilter(b: Engine, inputs: seq<TickInput>, config: Config, h: Hashing)
    requires b.state == Live && b.lastTickAt.None?
    ensures RunTicks(b, inputs, config, h).Ok? <==> forall x | x in Counted(b.setup.clock, inputs, 0) :: CanScore(x, config)
    ensures RunTicks(b, inputs, config, h).Ok? ==>
              && OfferedAll(HistoryOf(b, inputs, config, h, NO_HISTORY).ticks) == Counted(b.setup.clock, inputs, 0)
              && RunTicks(b, inputs, config, h).value.state == if Breaks(b.setup.clock, inputs, 0) then Void else Live
  {
    assert inputs[0..] == inputs;
    RunCounts(b, inputs, 0, config, h, NO_HISTORY);
    hide RunTicks, HistoryOf, Counted, Breaks;
  }

  // ---------------------------------------------------------------------
  // Finalization
  // ---------------------------------------------------------------------

  /** The score a battle with accepted ticks would be decided by. */
  ghost function ScoreOf(b: Engine, config: Config): BattleScore
    requires b.last.Some? && ScoreBattle(b.last.value.0, b.last.value.1, config.scoring).Ok?
  {
    ScoreBattle(b.last.value.0, b.last.value.1, config.scoring).value
  }

  lemma ScoreStored(b: Engine, hist: History, config: Config, h: Hashing)
    requires Tells(b, hist, config, h) && b.tickSequence > 0
    ensures b.last.Some? && ScoreBattle(b.last.value.0, b.last.value.1, config.scoring).Ok?
    ensures ScoreOf(b, config).LeftTotal() == b.leftScore && ScoreOf(b, config).RightTotal() == b.rightScore
    ensures b.evidenceHash == Chain(hist.ticks, h.digest) && hist.ticks != [] && hist.shown.Some?
    ensures hist.shown.value == M.Comeback <==> M.WasComeback(b.momentum, M.Advantage(b.leftScore), config.momentum.comeback)
  {
    hide ScoreBattle, M.Remember, M.Advantage, InWindow, Numbered, Chain, Advantages, M.WasComeback;
  }

  lemma NothingToScore(b: Engine, hist: History, config: Config, h: Hashing)
    requires Tells(b, hist, config, h) && b.tickSequence == 0
    ensures b.last.None?
  {
    hide ScoreBattle, M.Remember, M.Advantage, InWindow, Numbered, Chain, Advantages, M.WasComeback;
  }

  /**
   A published result is the battle's own history: the digest of exactly the ticks
   accepted, the score already stored, and the label of its winner's confidence, its
   margin and a comeback exactly where the battlefield last showed one. Finalizing
   changes nothing else.
  */
  lemma ResultTellsHistory(b: Engine, hist: History, at: int, hash: Option<string>, config: Config, complete: bool,
      h: Hashing)
    requires Tells(b, hist, config, h)
    requires var o := FinalizeBattle(b, at, hash, config, complete, h); o.Ok? && o.value.Settled?
    ensures var o := FinalizeBattle(b, at, hash, config, complete, h).value;
            && complete && at >= b.setup.clock.battleEndAt
            && o.state == b.(state := Finalized)
            && hist.ticks != [] && o.result.evidenceHash == Chain(hist.ticks, h.digest)
            && b.tickSequence > 0
            && o.result.score.LeftTotal() == b.leftScore && o.result.score.RightTotal() == b.rightScore
            && hist.shown.Some?
            && var decided := ResolveBattle(o.result.score, hash, b.setup.battleId, h.tieBit);
            && decided.Ok?
            && o.result.winner == (if decided.value.side == LeftSide then b.setup.left else b.setup.right)
            && Dated(o.result, b.setup, config, at)
            && (o.result.tiebreak, o.result.tiebreakHash) == (decided.value.tiebreak, if decided.value.tiebreak == Some(ChainDerived) then hash else None)
            && var confidence := if decided.value.side == LeftSide then b.setup.leftLabel else b.setup.rightLabel;
               Labels(o.result.victory, decided.value.margin, confidence, hist.shown.value == M.Comeback, config.victory)
  {
    hide Labels, Tells, ScoreBattle, M.Advantage, M.WasComeback, ResolveBattle, ClassifyVictory, Chain, Conclude, FinalizeBattle;
    SettledMeans(b, at, hash, config, complete, h);
    ScoreStored(b, hist, config, h);
    Concludes(b, ScoreOf(b, config), at, hash, config, h);
  }

  /** The result names its battle, its sides, the rules and the instant. */
  ghost predicate Dated(r: BattleResult, setup: Setup, config: Config, at: int) {
    (r.battleId, r.roundId, r.left, r.right, r.version, r.finalizedAt)
    == (setup.battleId, setup.roundId, setup.left, setup.right, config.version, at)
  }

  /** A battle opens once, from its scheduled state, and not before its start. */
  lemma OpensIff(b: Engine, at: int)
    ensures OpenBattle(b, at).Ok? <==> b.state == Scheduled && b.setup.clock.battleStartAt <= at
    ensures OpenBattle(b, at).Ok? ==> OpenBattle(b, at).value == b.(state := Live)
  {
  }

  /** Which way a live battle ends: it waits for late data up to the limit, and is given up with none or with nothing to score. */
  lemma EndsIff(b: Engine, hist: History, at: int, hash: Option<string>, config: Config, complete: bool, h: Hashing)
    requires Tells(b, hist, config, h) && b.state == Live
    ensures var o, end := FinalizeBattle(b, at, hash, config, complete, h), b.setup.clock.battleEndAt;
            && (at < end ==> o.Err?)
            && (o.Ok? && o.value.Waiting? <==> !complete && end <= at < end + config.maxWait)
            && (o.Ok? && o.value.GaveUp? <==> end <= at && if complete then hist.ticks == [] else end + config.maxWait <= at)
            && (o.Ok? && o.value.Waiting? ==> o.value.state == b)
            && (o.Ok? && o.value.GaveUp? ==> o.value.state == b.(state := Void))
  {
    hide Tells, ScoreBattle, Conclude;
    if b.tickSequence == 0 {
      NothingToScore(b, hist, config, h);
      SequenceCounts(b, hist, config, h);
    } else {
      ScoreStored(b, hist, config, h);
      Concludes(b, ScoreOf(b, config), at, hash, config, h);
    }
    hide Dated, Labels;
  }

  lemma SequenceCounts(b: Engine, hist: History, config: Config, h: Hashing)
    requires Tells(b, hist, config, h)
    ensures b.tickSequence == |hist.ticks|
  {
  }

  lemma SettledMeans(b: Engine, at: int, hash: Option<string>, config: Config, complete: bool, h: Hashing)
    requires var o := FinalizeBattle(b, at, hash, config, complete, h); o.Ok? && o.value.Settled?
    ensures complete && at >= b.setup.clock.battleEndAt && b.state == Live
    ensures b.tickSequence > 0 && b.last.Some? && ScoreBattle(b.last.value.0, b.last.value.1, config.scoring).Ok?
    ensures FinalizeBattle(b, at, hash, config, complete, h) == Conclude(b, ScoreOf(b, config), at, hash, config, h)
  {
    hide ScoreBattle, Conclude;
  }

  lemma Concludes(b: Engine, score: BattleScore, at: int, hash: Option<string>, config: Config, h: Hashing)
    ensures var o := Conclude(b, score, at, hash, config, h);
            var decided := ResolveBattle(score, hash, b.setup.battleId, h.tieBit);
            && (o.Ok? <==> decided.Ok? && Ordered(config.victory))
            && (o.Ok? ==>
                  var confidence := if decided.value.side == LeftSide then b.setup.leftLabel else b.setup.rightLabel;
                  && o.value.Settled?
                  && o.value.state == b.(state := Finalized, leftScore := score.LeftTotal(), rightScore := score.RightTotal())
                  && o.value.result.score == score && o.value.result.evidenceHash == b.evidenceHash
                  && o.value.result.winner == (if decided.value.side == LeftSide then b.setup.left else b.setup.right)
                  && Dated(o.value.result, b.setup, config, at)
                  && o.value.result.tiebreak == decided.value.tiebreak
                  && o.value.result.tiebreakHash == (if decided.value.tiebreak == Some(ChainDerived) then hash else None)
                  && Labels(o.value.result.victory, decided.value.margin, confidence,
                            M.WasComeback(b.momentum, M.Advantage(score.LeftTotal()), config.momentum.comeback), config.victory))
  {
    var decided := ResolveBattle(score, hash, b.setup.battleId, h.tieBit);
    if decided.Ok? {
      VictoryIff(decided.value.margin, if decided.value.side == LeftSide then b.setup.leftLabel else b.setup.rightLabel,
                 M.WasComeback(b.momentum, M.Advantage(score.LeftTotal()), config.momentum.comeback), config.victory);
    }
    hide M.Advantage, M.WasComeback, ResolveBattle, ClassifyVictory, Labels;
  }

  /** Once settled or given up, nothing moves a battle again. */
  lemma ExactlyOnce(b: Engine, at: int, hash: Option<string>, config: Config, complete: bool, h: Hashing,
                    at2: int, hash2: Option<string>, config2: Config, complete2: bool, input: TickInput)
    requires var o := FinalizeBattle(b, at, hash, config, complete, h); o.Ok? && !o.value.Waiting?
    ensures var s := FinalizeBattle(b, at, hash, config, complete, h).value.state;
            && FinalizeBattle(s, at2, hash2, config2, complete2, h).Err?
            && OpenBattle(s, at2).Err?
            && ApplyTick(s, input, config2, h) == Ok(Ignored(s, "battle is not live"))
  {
    hide ScoreBattle, M.Advantage, M.WasComeback, ResolveBattle, M.NextMomentum;
  }

  /** The battle would go to the chain, and the chain cannot answer. */
  ghost predicate StuckInDeadHeat(b: Engine, hash: Option<string>, config: Config) {
    && b.last.Some?
    && var score := ScoreBattle(b.last.value.0, b.last.value.1, config.scoring);
       score.Ok? && NeedsChainTiebreak(score.value) && (hash.None? || !ValidHash(hash.value) || b.setup.battleId == "")
  }

  /** Finalization refuses a live battle in two cases only: too early, or a dead heat without a usable block hash. */
  lemma FinalizeRefusesIff(b: Engine, hist: History, at: int, hash: Option<string>, config: Config, complete: bool,
      h: Hashing)
    requires Tells(b, hist, config, h) && b.state == Live && Ordered(config.victory)
    ensures FinalizeBattle(b, at, hash, config, complete, h).Err? <==>
              at < b.setup.clock.battleEndAt || (complete && StuckInDeadHeat(b, hash, config))
  {
    hide Tells, ScoreBattle, M.Advantage, M.WasComeback, ResolveBattle, ClassifyVictory, NeedsChainTiebreak, ValidHash, Chain, Conclude;
    if b.tickSequence == 0 {
      NothingToScore(b, hist, config, h);
    } else {
      ScoreStored(b, hist, config, h);
      HashMattersIff(ScoreOf(b, config), hash, b.setup.battleId, h.tieBit);
      Concludes(b, ScoreOf(b, config), at, hash, config, h);
    }
  }

  /**
   Two battles with one digest accepted the same ticks, and so hold the same
   score, inputs and momentum, whatever else was offered to either of them; or two
   different texts hashed for them collide.
  */
  lemma DigestFixesBattle(a: Engine, b: Engine, ha: History, hb: History, ca: Config, cb: Config, h: Hashing)
    requires Fixed(h.digest)
    requires Tells(a, ha, ca, h) && Tells(b, hb, cb, h)
    requires a.tickSequence > 0 && b.tickSequence > 0 && a.evidenceHash == b.evidenceHash
    ensures Collide(ha.ticks, hb.ticks, h.digest)
            || (ha.ticks == hb.ticks
                && (a.tickSequence, a.momentum, a.leftScore, a.rightScore, a.last, a.lastTickAt)
                   == (b.tickSequence, b.momentum, b.leftScore, b.rightScore, b.last, b.lastTickAt))
  {
    hide Collide, Fixed;
    DigestFixesHistory(ha.ticks, hb.ticks, h.digest);
    hide ScoreBattle, M.Remember, M.Advantage, InWindow, Numbered, Chain, Advantages, M.WasComeback;
  }
}

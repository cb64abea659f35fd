/**
 A round of simultaneous battles, packages/battle-engine/src/round.ts: created,
 locked, ticked, finalized once, and paid for in War Points.
 */
module Round {
  import opened BattleEngine
  import opened Cards
  import opened Counting
  import opened Evidence
  import opened Resolution
  import opened Scoring
  import opened Text
  import opened Wrappers
  import Matchmaking

  type Wallet = string

  datatype RoundPhase = Preparing | PickOpen | Locking | BattleLive | Finalizing | RoundFinalized | RoundVoid

  predicate CanTransitionRound(from: RoundPhase, to: RoundPhase) {
    match from
    case Preparing => to == PickOpen || to == RoundVoid
    case PickOpen => to == Locking || to == RoundVoid
    case Locking => to == BattleLive || to == RoundVoid
    case BattleLive => to == Finalizing || to == RoundVoid
    case Finalizing => to == RoundFinalized || to == RoundVoid
    case RoundFinalized => false
    case RoundVoid => false
  }

  function Order(p: RoundPhase): nat {
    match p
    case Preparing => 0
    case PickOpen => 1
    case Locking => 2
    case BattleLive => 3
    case Finalizing => 4
    case RoundFinalized => 5
    case RoundVoid => 6
  }

  /** A round goes through its phases one at a time, can be voided from any but the last, and leaves neither end. */
  lemma PhasesInOrder(from: RoundPhase, to: RoundPhase)
    ensures CanTransitionRound(from, to) <==>
              from != RoundFinalized && from != RoundVoid && (to == RoundVoid || Order(to) == Order(from) + 1)
  {
  }

  // ---------------------------------------------------------------------
  // Cards
  // ---------------------------------------------------------------------

  /** A list of cards, channel by channel. */
  ghost function SupportSum(cards: seq<CardType>): CardSupport {
    CardSupport(SumBy(cards, c => SupportOf(c).market), SumBy(cards, c => SupportOf(c).volume),
                SumBy(cards, c => SupportOf(c).pons), SumBy(cards, c => SupportOf(c).general))
  }

  lemma SupportOfOneMore(cards: seq<CardType>, card: CardType)
    ensures var s, c := SupportSum(cards), SupportOf(card);
            SupportSum(cards + [card])
            == CardSupport(s.market + c.market, s.volume + c.volume, s.pons + c.pons, s.general + c.general)
  {
    SumByJoins(cards, [card], c => SupportOf(c).market);
    SumByJoins(cards, [card], c => SupportOf(c).volume);
    SumByJoins(cards, [card], c => SupportOf(c).pons);
    SumByJoins(cards, [card], c => SupportOf(c).general);
  }

  method AggregateCardSupport(cards: seq<CardType>) returns (total: CardSupport)
    ensures total == SupportSum(cards)
  {
    total := NO_SUPPORT;
    for i := 0 to |cards|
      invariant total == SupportSum(cards[..i])
    {
      var c := SupportOf(cards[i]);
      SupportOfOneMore(cards[..i], cards[i]);
      assert cards[..i + 1] == cards[..i] + [cards[i]];
      total := CardSupport(total.market + c.market, total.volume + c.volume, total.pons + c.pons, total.general + c.general);
    }
    assert cards[..|cards|] == cards;
  }

  datatype Pick = Pick(wallet: Wallet, battleId: BattleId, backed: Ticker, card: Option<CardType>)

  function CardsBehind(picks: seq<Pick>, battleId: BattleId, ticker: Ticker): seq<CardType> {
    if picks == [] then []
    else
      var p := picks[0];
      (if p.battleId == battleId && p.backed == ticker && p.card.Some? then [p.card.value] else [])
      + CardsBehind(picks[1..], battleId, ticker)
  }

  /** A channel of some support: the market, the volume, the Pons and the general one. */
  ghost function Channel(s: CardSupport, k: nat): int {
    if k == 0 then s.market else if k == 1 then s.volume else if k == 2 then s.pons else s.general
  }

  /** What a pick gives one channel of a side: its card's support, if it backs the side with one. */
  ghost function Gives(battleId: BattleId, ticker: Ticker, k: nat): Pick -> int {
    (p: Pick) => if p.battleId == battleId && p.backed == ticker && p.card.Some? then Channel(SupportOf(p.card.value), k) else 0
  }

  lemma SupportOfFirst(card: CardType, cards: seq<CardType>, k: nat)
    ensures Channel(SupportSum([card] + cards), k) == Channel(SupportOf(card), k) + Channel(SupportSum(cards), k)
    ensures Channel(SupportSum([]), k) == 0
  {
    assert ([card] + cards)[1..] == cards;
  }

  /** The support behind a side is, channel by channel, what its picks give. */
  lemma {:induction false} SupportIsGiven(picks: seq<Pick>, battleId: BattleId, ticker: Ticker, k: nat)
    ensures Channel(SupportSum(CardsBehind(picks, battleId, ticker)), k) == SumBy(picks, Gives(battleId, ticker, k))
  {
    hide SupportSum, Channel, SupportOf;
    if picks == [] {
      SupportOfFirst(SecretStockDrop, [], k);
    } else {
      var rest := CardsBehind(picks[1..], battleId, ticker);
      assert [] + rest == rest;
      SupportIsGiven(picks[1..], battleId, ticker, k);
      if picks[0].card.Some? {
        SupportOfFirst(picks[0].card.value, rest, k);
      }
    }
  }

  // ---------------------------------------------------------------------
  // The round
  // ---------------------------------------------------------------------

  datatype RoundState = RoundState(
    roundId: string,
    phase: RoundPhase,
    clock: Clock,
    battles: seq<Engine>,
    picks: seq<Pick>)

  function BattleIdFor(roundId: string, slot: nat): BattleId {
    roundId + "-b" + Numeral(slot)
  }

  /** The battles of a schedule; a ticker without a confidence reading makes no round. */
  function CreateRound(roundId: string, clock: Clock, pairings: seq<Matchmaking.Pairing>,
                       intel: (Ticker, Ticker) -> Option<(Confidence, Confidence)>): Result<RoundState, string>
  {
    if exists i | 0 <= i < |pairings| :: intel(pairings[i].left, pairings[i].right).None? then Err("RangeError")
    else
      Ok(RoundState(roundId, PickOpen, clock,
                    seq(|pairings|, slot requires 0 <= slot < |pairings| =>
                      var p := pairings[slot];
                      var labels := intel(p.left, p.right);
                      if labels.None? then assert false; BeginBattle(Setup("", "", "", "", clock, Even, Even))
                      else BeginBattle(Setup(BattleIdFor(roundId, slot), roundId, p.left, p.right, clock, labels.value.0, labels.value.1))),
                    []))
  }

  ghost predicate DistinctIds(battles: seq<Engine>) {
    forall i, j | 0 <= i < j < |battles| :: battles[i].setup.battleId != battles[j].setup.battleId
  }

  /** A created round has as many battles as pairings, each under its own id, none of them open. */
  lemma CreatedRound(roundId: string, clock: Clock, pairings: seq<Matchmaking.Pairing>,
                     intel: (Ticker, Ticker) -> Option<(Confidence, Confidence)>)
    requires CreateRound(roundId, clock, pairings, intel).Ok?
    ensures var r := CreateRound(roundId, clock, pairings, intel).value;
            && r.phase == PickOpen && |r.battles| == |pairings| && DistinctIds(r.battles)
            && (forall i | 0 <= i < |pairings| ::
                  var s := r.battles[i].setup;
                  var labels := intel(pairings[i].left, pairings[i].right).value;
                  && r.battles[i] == BeginBattle(s) && (s.left, s.right) == (pairings[i].left, pairings[i].right) && s.clock == clock
                  && (s.leftLabel, s.rightLabel) == labels && s.roundId == roundId
                  && r.battles[i].state == Scheduled && r.battles[i].last.None? && r.battles[i].tickSequence == 0)
  {
    var r := CreateRound(roundId, clock, pairings, intel).value;
    forall i, j | 0 <= i < j < |r.battles|
      ensures r.battles[i].setup.battleId != r.battles[j].setup.battleId
    {
      IdsDiffer(roundId, i, j);
    }
  }

  lemma IdsDiffer(roundId: string, i: nat, j: nat)
    requires i != j
    ensures BattleIdFor(roundId, i) != BattleIdFor(roundId, j)
  {
    if BattleIdFor(roundId, i) == BattleIdFor(roundId, j) {
      var p := roundId + "-b";
      assert (p + Numeral(i))[|p|..] == Numeral(i) && (p + Numeral(j))[|p|..] == Numeral(j);
      NumeralInjective(i, j);
    }
  }

  // ---------------------------------------------------------------------
  // Locking
  // ---------------------------------------------------------------------

  predicate HasBattle(battles: seq<Engine>, id: BattleId) {
    exists i | 0 <= i < |battles| :: battles[i].setup.battleId == id
  }

  ghost predicate OnePickEach(picks: seq<Pick>) {
    forall i, j | 0 <= i < j < |picks| :: picks[i].wallet != picks[j].wallet
  }

  ghost predicate PicksFit(picks: seq<Pick>, battles: seq<Engine>) {
    OnePickEach(picks) && forall i | 0 <= i < |picks| :: HasBattle(battles, picks[i].battleId)
  }

  /** A battle opened with the cards behind each side. */
  ghost function Opened(b: Engine, picks: seq<Pick>): Engine {
    b.(state := Live,
       leftSupport := SupportSum(CardsBehind(picks, b.setup.battleId, b.setup.left)),
       rightSupport := SupportSum(CardsBehind(picks, b.setup.battleId, b.setup.right)))
  }

  ghost predicate Lockable(r: RoundState, at: int, picks: seq<Pick>) {
    && r.phase == PickOpen && r.clock.lockAt <= at && PicksFit(picks, r.battles)
    && AllOpen(r.battles, at)
  }

  ghost function Locked(r: RoundState, picks: seq<Pick>): RoundState {
    r.(phase := BattleLive, picks := picks,
       battles := seq(|r.battles|, i requires 0 <= i < |r.battles| => Opened(r.battles[i], picks)))
  }

  /** Locking keeps the round's name, clock and battles, and takes down the picks. */
  lemma LockedRound(r: RoundState, picks: seq<Pick>)
    ensures var s := Locked(r, picks);
            (s.roundId, s.clock, s.picks, s.phase, |s.battles|) == (r.roundId, r.clock, picks, BattleLive, |r.battles|)
  {
  }

  /** A locked battle is the same battle, live, with what the picks that back each side in it give. */
  lemma LockedSupport(r: RoundState, picks: seq<Pick>, i: nat, k: nat)
    requires i < |r.battles|
    ensures var b, setup := Locked(r, picks).battles[i], r.battles[i].setup;
            && b == r.battles[i].(state := Live, leftSupport := b.leftSupport, rightSupport := b.rightSupport)
            && Channel(b.leftSupport, k) == SumBy(picks, Gives(setup.battleId, setup.left, k))
            && Channel(b.rightSupport, k) == SumBy(picks, Gives(setup.battleId, setup.right, k))
  {
    SupportIsGiven(picks, r.battles[i].setup.battleId, r.battles[i].setup.left, k);
    SupportIsGiven(picks, r.battles[i].setup.battleId, r.battles[i].setup.right, k);
    hide SupportSum, SumBy, Gives, CardsBehind, Channel;
  }

  lemma PickRepeats(picks: seq<Pick>, k: nat, i: nat)
    requires k < i < |picks| && picks[k].wallet == picks[i].wallet
    ensures !OnePickEach(picks)
  {
  }

  lemma PickIsNew(picks: seq<Pick>, i: nat)
    requires i < |picks| && OnePickEach(picks[..i])
    requires forall k | 0 <= k < i :: picks[k].wallet != picks[i].wallet
    ensures OnePickEach(picks[..i + 1])
  {
  }

  /** Picks fit a round when each is on one of its battles and no wallet has two. */
  lemma FitIff(picks: seq<Pick>, battles: seq<Engine>)
    ensures PicksFit(picks, battles) <==>
              && (forall p | p in picks :: exists b | b in battles :: b.setup.battleId == p.battleId)
              && (forall i, j | 0 <= i < j < |picks| :: picks[i].wallet != picks[j].wallet)
  {
    if forall p | p in picks :: exists b | b in battles :: b.setup.battleId == p.battleId {
      forall i | 0 <= i < |picks|
        ensures HasBattle(battles, picks[i].battleId)
      {
        assert picks[i] in picks;
        var b :| b in battles && b.setup.battleId == picks[i].battleId;
      }
    }
    if PicksFit(picks, battles) {
      forall p | p in picks
        ensures exists b | b in battles :: b.setup.battleId == p.battleId
      {
        var k :| 0 <= k < |picks| && picks[k] == p;
        assert HasBattle(battles, picks[k].battleId);
      }
    }
  }

  method CheckPicks(picks: seq<Pick>, battles: seq<Engine>) returns (ok: bool)
    ensures ok <==> PicksFit(picks, battles)
  {
    hide OnePickEach, HasBattle;
    var seen: set<Wallet> := {};
    EmptyPicks(picks);
    for i := 0 to |picks|
      invariant OnePickEach(picks[..i])
      invariant forall w :: w in seen <==> exists k :: 0 <= k < i && picks[k].wallet == w
      invariant forall k | 0 <= k < i :: HasBattle(battles, picks[k].battleId)
    {
      if picks[i].wallet in seen {
        var k :| 0 <= k < i && picks[k].wallet == picks[i].wallet;
        PickRepeats(picks, k, i);
        return false;
      }
      PickIsNew(picks, i);
      seen := seen + {picks[i].wallet};
      if !HasBattle(battles, picks[i].battleId) {
        return false;
      }
    }
    assert picks[..|picks|] == picks;
    return true;
  }

  lemma EmptyPicks(picks: seq<Pick>)
    ensures OnePickEach(picks[..0])
  {
  }

  ghost predicate AllOpen(battles: seq<Engine>, at: int) {
    forall i | 0 <= i < |battles| :: OpenBattle(battles[i], at).Ok?
  }

  method OpenBattles(before: seq<Engine>, at: int, picks: seq<Pick>) returns (battles: Result<seq<Engine>, string>)
    ensures battles.Ok? <==> AllOpen(before, at)
    ensures battles.Ok? ==> battles.value == seq(|before|, i requires 0 <= i < |before| => Opened(before[i], picks))
  {
    var opening: seq<Engine> := [];
    hide SupportSum, CardsBehind;
    for i := 0 to |before|
      invariant |opening| == i && AllOpen(before[..i], at)
      invariant opening == seq(i, k requires 0 <= k < i => Opened(before[k], picks))
    {
      var b := before[i];
      var open := OpenBattle(b, at);
      if open.Err? {
        return Err(open.error);
      }
      var left := AggregateCardSupport(CardsBehind(picks, b.setup.battleId, b.setup.left));
      var right := AggregateCardSupport(CardsBehind(picks, b.setup.battleId, b.setup.right));
      opening := opening + [open.value.(leftSupport := left, rightSupport := right)];
    }
    assert before[..|before|] == before;
    return Ok(opening);
  }

  method LockRound(r: RoundState, at: int, picks: seq<Pick>) returns (locked: Result<RoundState, string>)
    ensures locked.Ok? <==> Lockable(r, at, picks)
    ensures locked.Ok? ==> locked.value == Locked(r, picks)
  {
    hide PicksFit, AllOpen, Opened;
    if !CanTransitionRound(r.phase, Locking) {
      return Err("Cannot lock a round in this state");
    }
    if at < r.clock.lockAt {
      return Err("A round cannot lock before its lock instant");
    }
    var fit := CheckPicks(picks, r.battles);
    if !fit {
      return Err("a second pick for a wallet, or a pick outside the round");
    }
    var battles := OpenBattles(r.battles, at, picks);
    if battles.Err? {
      return Err(battles.error);
    }
    return Ok(r.(phase := BattleLive, picks := picks, battles := battles.value));
  }

  // ---------------------------------------------------------------------
  // Ticking
  // ---------------------------------------------------------------------

  datatype Event = Event(battleId: BattleId, input: TickInput)

  function BattleStep(b: Engine, e: Event, config: Config, h: Hashing): Result<Engine, string> {
    if b.setup.battleId != e.battleId then Ok(b)
    else match ApplyTick(b, e.input, config, h)
      case Err(x) => Err(x)
      case Ok(o) => Ok(o.state)
  }

  /** One observation for one battle, the others untouched. */
  function TickBattle(r: RoundState, e: Event, config: Config, h: Hashing): Result<RoundState, string> {
    if exists i | 0 <= i < |r.battles| :: BattleStep(r.battles[i], e, config, h).Err? then Err("throws")
    else Ok(r.(battles := seq(|r.battles|, i requires 0 <= i < |r.battles| => ValueOr(BattleStep(r.battles[i], e, config, h), r.battles[i]))))
  }

  function ValueOr(x: Result<Engine, string>, otherwise: Engine): Engine {
    if x.Ok? then x.value else otherwise
  }

  ghost function TickAll(r: RoundState, events: seq<Event>, config: Config, h: Hashing): Result<RoundState, string>
    decreases |events|
  {
    if events == [] then Ok(r)
    else match TickBattle(r, events[0], config, h)
      case Err(x) => Err("throws")
      case Ok(next) => TickAll(next, events[1..], config, h)
  }

  /** What a list of events holds for one battle, in order. */
  function Inputs(events: seq<Event>, id: BattleId): seq<TickInput>
    decreases |events|
  {
    if events == [] then []
    else (if events[0].battleId == id then [events[0].input] else []) + Inputs(events[1..], id)
  }

  /** Every battle runs alone on its own inputs. */
  ghost predicate EachRuns(r: RoundState, events: seq<Event>, config: Config, h: Hashing) {
    forall i | 0 <= i < |r.battles| :: RunTicks(r.battles[i], Inputs(events, r.battles[i].setup.battleId), config, h).Ok?
  }

  ghost function EachRun(r: RoundState, events: seq<Event>, config: Config, h: Hashing): RoundState {
    r.(battles := seq(|r.battles|, i requires 0 <= i < |r.battles| =>
         ValueOr(RunTicks(r.battles[i], Inputs(events, r.battles[i].setup.battleId), config, h), r.battles[i])))
  }

  lemma StepKeepsSetup(b: Engine, e: Event, config: Config, h: Hashing)
    requires BattleStep(b, e, config, h).Ok?
    ensures BattleStep(b, e, config, h).value.setup == b.setup
  {
    hide ScoreBattle, FoldEvidence;
  }

  function RunOn(b: Result<Engine, string>, inputs: seq<TickInput>, config: Config,
      h: Hashing): Result<Engine, string> {
    match b
    case Err(x) => Err(x)
    case Ok(next) => RunTicks(next, inputs, config, h)
  }

  /** One battle's run over a list of events, first event first. */
  lemma RunSplits(b: Engine, events: seq<Event>, config: Config, h: Hashing)
    requires events != []
    ensures var id := b.setup.battleId;
            RunTicks(b, Inputs(events, id), config, h)
            == RunOn(BattleStep(b, events[0], config, h), Inputs(events[1..], id), config, h)
  {
    hide ApplyTick;
    var id := b.setup.battleId;
    if events[0].battleId == id {
      assert Inputs(events, id)[1..] == Inputs(events[1..], id);
    } else {
      assert Inputs(events, id) == Inputs(events[1..], id);
    }
  }

  /** A round run is its battles' own runs, side by side. */
  lemma {:induction false} RoundIsItsBattles(r: RoundState, events: seq<Event>, config: Config, h: Hashing)
    ensures TickAll(r, events, config, h)
            == if EachRuns(r, events, config, h) then Ok(EachRun(r, events, config, h)) else Err("throws")
    decreases |events|
  {
    hide RunTicks, BattleStep;
    if events == [] {
      NoEvents(r, config, h);
    } else {
      forall i | 0 <= i < |r.battles|
        ensures var b := r.battles[i];
                RunTicks(b, Inputs(events, b.setup.battleId), config, h)
                == RunOn(BattleStep(b, events[0], config, h), Inputs(events[1..], b.setup.battleId), config, h)
        ensures BattleStep(r.battles[i], events[0], config, h).Ok? ==>
                  BattleStep(r.battles[i], events[0], config, h).value.setup == r.battles[i].setup
      {
        RunSplits(r.battles[i], events, config, h);
        if BattleStep(r.battles[i], events[0], config, h).Ok? {
          StepKeepsSetup(r.battles[i], events[0], config, h);
        }
      }
      var first := TickBattle(r, events[0], config, h);
      if first.Ok? {
        RoundIsItsBattles(first.value, events[1..], config, h);
        NextRuns(r, first.value, events, config, h);
      } else {
        var i :| 0 <= i < |r.battles| && BattleStep(r.battles[i], events[0], config, h).Err?;
        assert RunTicks(r.battles[i], Inputs(events, r.battles[i].setup.battleId), config, h).Err?;
      }
    }
  }

  lemma NoEvents(r: RoundState, config: Config, h: Hashing)
    ensures EachRuns(r, [], config, h) && EachRun(r, [], config, h) == r
  {
    assert EachRun(r, [], config, h).battles == r.battles;
  }

  lemma NextRuns(r: RoundState, next: RoundState, events: seq<Event>, config: Config, h: Hashing)
    requires events != [] && |next.battles| == |r.battles| && next == r.(battles := next.battles)
    requires forall i | 0 <= i < |r.battles| ::
               && next.battles[i].setup == r.battles[i].setup
               && RunTicks(r.battles[i], Inputs(events, r.battles[i].setup.battleId), config, h)
                  == RunTicks(next.battles[i], Inputs(events[1..], r.battles[i].setup.battleId), config, h)
    ensures EachRuns(r, events, config, h) <==> EachRuns(next, events[1..], config, h)
    ensures EachRuns(r, events, config, h) ==> EachRun(r, events, config, h) == EachRun(next, events[1..], config, h)
  {
    hide RunTicks, Inputs;
    if EachRuns(next, events[1..], config, h) {
      forall i | 0 <= i < |r.battles|
        ensures RunTicks(r.battles[i], Inputs(events, r.battles[i].setup.battleId), config, h).Ok?
      {
        assert RunTicks(next.battles[i], Inputs(events[1..], next.battles[i].setup.battleId), config, h).Ok?;
      }
    }
    if EachRuns(r, events, config, h) {
      forall i | 0 <= i < |r.battles|
        ensures RunTicks(next.battles[i], Inputs(events[1..], next.battles[i].setup.battleId), config, h).Ok?
      {
        assert RunTicks(r.battles[i], Inputs(events, r.battles[i].setup.battleId), config, h).Ok?;
      }
      assert EachRun(r, events, config, h).battles == EachRun(next, events[1..], config, h).battles;
    }
  }

  ghost predicate SameForEachBattle(r: RoundState, a: seq<Event>, b: seq<Event>) {
    forall i | 0 <= i < |r.battles| ::
      Inputs(a, r.battles[i].setup.battleId) == Inputs(b, r.battles[i].setup.battleId)
  }

  /**
   Any two interleavings that keep each battle's own order reach the same round,
   digests included, or both throw.
  */
  lemma InterleavingIsIrrelevant(r: RoundState, a: seq<Event>, b: seq<Event>, config: Config, h: Hashing)
    requires SameForEachBattle(r, a, b)
    ensures TickAll(r, a, config, h) == TickAll(r, b, config, h)
  {
    RoundIsItsBattles(r, a, config, h);
    RoundIsItsBattles(r, b, config, h);
    hide RunTicks, Inputs, TickAll;
    assert EachRun(r, a, config, h).battles == EachRun(r, b, config, h).battles;
  }
}

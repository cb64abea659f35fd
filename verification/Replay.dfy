/**
 Recording a round and running it again, packages/replay/src/recording.ts. The
 recording groups ticks by battle; the live round took them as they came.
 */
module Replay {
  import opened BattleEngine
  import opened Evidence
  import opened Resolution
  import opened Round
  import opened RoundFinalization
  import opened Scoring
  import opened Wrappers
  import Matchmaking

  datatype TickLog = TickLog(battleId: BattleId, ticks: seq<TickInput>)

  /** What a round consumed, with the schedule its seed gives and the labels its lookbacks give. */
  datatype Recording = Recording(
    roundId: string,
    clock: Clock,
    pairings: seq<Matchmaking.Pairing>,
    intel: (Ticker, Ticker) -> Option<(Confidence, Confidence)>,
    picks: seq<Pick>,
    tickLogs: seq<TickLog>,
    finalizationBlockHash: Option<string>,
    config: Config)

  function EventsOf(id: BattleId, ticks: seq<TickInput>): seq<Event> {
    seq(|ticks|, i requires 0 <= i < |ticks| => Event(id, ticks[i]))
  }

  /** The recorded ticks in recorded order, one battle after another. */
  function Grouped(logs: seq<TickLog>): seq<Event> {
    if logs == [] then [] else EventsOf(logs[0].battleId, logs[0].ticks) + Grouped(logs[1..])
  }

  /** A round run to its end: created, locked, ticked by `events`, finalized at `at`. */
  ghost function Run(rec: Recording, events: seq<Event>, at: int, h: Hashing): Result<RoundOutcome, string> {
    match CreateRound(rec.roundId, rec.clock, rec.pairings, rec.intel)
    case Err(_) => Err("throws")
    case Ok(created) =>
      if !Lockable(created, rec.clock.lockAt, rec.picks) then Err("throws")
      else RunLocked(Locked(created, rec.picks), rec, events, at, h)
  }

  ghost function RunLocked(locked: RoundState, rec: Recording, events: seq<Event>, at: int,
      h: Hashing): Result<RoundOutcome, string> {
    match TickAll(locked, events, rec.config, h)
    case Err(_) => Err("throws")
    case Ok(state) => Finalization(state, at, rec.finalizationBlockHash, rec.config, true, h)
  }

  /** The same run, finalized without the late data it was waiting for. */
  ghost function RunIncomplete(rec: Recording, events: seq<Event>, at: int, h: Hashing): Result<RoundOutcome, string> {
    match Ticked(rec, events, h)
    case None => Err("throws")
    case Some(state) => Finalization(state, at, rec.finalizationBlockHash, rec.config, false, h)
  }

  /** The round after its ticks, if it gets that far. */
  ghost function Ticked(rec: Recording, events: seq<Event>, h: Hashing): Option<RoundState> {
    match CreateRound(rec.roundId, rec.clock, rec.pairings, rec.intel)
    case Err(_) => None
    case Ok(created) =>
      if !Lockable(created, rec.clock.lockAt, rec.picks) then None
      else
        match TickAll(Locked(created, rec.picks), events, rec.config, h)
        case Err(_) => None
        case Ok(state) => Some(state)
  }

  lemma {:induction false} TickAllJoins(r: RoundState, a: seq<Event>, b: seq<Event>, config: Config, h: Hashing)
    ensures TickAll(r, a + b, config, h)
            == if TickAll(r, a, config, h).Ok? then TickAll(TickAll(r, a, config, h).value, b, config, h) else Err("throws")
    decreases |a|
  {
    hide TickBattle;
    if a == [] {
      assert a + b == b;
    } else {
      assert (a + b)[1..] == a[1..] + b;
      if TickBattle(r, a[0], config, h).Ok? {
        TickAllJoins(TickBattle(r, a[0], config, h).value, a[1..], b, config, h);
      }
    }
  }

  lemma TickOne(r: RoundState, e: Event, config: Config, h: Hashing)
    ensures TickAll(r, [e], config, h).Ok? <==> TickBattle(r, e, config, h).Ok?
    ensures TickBattle(r, e, config, h).Ok? ==> TickAll(r, [e], config, h) == TickBattle(r, e, config, h)
  {
    hide TickBattle;
    assert [e][1..] == [];
  }

  /** The ticks of one log, in order. */
  method TickLogged(r: RoundState, log: TickLog, config: Config, h: Hashing) returns (after: Result<RoundState, string>)
    ensures after == TickAll(r, EventsOf(log.battleId, log.ticks), config, h)
  {
    var state := r;
    ghost var events := EventsOf(log.battleId, log.ticks);
    hide TickBattle, TickAll, EventsOf;
    NoTicks(r, config, h);
    assert |events| == |log.ticks| by { EventsAt(log.battleId, log.ticks); }
    assert events[..0] == [];
    for i := 0 to |log.ticks|
      invariant TickAll(r, events[..i], config, h) == Ok(state)
    {
      EventsAt(log.battleId, log.ticks);
      var next := TickBattle(state, Event(log.battleId, log.ticks[i]), config, h);
      assert events[..i + 1] == events[..i] + [events[i]];
      TickAllJoins(r, events[..i], [events[i]], config, h);
      TickOne(state, events[i], config, h);
      if next.Err? {
        assert events == events[..i + 1] + events[i + 1..];
        TickAllJoins(r, events[..i + 1], events[i + 1..], config, h);
        return Err("throws");
      }
      state := next.value;
    }
    assert events[..|log.ticks|] == events;
    return Ok(state);
  }

  lemma NoTicks(r: RoundState, config: Config, h: Hashing)
    ensures TickAll(r, [], config, h) == Ok(r)
  {
  }

  lemma EventsAt(id: BattleId, ticks: seq<TickInput>)
    ensures |EventsOf(id, ticks)| == |ticks|
    ensures forall i | 0 <= i < |ticks| :: EventsOf(id, ticks)[i] == Event(id, ticks[i])
  {
  }

  lemma {:induction false} GroupedGrows(logs: seq<TickLog>, i: nat)
    requires i < |logs|
    ensures Grouped(logs[..i + 1]) == Grouped(logs[..i]) + EventsOf(logs[i].battleId, logs[i].ticks)
  {
    hide EventsOf;
    if i == 0 {
      assert logs[..1][1..] == [] && logs[..0] == [];
      assert Grouped(logs[..1]) == EventsOf(logs[0].battleId, logs[0].ticks) + Grouped([]);
    } else {
      GroupedGrows(logs[1..], i - 1);
      assert logs[..i + 1][1..] == logs[1..][..i] && logs[..i][1..] == logs[1..][..i - 1];
    }
  }

  lemma GroupedTail(logs: seq<TickLog>, i: nat)
    requires i < |logs|
    ensures Grouped(logs[i..]) == EventsOf(logs[i].battleId, logs[i].ticks) + Grouped(logs[i + 1..])
  {
    hide EventsOf;
    assert logs[i..][1..] == logs[i + 1..];
  }

  lemma {:induction false} GroupedSplits(logs: seq<TickLog>, i: nat)
    requires i <= |logs|
    ensures Grouped(logs) == Grouped(logs[..i]) + Grouped(logs[i..])
    decreases |logs| - i
  {
    if i == |logs| {
      assert logs[..i] == logs && logs[i..] == [];
    } else {
      hide *;
      GroupedSplits(logs, i + 1);
      GroupedGrows(logs, i);
      GroupedTail(logs, i);
    }
  }

  method ReplayRound(rec: Recording, h: Hashing) returns (outcome: Result<RoundOutcome, string>)
    ensures outcome == Run(rec, Grouped(rec.tickLogs), rec.clock.battleEndAt, h)
  {
    var created := CreateRound(rec.roundId, rec.clock, rec.pairings, rec.intel);
    if created.Err? {
      return Err("throws");
    }
    var locked := LockRound(created.value, rec.clock.lockAt, rec.picks);
    if locked.Err? {
      return Err("throws");
    }
    var state := locked.value;
    var logs := rec.tickLogs;
    hide TickAll, Lockable, Locked, CreateRound, EventsOf, Finalization;
    NoTicks(state, rec.config, h);
    assert logs[..0] == [];
    for i := 0 to |logs|
      invariant TickAll(locked.value, Grouped(logs[..i]), rec.config, h) == Ok(state)
    {
      var next := TickLogged(state, logs[i], rec.config, h);
      GroupedGrows(logs, i);
      TickAllJoins(locked.value, Grouped(logs[..i]), EventsOf(logs[i].battleId, logs[i].ticks), rec.config, h);
      if next.Err? {
        GroupedSplits(logs, i + 1);
        TickAllJoins(locked.value, Grouped(logs[..i + 1]), Grouped(logs[i + 1..]), rec.config, h);
        return Err("throws");
      }
      state := next.value;
    }
    assert logs[..|logs|] == logs;
    outcome := FinalizeRound(state, rec.clock.battleEndAt, rec.finalizationBlockHash, rec.config, true, h);
  }

  // ---------------------------------------------------------------------
  // A replay is the round
  // ---------------------------------------------------------------------

  /** The record of a live round: for each battle, what was offered to it, in order. */
  function LogsOf(battles: seq<Engine>, events: seq<Event>): seq<TickLog> {
    if battles == [] then []
    else [TickLog(battles[0].setup.battleId, Inputs(events, battles[0].setup.battleId))] + LogsOf(battles[1..], events)
  }

  lemma {:induction false} InputsJoin(a: seq<Event>, b: seq<Event>, id: BattleId)
    ensures Inputs(a + b, id) == Inputs(a, id) + Inputs(b, id)
    decreases |a|
  {
    if a == [] {
      assert a + b == b;
    } else {
      assert (a + b)[1..] == a[1..] + b;
      InputsJoin(a[1..], b, id);
    }
  }

  lemma {:induction false} InputsOfLog(owner: BattleId, ticks: seq<TickInput>, id: BattleId)
    ensures Inputs(EventsOf(owner, ticks), id) == if owner == id then ticks else []
    decreases |ticks|
  {
    if ticks != [] {
      InputsOfLog(owner, ticks[1..], id);
      assert EventsOf(owner, ticks)[1..] == EventsOf(owner, ticks[1..]);
      assert ticks == [ticks[0]] + ticks[1..];
    }
  }

  lemma {:induction false} LogsKeepInputs(battles: seq<Engine>, events: seq<Event>, id: BattleId)
    requires DistinctIds(battles)
    ensures (exists i :: 0 <= i < |battles| && battles[i].setup.battleId == id) ==>
              Inputs(Grouped(LogsOf(battles, events)), id) == Inputs(events, id)
    ensures (forall i | 0 <= i < |battles| :: battles[i].setup.battleId != id) ==>
              Inputs(Grouped(LogsOf(battles, events)), id) == []
    decreases |battles|
  {
    hide Inputs, EventsOf;
    if battles == [] {
      NoInputs(id);
    } else {
      var owner := battles[0].setup.battleId;
      var logs := LogsOf(battles, events);
      assert forall j, k | 0 <= j < k < |battles| - 1 :: battles[1..][j].setup.battleId != battles[1..][k].setup.battleId;
      LogsKeepInputs(battles[1..], events, id);
      assert logs[1..] == LogsOf(battles[1..], events);
      InputsJoin(EventsOf(owner, Inputs(events, owner)), Grouped(logs[1..]), id);
      InputsOfLog(owner, Inputs(events, owner), id);
      assert forall i | 0 <= i < |battles| - 1 :: battles[1..][i] == battles[i + 1];
      if owner == id {
        assert forall i | 0 <= i < |battles| - 1 :: battles[1..][i].setup.battleId != id;
      } else if exists i :: 0 <= i < |battles| && battles[i].setup.battleId == id {
        var i :| 0 <= i < |battles| && battles[i].setup.battleId == id;
        assert battles[1..][i - 1].setup.battleId == id;
      }
    }
  }

  lemma NoInputs(id: BattleId)
    ensures Inputs([], id) == []
  {
  }

  /**
   The recording of any live run, however its battles' ticks interleaved, replays to
   that run's outcome: state, digests, results, voids and awards, or the same refusal.
  */
  lemma ReplayReproduces(rec: Recording, live: seq<Event>, h: Hashing)
    requires CreateRound(rec.roundId, rec.clock, rec.pairings, rec.intel).Ok?
    requires rec.tickLogs == LogsOf(CreateRound(rec.roundId, rec.clock, rec.pairings, rec.intel).value.battles, live)
    ensures Run(rec, Grouped(rec.tickLogs), rec.clock.battleEndAt, h) == Run(rec, live, rec.clock.battleEndAt, h)
  {
    var created := CreateRound(rec.roundId, rec.clock, rec.pairings, rec.intel).value;
    CreatedRound(rec.roundId, rec.clock, rec.pairings, rec.intel);
    if Lockable(created, rec.clock.lockAt, rec.picks) {
      hide CreateRound, Lockable, TickAll, Inputs, Grouped, LogsOf, Finalization, DistinctIds;
      var locked := Locked(created, rec.picks);
      forall i | 0 <= i < |locked.battles|
        ensures Inputs(Grouped(rec.tickLogs), locked.battles[i].setup.battleId) == Inputs(live, locked.battles[i].setup.battleId)
      {
        assert created.battles[i].setup.battleId == locked.battles[i].setup.battleId;
        LogsKeepInputs(created.battles, live, created.battles[i].setup.battleId);
      }
      InterleavingIsIrrelevant(locked, Grouped(rec.tickLogs), live, rec.config, h);
    }
  }

  /**
   A live round finalized at any instant after the cutoff, on complete data, is the
   round its recording replays to: only the dates on the results may differ.
  */
  lemma ReplayReproducesLate(rec: Recording, live: seq<Event>, at: int, h: Hashing)
    requires CreateRound(rec.roundId, rec.clock, rec.pairings, rec.intel).Ok?
    requires rec.tickLogs == LogsOf(CreateRound(rec.roundId, rec.clock, rec.pairings, rec.intel).value.battles, live)
    requires at >= rec.clock.battleEndAt
    ensures var x, y := Run(rec, Grouped(rec.tickLogs), rec.clock.battleEndAt, h), Run(rec, live, at, h);
            && (x.Ok? <==> y.Ok?)
            && (x.Ok? ==> x.value.state == y.value.state && x.value.voided == y.value.voided && x.value.awards == y.value.awards
                          && SameResults(x.value.results, y.value.results))
  {
    hide LogsOf, Grouped;
    ReplayReproduces(rec, live, h);
    var created := CreateRound(rec.roundId, rec.clock, rec.pairings, rec.intel).value;
    CreatedRound(rec.roundId, rec.clock, rec.pairings, rec.intel);
    if Lockable(created, rec.clock.lockAt, rec.picks) {
      var locked := Locked(created, rec.picks);
      var ticked := TickAll(locked, live, rec.config, h);
      if ticked.Ok? {
        LockedSound(created, rec.clock.lockAt, rec.picks, rec.config, h);
        TicksKeepSound(locked, live, rec.config, h);
        hide CreateRound, Lockable, Locked, TickAll, Finalization, DistinctIds, Sound, OnePickEach;
        FinalizationAnyTime(ticked.value, rec.clock.battleEndAt, at, rec.finalizationBlockHash, rec.config, h);
      }
    }
  }

  // ---------------------------------------------------------------------
  // A round finalized on incomplete data
  // ---------------------------------------------------------------------

  /** Two finalizations of one round, up to the instant they carry. */
  ghost predicate SameOutcome(x: Result<RoundOutcome, string>, y: Result<RoundOutcome, string>) {
    && (x.Ok? <==> y.Ok?)
    && (x.Ok? ==> x.value.state == y.value.state && x.value.voided == y.value.voided && x.value.awards == y.value.awards
                  && SameResults(x.value.results, y.value.results))
  }

  /** Waiting for late data has not changed this battle: it was void, or had nothing to score and waited long enough. */
  predicate Unaffected(b: Engine, at: int, config: Config) {
    b.state == Live ==> b.tickSequence == 0 && at - b.setup.clock.battleEndAt >= config.maxWait
  }

  lemma UnaffectedSettles(t: Tally, b: Engine, end: int, at: int, hash: Option<string>, config: Config, h: Hashing)
    requires (b.state == Live || b.state == Void) && end == b.setup.clock.battleEndAt <= at && Unaffected(b, at, config)
    ensures SettleOne(t, b, end, hash, config, true, h) == SettleOne(t, b, at, hash, config, false, h)
  {
    hide ScoreBattle, Conclude;
  }

  lemma {:induction false} UnaffectedSettle(battles: seq<Engine>, end: int, at: int, hash: Option<string>, config: Config, h: Hashing)
    requires forall i | 0 <= i < |battles| ::
               && (battles[i].state == Live || battles[i].state == Void)
               && end == battles[i].setup.clock.battleEndAt <= at && Unaffected(battles[i], at, config)
    ensures SettleAll(battles, end, hash, config, true, h) == SettleAll(battles, at, hash, config, false, h)
    decreases |battles|
  {
    hide SettleOne, Unaffected;
    if battles != [] {
      var n := |battles| - 1;
      UnaffectedSettle(battles[..n], end, at, hash, config, h);
      var t := SettleAll(battles[..n], end, hash, config, true, h);
      if t.Ok? {
        UnaffectedSettles(t.value, battles[n], end, at, hash, config, h);
      }
    }
  }

  /** On complete data a live battle that accepted ticks is settled, or throws; one that accepted none is void. */
  lemma CompleteVerdict(b: Engine, hash: Option<string>, config: Config, h: Hashing)
    requires Sound(b, config, h) && b.state == Live
    ensures var v := Verdict(b, b.setup.clock.battleEndAt, hash, config, true, h);
            v.None? || v.value.state.state == if b.tickSequence == 0 then Void else BattleState.Finalized
  {
    hide Tells, Conclude;
    var hist :| Tells(b, hist, config, h);
    if b.tickSequence > 0 {
      ScoreStored(b, hist, config, h);
      Concludes(b, ScoreOf(b, config), b.setup.clock.battleEndAt, hash, config, h);
    }
    hide ScoreBattle, ResolveBattle;
  }

  /** Without it a live battle waits, then is void. */
  lemma IncompleteVerdict(b: Engine, at: int, hash: Option<string>, config: Config, h: Hashing)
    requires (b.state == Live || b.state == Void) && b.setup.clock.battleEndAt <= at
    ensures var v := Verdict(b, at, hash, config, false, h);
            v.Some? && v.value.state.state == if b.state == Live && at - b.setup.clock.battleEndAt < config.maxWait then Live else Void
  {
  }

  /** Any other battle comes out in another state, or lets the round finalize where its replay throws. */
  lemma AffectedDiffers(b: Engine, end: int, at: int, hash: Option<string>, config: Config, h: Hashing)
    requires Sound(b, config, h) && (b.state == Live || b.state == Void) && end == b.setup.clock.battleEndAt <= at
    requires !Unaffected(b, at, config)
    ensures var v, w := Verdict(b, end, hash, config, true, h), Verdict(b, at, hash, config, false, h);
            v.None? || (w.Some? && v.value.state.state != w.value.state.state)
  {
    hide Verdict, Sound;
    CompleteVerdict(b, hash, config, h);
    IncompleteVerdict(b, at, hash, config, h);
  }

  /**
   A live round finalized without its late data is what its recording replays to exactly
   when no battle had anything to score and could still, or should have been, waited for:
   every battle not already void accepted no tick and waited out the limit.
  */
  lemma ReplayOfIncompleteIff(rec: Recording, live: seq<Event>, at: int, h: Hashing)
    requires CreateRound(rec.roundId, rec.clock, rec.pairings, rec.intel).Ok?
    requires rec.tickLogs == LogsOf(CreateRound(rec.roundId, rec.clock, rec.pairings, rec.intel).value.battles, live)
    requires at >= rec.clock.battleEndAt && Ticked(rec, live, h).Some?
    ensures var ticked := Ticked(rec, live, h).value;
            SameOutcome(Run(rec, Grouped(rec.tickLogs), rec.clock.battleEndAt, h), RunIncomplete(rec, live, at, h))
            <==> forall i | 0 <= i < |ticked.battles| :: Unaffected(ticked.battles[i], at, rec.config)
  {
    hide LogsOf, Grouped;
    ReplayReproduces(rec, live, h);
    var created := CreateRound(rec.roundId, rec.clock, rec.pairings, rec.intel).value;
    CreatedRound(rec.roundId, rec.clock, rec.pairings, rec.intel);
    var locked := Locked(created, rec.picks);
    var ticked := Ticked(rec, live, h).value;
    LockedSound(created, rec.clock.lockAt, rec.picks, rec.config, h);
    TicksKeepSound(locked, live, rec.config, h);
    assert ticked.clock == rec.clock && ticked.phase == BattleLive;
    assert Run(rec, live, rec.clock.battleEndAt, h)
        == Finalization(ticked, rec.clock.battleEndAt, rec.finalizationBlockHash, rec.config, true, h);
    hide CreateRound, Lockable, Locked, TickAll, Finalization, DistinctIds, Sound, OnePickEach, Run, Unaffected, SameOutcome;
    TickedOutcomes(ticked, at, rec.finalizationBlockHash, rec.config, h);
  }

  lemma TickedOutcomes(r: RoundState, at: int, hash: Option<string>, config: Config, h: Hashing)
    requires RoundSound(r, config, h) && r.phase == BattleLive && at >= r.clock.battleEndAt
    ensures SameOutcome(Finalization(r, r.clock.battleEndAt, hash, config, true, h), Finalization(r, at, hash, config, false, h))
            <==> forall i | 0 <= i < |r.battles| :: Unaffected(r.battles[i], at, config)
  {
    var end := r.clock.battleEndAt;
    hide SettleAll, Verdict, Sound, AllAwards, Unaffected;
    if forall i | 0 <= i < |r.battles| :: Unaffected(r.battles[i], at, config) {
      UnaffectedSettle(r.battles, end, at, hash, config, h);
      SameAsItself(Finalization(r, at, hash, config, false, h));
    } else {
      var i :| 0 <= i < |r.battles| && !Unaffected(r.battles[i], at, config);
      assert Sound(r.battles[i], config, h);
      AffectedDiffers(r.battles[i], end, at, hash, config, h);
      SettledBattles(r.battles, end, hash, config, true, h);
      SettledBattles(r.battles, at, hash, config, false, h);
      forall j | 0 <= j < |r.battles|
        ensures Verdict(r.battles[j], at, hash, config, false, h).Some?
      {
        IncompleteVerdict(r.battles[j], at, hash, config, h);
      }
      if SettleAll(r.battles, end, hash, config, true, h).Ok? {
        assert States(r.battles, end, hash, config, true, h)[i] != States(r.battles, at, hash, config, false, h)[i];
      }
    }
  }

  lemma SameAsItself(x: Result<RoundOutcome, string>)
    ensures SameOutcome(x, x)
  {
  }

  // ---------------------------------------------------------------------
  // Recording
  // ---------------------------------------------------------------------

  type TickSource = (BattleId, Ticker, Ticker, nat, int) -> TickInput

  function TickAt(b: Engine, clock: Clock, index: nat, source: TickSource): TickInput {
    source(b.setup.battleId, b.setup.left, b.setup.right, index, clock.battleStartAt + (index + 1) * 60_000 - 1_000)
  }

  ghost function SampledLogs(battles: seq<Engine>, clock: Clock, count: nat, source: TickSource): seq<TickLog> {
    seq(|battles|, i requires 0 <= i < |battles| =>
      TickLog(battles[i].setup.battleId, seq(count, k requires 0 <= k < count => TickAt(battles[i], clock, k, source))))
  }

  /** The source says when it sampled. */
  ghost predicate Punctual(source: TickSource) {
    forall id, left, right, index, at :: source(id, left, right, index, at).at == at
  }

  /** Every sample of a battle lies inside its window, each in a minute of its own and a second before its end. */
  lemma SamplesAreTimely(battles: seq<Engine>, clock: Clock, count: nat, source: TickSource, i: nat, k: nat)
    requires Punctual(source) && i < |battles| && k < count
    requires clock.battleStartAt + count * 60_000 <= clock.battleEndAt
    ensures var log := SampledLogs(battles, clock, count, source)[i];
            && log.battleId == battles[i].setup.battleId && |log.ticks| == count
            && OnClock(clock, log.ticks[k])
            && log.ticks[k].at + 1_000 == clock.battleStartAt + (k + 1) * 60_000
  {
  }

  /** The ticks of every battle, battle by battle. */
  method SampleLogs(battles: seq<Engine>, clock: Clock, count: nat, source: TickSource) returns (logs: seq<TickLog>)
    ensures logs == SampledLogs(battles, clock, count, source)
  {
    logs := [];
    for i := 0 to |battles|
      invariant logs == SampledLogs(battles[..i], clock, count, source)
    {
      var ticks: seq<TickInput> := [];
      for k := 0 to count
        invariant ticks == seq(k, j requires 0 <= j < k => TickAt(battles[i], clock, j, source))
      {
        ticks := ticks + [TickAt(battles[i], clock, k, source)];
      }
      logs := logs + [TickLog(battles[i].setup.battleId, ticks)];
    }
    assert battles[..|battles|] == battles;
  }

  /** What a recorder observed is what its recording replays to. */
  method RecordRound(plan: Recording, count: nat, source: TickSource, h: Hashing)
    returns (recorded: Result<(Recording, Result<RoundOutcome, string>), string>)
    ensures recorded.Ok? ==>
              var rec := recorded.value.0;
              && rec == plan.(tickLogs := rec.tickLogs)
              && CreateRound(plan.roundId, plan.clock, plan.pairings, plan.intel).Ok?
              && rec.tickLogs == SampledLogs(CreateRound(plan.roundId, plan.clock, plan.pairings, plan.intel).value.battles, plan.clock, count, source)
              && recorded.value.1 == Run(rec, Grouped(rec.tickLogs), rec.clock.battleEndAt, h)
    ensures recorded.Err? <==>
              var created := CreateRound(plan.roundId, plan.clock, plan.pairings, plan.intel);
              created.Err? || !Lockable(created.value, plan.clock.lockAt, plan.picks)
  {
    var created := CreateRound(plan.roundId, plan.clock, plan.pairings, plan.intel);
    if created.Err? {
      return Err("throws");
    }
    var locked := LockRound(created.value, plan.clock.lockAt, plan.picks);
    if locked.Err? {
      return Err("throws");
    }
    hide Run, CreateRound, Lockable, TickAt;
    var logs := SampleLogs(locked.value.battles, plan.clock, count, source);
    SameLogs(created.value, plan.picks, plan.clock, count, source);
    var rec := plan.(tickLogs := logs);
    var outcome := ReplayRound(rec, h);
    return Ok((rec, outcome));
  }

  lemma SameLogs(r: RoundState, picks: seq<Pick>, clock: Clock, count: nat, source: TickSource)
    ensures SampledLogs(Locked(r, picks).battles, clock, count, source) == SampledLogs(r.battles, clock, count, source)
  {
    var a, b := Locked(r, picks).battles, r.battles;
    forall i | 0 <= i < |b|
      ensures SampledLogs(a, clock, count, source)[i] == SampledLogs(b, clock, count, source)[i]
    {
      var s := seq(count, k requires 0 <= k < count => TickAt(a[i], clock, k, source));
      var t := seq(count, k requires 0 <= k < count => TickAt(b[i], clock, k, source));
      assert s == t;
    }
  }
}

/** When a drawn Secret is dealt: what the call that records a claim had heard of the vault. */
module GenesisOutcome {
  import opened Cards
  import opened Genesis
  import opened GenesisFlow
  import opened Wrappers

  // packages/genesis-service/src/flow.ts: coverage is read once, at resolution, and
  // the reservation can still find the vault out of coverage afterwards.

  // ---------------------------------------------------------------------
  // What a call hears
  // ---------------------------------------------------------------------

  /**
   What the vault let a call believe: it found its request stored COMMITTED or was told
   that the vault covers a reward (`funded`), and its reservation ended out of coverage
   (`uncovered`).
  */
  datatype Heard = Heard(funded: bool, uncovered: bool)

  predicate FoundCommitted(records: Records, wallet: Wallet) {
    wallet in records && records[wallet].request.state == Committed
  }

  function Hears(w: World, h: Heard, c: Call, reply: Reply): Heard {
    match c
    case AtFind(wallet, _) => h.(funded := FoundCommitted(w.records, wallet))
    case AtOpen(wallet, _) => h.(funded := FoundCommitted(w.records, wallet))
    case AtCovered(_) => h.(funded := reply == Says(true))
    case AtAttempt(_, _, a) =>
      if a < |w.attempts| && w.attempts[a].stage.Finished? then h.(uncovered := w.attempts[a].stage.outcome.Uncovered?) else h
    case _ => h
  }

  /** What every call has heard, call by call, after one more step. */
  function HeardAfter(w: World, heard: seq<Heard>, action: Action): seq<Heard> {
    match action
    case Begin(_, _) => heard + [Heard(false, false)]
    case Continue(i, reply) =>
      if i < |w.calls| && i < |heard| then heard[i := Hears(w, heard[i], w.calls[i], reply)] else heard
    case Crash => []
    case _ => heard
  }

  /** A run and what its calls heard. */
  function Watch(env: Env, w: World, heard: seq<Heard>, actions: seq<Action>): (World, seq<Heard>)
    decreases |actions|
  {
    if actions == [] then (w, heard)
    else Watch(env, Next(env, w, actions[0]), HeardAfter(w, heard, actions[0]), actions[1..])
  }

  lemma {:induction false} WatchRuns(env: Env, w: World, heard: seq<Heard>, actions: seq<Action>)
    ensures Watch(env, w, heard, actions).0 == Run(env, w, actions)
    decreases |actions|
  {
    hide Next, HeardAfter;
    if actions != [] {
      WatchRuns(env, Next(env, w, actions[0]), HeardAfter(w, heard, actions[0]), actions[1..]);
    }
  }

  // ---------------------------------------------------------------------
  // A call acts on what it heard
  // ---------------------------------------------------------------------

  /** Where a call stands agrees with what it heard. */
  ghost predicate ActsOn(c: Call, h: Heard) {
    match c
    case AtBlock(_) => h == Heard(false, false)
    case AtReserve(_, _) => h == Heard(true, false)
    case AtAttempt(_, _, _) => h == Heard(true, false)
    case AtRecord(_, card, _) => card.secretAvailable <==> h.funded && !h.uncovered
    case AtCommit(_) => true
    case Done(_) => true
    case _ => !h.uncovered
  }

  ghost predicate AllAct(w: World, heard: seq<Heard>) {
    |heard| == |w.calls| && forall i | 0 <= i < |heard| :: ActsOn(w.calls[i], heard[i])
  }

  lemma RevealActs(env: Env, r: Resolved, committed: bool, h: Heard)
    requires r.card.secretAvailable <==> h.funded
    requires !h.uncovered && (r.card.rarity == Secret ==> h.funded)
    ensures ActsOn(Reveal(env, r, committed), h)
  {
  }

  lemma ResolveActs(env: Env, r: Request, secretAvailable: bool, committed: bool, h: Heard)
    requires InRange(env.draws) && h == Heard(secretAvailable, false)
    ensures ActsOn(ResolveAndReveal(env, r, secretAvailable, committed), h)
  {
    if r.hash.Some? {
      CardNamesTable(env.draws, r.hash.value, r.wallet, secretAvailable);
      TablesAgree(env.draws, r.hash.value, r.wallet);
      hide ResolveGenesis, InRange, Reveal, ActsOn;
      if r.state == Committed {
        RevealActs(env, Resolved(r, ResolveGenesis(env.draws, r.hash.value, r.wallet, secretAvailable)), committed, h);
      }
    }
    hide ResolveGenesis, InRange, Reveal;
  }

  lemma AdvanceActs(env: Env, s: Stored, h: Heard)
    requires InRange(env.draws) && !h.uncovered && (h.funded <==> s.request.state == Committed)
    ensures ActsOn(Advance(env, s), h)
  {
    hide ResolveAndReveal, InRange;
    ResolveActs(env, s.request, true, true, Heard(true, false));
  }

  lemma OutcomeActs(env: Env, r: Resolved, committed: bool, o: Reserved, h: Heard)
    requires r.card.secretAvailable && h == Heard(true, o.Uncovered?)
    ensures ActsOn(Outcome(env, r, committed, o), h)
  {
    if r.request.hash.Some? {
      CardNamesTable(env.draws, r.request.hash.value, r.request.wallet, false);
    }
    hide ResolveGenesis;
  }

  /** The call that moves acts on what it then has heard; the others are where they were. */
  ghost predicate Moves(env: Env, w: World, i: nat, reply: Reply, h: Heard)
    requires i < |w.calls|
  {
    var v := ContinueCall(env, w, i, reply);
    && |v.calls| == |w.calls| && v.calls == w.calls[i := v.calls[i]]
    && ActsOn(v.calls[i], Hears(w, h, w.calls[i], reply))
  }

  lemma FindActs(env: Env, w: World, i: nat, reply: Reply, h: Heard)
    requires InRange(env.draws) && i < |w.calls| && w.calls[i].AtFind? && ActsOn(w.calls[i], h)
    ensures Moves(env, w, i, reply, h)
  {
    hide InRange, Advance;
    var wallet := w.calls[i].wallet;
    if wallet in w.records {
      AdvanceActs(env, w.records[wallet], h.(funded := FoundCommitted(w.records, wallet)));
    }
  }

  lemma ReadActs(env: Env, w: World, i: nat, reply: Reply, h: Heard)
    requires InRange(env.draws) && i < |w.calls| && ActsOn(w.calls[i], h)
    requires w.calls[i].AtBalance? || w.calls[i].AtHead? || w.calls[i].Done? || w.calls[i].AtReserve?
    ensures Moves(env, w, i, reply, h)
  {
    hide InRange;
  }

  lemma BlockActs(env: Env, w: World, i: nat, reply: Reply, h: Heard)
    requires InRange(env.draws) && i < |w.calls| && w.calls[i].AtBlock? && ActsOn(w.calls[i], h)
    ensures Moves(env, w, i, reply, h)
  {
    hide InRange, ResolveAndReveal;
    var r := w.calls[i].request;
    var committed := CommitEntropy(r, r.target, env.hashes(r.target));
    if committed.Ok? {
      ResolveActs(env, committed.value, false, false, h);
    }
  }

  lemma CoveredActs(env: Env, w: World, i: nat, reply: Reply, h: Heard)
    requires InRange(env.draws) && i < |w.calls| && w.calls[i].AtCovered? && ActsOn(w.calls[i], h)
    ensures Moves(env, w, i, reply, h)
  {
    hide InRange, ResolveAndReveal;
    if reply.Says? {
      ResolveActs(env, w.calls[i].request, reply.yes, false, h.(funded := reply.yes));
    }
  }

  lemma AttemptActs(env: Env, w: World, i: nat, reply: Reply, h: Heard)
    requires i < |w.calls| && w.calls[i].AtAttempt? && ActsOn(w.calls[i], h)
    requires w.calls[i].attempt < |w.attempts| && w.calls[i].resolved.card.secretAvailable
    ensures Moves(env, w, i, reply, h)
  {
    hide Outcome;
    var c := w.calls[i];
    if w.attempts[c.attempt].stage.Finished? {
      var o := w.attempts[c.attempt].stage.outcome;
      OutcomeActs(env, c.resolved, c.committed, o, Heard(true, o.Uncovered?));
    }
  }

  lemma StoreActs(env: Env, w: World, i: nat, reply: Reply, h: Heard)
    requires i < |w.calls| && (w.calls[i].AtCommit? || w.calls[i].AtRecord?)
    ensures Moves(env, w, i, reply, h)
  {
    hide CommitIn, RecordIn;
  }

  lemma ContinueActs(env: Env, w: World, i: nat, reply: Reply, h: Heard)
    requires InRange(env.draws) && Sound(env, w) && i < |w.calls| && ActsOn(w.calls[i], h)
    ensures Moves(env, w, i, reply, h)
  {
    CallAt(env, w, i);
    hide Sound, InRange, Moves, ResolveGenesis;
    match w.calls[i]
    case AtFind(_, _) => FindActs(env, w, i, reply, h);
    case AtOpen(_, _) => OpenActs(env, w, i, reply, h);
    case AtBlock(_) => BlockActs(env, w, i, reply, h);
    case AtCovered(_) => CoveredActs(env, w, i, reply, h);
    case AtAttempt(r, _, _) =>
      CardNamesTable(env.draws, env.hashes(r.request.target), r.request.wallet, true);
      AttemptActs(env, w, i, reply, h);
    case AtCommit(_) => StoreActs(env, w, i, reply, h);
    case AtRecord(_, _, _) => StoreActs(env, w, i, reply, h);
    case _ => ReadActs(env, w, i, reply, h);
  }

  lemma OpenActs(env: Env, w: World, i: nat, reply: Reply, h: Heard)
    requires InRange(env.draws) && i < |w.calls| && w.calls[i].AtOpen? && !h.uncovered
    ensures Moves(env, w, i, reply, h)
  {
    hide InRange, Advance, ResolveGenesis;
    var wallet, target := w.calls[i].wallet, w.calls[i].target;
    if !reply.Fails? && OpenRequest(wallet, target).Ok? {
      var stands := OpenIn(w.records, OpenRequest(wallet, target).value);
      AdvanceActs(env, Stored(stands.1, None), h.(funded := FoundCommitted(w.records, wallet)));
    }
  }

  lemma StepActs(env: Env, w: World, heard: seq<Heard>, action: Action)
    requires InRange(env.draws) && Sound(env, w) && AllAct(w, heard)
    ensures AllAct(Next(env, w, action), HeardAfter(w, heard, action))
  {
    hide Sound, InRange, ContinueCall, Hears, ActsOn;
    match action
    case Begin(wallet, asking) => FreshActs(wallet, asking);
    case Continue(i, reply) =>
      if i < |w.calls| {
        ContinueActs(env, w, i, reply, heard[i]);
      }
    case Proceed(a, reply) => ProceedKeepsCalls(w, a, reply);
    case _ =>
  }

  lemma FreshActs(wallet: Wallet, asking: bool)
    ensures ActsOn(AtFind(wallet, asking), Heard(false, false))
  {
  }

  lemma ProceedKeepsCalls(w: World, a: nat, reply: Reply)
    ensures a < |w.attempts| ==> ProceedAttempt(w, a, reply).calls == w.calls
  {
  }

  lemma {:induction false} WatchActs(env: Env, w: World, heard: seq<Heard>, actions: seq<Action>)
    requires InRange(env.draws) && Sound(env, w) && AllAct(w, heard)
    ensures var v := Watch(env, w, heard, actions); Sound(env, v.0) && AllAct(v.0, v.1)
    decreases |actions|
  {
    hide Sound, InRange, Next, HeardAfter, AllAct;
    if actions != [] {
      StepSound(env, w, actions[0]);
      StepActs(env, w, heard, actions[0]);
      WatchActs(env, Next(env, w, actions[0]), HeardAfter(w, heard, actions[0]), actions[1..]);
    }
  }

  // ---------------------------------------------------------------------
  // The claim that is written
  // ---------------------------------------------------------------------

  /** The step writes a first claim for the wallet. */
  predicate Writes(w: World, action: Action, wallet: Wallet) {
    && action.Continue? && action.call < |w.calls| && w.calls[action.call].AtRecord? && !action.reply.Fails?
    && w.calls[action.call].request.wallet == wallet && wallet in w.records && w.records[wallet].claim.None?
  }

  predicate Claimed(records: Records, wallet: Wallet) {
    wallet in records && records[wallet].claim.Some?
  }

  lemma OthersClaimNothing(env: Env, w: World, i: nat, reply: Reply, wallet: Wallet)
    requires i < |w.calls| && !w.calls[i].AtRecord? && !Claimed(w.records, wallet)
    ensures !Claimed(ContinueCall(env, w, i, reply).records, wallet)
  {
    hide Advance, Found, BlockFinal, Outcome, ResolveAndReveal;
  }

  lemma RecordingClaims(env: Env, w: World, i: nat, reply: Reply, wallet: Wallet)
    requires i < |w.calls| && w.calls[i].AtRecord? && w.calls[i].request.hash.Some? && !Claimed(w.records, wallet)
    ensures Claimed(ContinueCall(env, w, i, reply).records, wallet) <==> Writes(w, Continue(i, reply), wallet)
  {
  }

  /** No claim appears in any other way. */
  lemma OnlyRecordingWrites(env: Env, w: World, action: Action, wallet: Wallet)
    requires Sound(env, w) && !Claimed(w.records, wallet)
    ensures Claimed(Next(env, w, action).records, wallet) <==> Writes(w, action, wallet)
  {
    hide Sound, ResolveGenesis, ContinueCall, ProceedAttempt;
    match action
    case Continue(i, reply) =>
      if i < |w.calls| {
        CallAt(env, w, i);
        if w.calls[i].AtRecord? {
          RecordingClaims(env, w, i, reply, wallet);
        } else {
          OthersClaimNothing(env, w, i, reply, wallet);
        }
      }
    case Proceed(a, reply) => ProceedKeepsRecords(w, a, reply);
    case _ =>
  }

  lemma ProceedKeepsRecords(w: World, a: nat, reply: Reply)
    ensures a < |w.attempts| ==> ProceedAttempt(w, a, reply).records == w.records
  {
  }

  ghost function ClaimedWallets(w: World): set<Wallet> {
    set x | x in w.records && w.records[x].claim.Some?
  }

  lemma WritingNumbers(env: Env, w: World, i: nat, reply: Reply)
    requires Sound(env, w) && i < |w.calls| && w.calls[i].AtRecord?
    ensures var v, x := ContinueCall(env, w, i, reply), w.calls[i].request.wallet;
            if Writes(w, Continue(i, reply), x) then
              && v.nextNumber == w.nextNumber + 1 && Claimed(v.records, x) && v.records[x].claim.value.number == w.nextNumber
            else v.nextNumber == w.nextNumber
  {
    CallAt(env, w, i);
    hide Sound, OwnCard, SecretReserved, TableEarned;
  }

  lemma OthersNumberNothing(env: Env, w: World, i: nat, reply: Reply)
    requires i < |w.calls| && !w.calls[i].AtRecord?
    ensures ContinueCall(env, w, i, reply).nextNumber == w.nextNumber
  {
    hide Advance, Found, BlockFinal, Outcome, ResolveAndReveal;
  }

  lemma NextNumberIs(env: Env, w: World, action: Action)
    requires Sound(env, w)
    ensures (forall x :: !Writes(w, action, x)) ==> Next(env, w, action).nextNumber == w.nextNumber
    ensures forall x | Writes(w, action, x) :: Next(env, w, action).nextNumber == w.nextNumber + 1
  {
    hide Sound, ContinueCall, ProceedAttempt;
    match action
    case Continue(i, reply) =>
      if i < |w.calls| {
        if w.calls[i].AtRecord? {
          WritingNumbers(env, w, i, reply);
        } else {
          OthersNumberNothing(env, w, i, reply);
        }
      }
    case Proceed(a, reply) => ProceedKeepsNumber(w, a, reply);
    case _ =>
  }

  lemma ProceedKeepsNumber(w: World, a: nat, reply: Reply)
    ensures a < |w.attempts| ==> ProceedAttempt(w, a, reply).nextNumber == w.nextNumber
  {
  }

  lemma StepNumbers(env: Env, w: World, action: Action)
    requires InRange(env.draws) && Sound(env, w) && |ClaimedWallets(w)| + 1 == w.nextNumber
    ensures |ClaimedWallets(Next(env, w, action))| + 1 == Next(env, w, action).nextNumber
  {
    hide Sound, InRange, Next, Keeps, ClaimedWallets;
    var v := Next(env, w, action);
    StepSound(env, w, action);
    NextNumberIs(env, w, action);
    forall x
      ensures x in ClaimedWallets(v) <==> x in ClaimedWallets(w) || Writes(w, action, x)
    {
      ClaimStaysOrIsWritten(env, w, action, x);
    }
    if x :| Writes(w, action, x) {
      assert ClaimedWallets(v) == ClaimedWallets(w) + {x};
      NotYetClaimed(w, action, x);
    } else {
      assert ClaimedWallets(v) == ClaimedWallets(w);
    }
  }

  lemma NotYetClaimed(w: World, action: Action, x: Wallet)
    requires Writes(w, action, x)
    ensures x !in ClaimedWallets(w)
  {
  }

  lemma ClaimStaysOrIsWritten(env: Env, w: World, action: Action, x: Wallet)
    requires Sound(env, w) && Keeps(w, Next(env, w, action))
    ensures x in ClaimedWallets(Next(env, w, action)) <==> x in ClaimedWallets(w) || Writes(w, action, x)
  {
    if !Claimed(w.records, x) {
      OnlyRecordingWrites(env, w, action, x);
    }
    hide Sound, Next;
  }

  lemma {:induction false} RunNumbers(env: Env, w: World, actions: seq<Action>)
    requires InRange(env.draws) && Sound(env, w) && |ClaimedWallets(w)| + 1 == w.nextNumber
    ensures |ClaimedWallets(Run(env, w, actions))| + 1 == Run(env, w, actions).nextNumber
    decreases |actions|
  {
    hide Sound, InRange, Next, ClaimedWallets;
    if actions != [] {
      StepSound(env, w, actions[0]);
      StepNumbers(env, w, actions[0]);
      RunNumbers(env, Next(env, w, actions[0]), actions[1..]);
    }
  }

  /** Over every run: with `n` claims on record the next one's number is `n + 1`, so the numbers given are exactly those from one on. */
  lemma NumbersInTurn(env: Env, actions: seq<Action>)
    requires InRange(env.draws)
    ensures var w := Run(env, START, actions); w.nextNumber == |ClaimedWallets(w)| + 1
  {
    StartSound(env);
    assert ClaimedWallets(START) == {};
    RunNumbers(env, START, actions);
    hide Run;
  }

  /** The card written is the one the call holds. */
  lemma CardWritten(env: Env, w: World, action: Action, wallet: Wallet)
    requires Writes(w, action, wallet) && w.calls[action.call].request.hash.Some?
    ensures var v := Next(env, w, action);
            Claimed(v.records, wallet) && v.records[wallet].claim.value.card == w.calls[action.call].card
  {
  }

  /**
   Over every run: a wallet that drew a Secret is dealt it exactly when the call that
   writes the claim had found the request COMMITTED or been told that the vault covers a
   reward, and its own reservation did not end out of coverage. Otherwise it is dealt a
   Legendary, whatever was reserved for it by then.
  */
  lemma SecretKeptIff(env: Env, actions: seq<Action>, action: Action, wallet: Wallet)
    requires InRange(env.draws)
    requires var w := Run(env, START, actions); Writes(w, action, wallet) && SecretDrawn(env, w.records, wallet)
    ensures var (w, heard) := Watch(env, START, [], actions);
            && w == Run(env, START, actions) && |heard| == |w.calls|
            && var v := Next(env, w, action);
            && wallet in v.records && v.records[wallet].claim.Some?
            && var card, h := v.records[wallet].claim.value.card, heard[action.call];
            && (card.rarity == Secret <==> h.funded && !h.uncovered)
            && (card.rarity != Secret ==> card.rarity == Legendary)
  {
    WatchRuns(env, START, [], actions);
    StartSound(env);
    WatchActs(env, START, [], actions);
    var (w, heard) := Watch(env, START, [], actions);
    CallAt(env, w, action.call);
    CardWritten(env, w, action, wallet);
    assert ActsOn(w.calls[action.call], heard[action.call]);
    hide Run, Watch, Sound, InRange, AllAct, Next;
    var hash := env.hashes(w.records[wallet].request.target);
    TablesAgree(env.draws, hash, wallet);
    CardNamesTable(env.draws, hash, wallet, true);
    CardNamesTable(env.draws, hash, wallet, false);
    hide ResolveGenesis;
  }

  // ---------------------------------------------------------------------
  // Reads begun after the reservation landed
  // ---------------------------------------------------------------------

  /** Whatever is in flight has not ended. */
  ghost predicate UnderWay(w: World) {
    forall x | x in w.inFlight :: w.inFlight[x] < |w.attempts| && !w.attempts[w.inFlight[x]].stage.Finished?
  }

  /** The attempt ended out of coverage. */
  predicate Refused(w: World, a: nat) {
    a < |w.attempts| && w.attempts[a].stage == Stage.Finished(Uncovered)
  }

  /** The call has not been, and is not about to be, told by an attempt for `wallet` that the vault is out of coverage. */
  ghost predicate Spared(w: World, c: Call, h: Heard, wallet: Wallet) {
    && (c.AtAttempt? && c.resolved.request.wallet == wallet ==> !Refused(w, c.attempt))
    && (c.AtRecord? && c.request.wallet == wallet ==> !h.uncovered)
  }

  /** Of the calls from `n` on. */
  ghost predicate LateSpared(w: World, heard: seq<Heard>, wallet: Wallet, n: nat) {
    |heard| == |w.calls| && forall i | n <= i < |heard| :: Spared(w, w.calls[i], heard[i], wallet)
  }

  lemma FinishLeavesUnderWay(w: World, a: nat, o: Reserved)
    requires UnderWay(w) && OneAtATime(w) && a < |w.attempts|
    ensures UnderWay(Finish(w, a, o))
  {
    var v := Finish(w, a, o);
    forall x | x in v.inFlight
      ensures v.inFlight[x] < |v.attempts| && !v.attempts[v.inFlight[x]].stage.Finished?
    {
      assert w.attempts[w.inFlight[x]].wallet == x;
    }
  }

  lemma StageLeavesUnderWay(w: World, a: nat, s: Stage)
    requires UnderWay(w) && a < |w.attempts| && !s.Finished?
    ensures UnderWay(SetStage(w, a, s))
  {
  }

  lemma ProceedLeavesUnderWay(w: World, a: nat, reply: Reply)
    requires UnderWay(w) && OneAtATime(w) && a < |w.attempts|
    ensures UnderWay(ProceedAttempt(w, a, reply))
  {
    FinishLeavesUnderWay(w, a, AttemptFailed);
    FinishLeavesUnderWay(w, a, Uncovered);
    var wallet := w.attempts[a].wallet;
    hide OneAtATime, Finish, SetStage;
    StageLeavesUnderWay(w, a, Finding);
    StageLeavesUnderWay(w, a, Sending);
    StageLeavesUnderWay(w, a, Confirming(w.nextTx));
    match w.attempts[a].stage
    case Finding =>
      if wallet in w.entitled {
        StageLeavesUnderWay(w, a, Pricing(w.entitled[wallet]));
      }
    case Confirming(tx) => StageLeavesUnderWay(w, a, Pricing(tx));
    case Pricing(tx) => FinishLeavesUnderWay(w, a, ReservedBy(tx));
    case _ =>
  }

  lemma PutOnlyCalls(w: World, i: nat)
    requires i < |w.calls|
    ensures forall c :: Put(w, i, c).calls == w.calls[i := c] && |Put(w, i, c).calls| == |w.calls| && Put(w, i, c).calls[i] == c
    ensures forall c :: Put(w, i, c).attempts == w.attempts && Put(w, i, c).inFlight == w.inFlight
  {
  }

  lemma OnlyReservingAttempts(env: Env, w: World, i: nat, reply: Reply)
    requires i < |w.calls| && !w.calls[i].AtReserve?
    ensures var v := ContinueCall(env, w, i, reply); v.attempts == w.attempts && v.inFlight == w.inFlight
  {
    PutOnlyCalls(w, i);
    hide Advance, Found, BlockFinal, Outcome, ResolveAndReveal, CommitIn, RecordIn, OpenIn, Put;
  }

  lemma ReserveLeavesUnderWay(w: World, i: nat, r: Resolved, committed: bool)
    requires UnderWay(w) && i < |w.calls|
    ensures UnderWay(Reserve(w, i, r, committed))
  {
  }

  lemma ContinueLeavesUnderWay(env: Env, w: World, i: nat, reply: Reply)
    requires UnderWay(w) && i < |w.calls|
    ensures UnderWay(ContinueCall(env, w, i, reply))
  {
    if w.calls[i].AtReserve? {
      ReserveLeavesUnderWay(w, i, w.calls[i].resolved, w.calls[i].committed);
      hide UnderWay, Reserve;
    } else {
      OnlyReservingAttempts(env, w, i, reply);
      hide ContinueCall;
    }
  }

  lemma StepLeavesUnderWay(env: Env, w: World, action: Action)
    requires Sound(env, w) && UnderWay(w)
    ensures UnderWay(Next(env, w, action))
  {
    assert OneAtATime(w);
    hide Sound, OneAtATime, ContinueCall, ProceedAttempt;
    match action
    case Continue(i, reply) => if i < |w.calls| { ContinueLeavesUnderWay(env, w, i, reply); }
    case Proceed(a, reply) => if a < |w.attempts| { ProceedLeavesUnderWay(w, a, reply); }
    case _ =>
  }

  lemma {:induction false} RunLeavesUnderWay(env: Env, w: World, actions: seq<Action>)
    requires InRange(env.draws) && Sound(env, w) && UnderWay(w)
    ensures UnderWay(Run(env, w, actions))
    decreases |actions|
  {
    hide Sound, InRange, Next, UnderWay;
    if actions != [] {
      StepSound(env, w, actions[0]);
      StepLeavesUnderWay(env, w, actions[0]);
      RunLeavesUnderWay(env, Next(env, w, actions[0]), actions[1..]);
    }
  }

  /** An attempt for a wallet the vault has reserved for is never refused. */
  lemma ProceedNotRefused(w: World, a: nat, reply: Reply, b: nat)
    requires a < |w.attempts| && b < |w.attempts| && !Refused(w, b) && w.attempts[b].wallet in w.entitled
    ensures !Refused(ProceedAttempt(w, a, reply), b)
  {
  }

  lemma ContinueNotRefused(env: Env, w: World, i: nat, reply: Reply, b: nat)
    requires i < |w.calls| && b < |w.attempts| && !Refused(w, b)
    ensures !Refused(ContinueCall(env, w, i, reply), b)
  {
    if !w.calls[i].AtReserve? {
      OnlyReservingAttempts(env, w, i, reply);
      hide ContinueCall;
    }
  }

  lemma NotRefused(env: Env, w: World, action: Action, b: nat)
    requires b < |w.attempts| && !Refused(w, b) && w.attempts[b].wallet in w.entitled
    ensures !Refused(Next(env, w, action), b)
  {
    hide ContinueCall, ProceedAttempt;
    match action
    case Continue(i, reply) => if i < |w.calls| { ContinueNotRefused(env, w, i, reply, b); }
    case Proceed(a, reply) => if a < |w.attempts| { ProceedNotRefused(w, a, reply, b); }
    case _ =>
  }

  /** A call that does not move is still spared. */
  lemma StaysSpared(env: Env, w: World, action: Action, c: Call, h: Heard, wallet: Wallet)
    requires GoodCall(env, w, c) && wallet in w.entitled && Spared(w, c, h, wallet)
    ensures Spared(Next(env, w, action), c, h, wallet)
  {
    hide Next, Refused;
    if c.AtAttempt? && c.resolved.request.wallet == wallet {
      NotRefused(env, w, action, c.attempt);
    }
  }

  /** So is one that joins or starts an attempt, whatever it joins. */
  lemma ReserveSpared(env: Env, w: World, i: nat, reply: Reply, h: Heard, wallet: Wallet)
    requires UnderWay(w) && i < |w.calls| && w.calls[i].AtReserve?
    ensures var v := ContinueCall(env, w, i, reply);
            |v.calls| == |w.calls| && Spared(v, v.calls[i], Hears(w, h, w.calls[i], reply), wallet)
  {
  }

  lemma AttemptSpared(env: Env, w: World, i: nat, reply: Reply, h: Heard, wallet: Wallet)
    requires i < |w.calls| && w.calls[i].AtAttempt? && ActsOn(w.calls[i], h) && Spared(w, w.calls[i], h, wallet)
    requires w.calls[i].attempt < |w.attempts|
    ensures var v := ContinueCall(env, w, i, reply);
            |v.calls| == |w.calls| && Spared(v, v.calls[i], Hears(w, h, w.calls[i], reply), wallet)
  {
    hide ResolveGenesis;
  }

  /** Only a reservation waits for an attempt. */
  lemma AdvanceNeverWaits(env: Env, s: Stored, r: Request, yes: bool, committed: bool)
    ensures !Advance(env, s).AtAttempt? && !ResolveAndReveal(env, r, yes, committed).AtAttempt? && !BlockFinal(env, r).AtAttempt?
  {
    hide ResolveGenesis;
  }

  lemma ReadingNeverWaits(env: Env, w: World, i: nat, reply: Reply)
    requires i < |w.calls|
    requires !w.calls[i].AtReserve? && !w.calls[i].AtAttempt? && !w.calls[i].AtCommit? && !w.calls[i].AtRecord? && !w.calls[i].Done?
    ensures var v := ContinueCall(env, w, i, reply); |v.calls| == |w.calls| && !v.calls[i].AtAttempt?
  {
    hide Advance, ResolveAndReveal, BlockFinal, OpenIn;
    match w.calls[i]
    case AtFind(wallet, _) =>
      if wallet in w.records {
        AdvanceNeverWaits(env, w.records[wallet], w.records[wallet].request, true, true);
      }
    case AtOpen(wallet, target) =>
      var stands := OpenIn(w.records, Request(wallet, Pending, target, None));
      AdvanceNeverWaits(env, Stored(stands.1, None), stands.1, true, true);
    case AtBlock(r) => AdvanceNeverWaits(env, Stored(r, None), r, true, true);
    case AtCovered(r) => AdvanceNeverWaits(env, Stored(r, None), r, reply == Says(true), false);
    case _ =>
  }

  lemma WritingIsLast(env: Env, w: World, i: nat, reply: Reply)
    requires i < |w.calls| && (w.calls[i].AtCommit? || w.calls[i].AtRecord? || w.calls[i].Done?)
    ensures var v := ContinueCall(env, w, i, reply); |v.calls| == |w.calls| && v.calls[i].Done?
  {
    hide CommitIn, RecordIn;
  }

  lemma OtherSpared(env: Env, w: World, i: nat, reply: Reply, h: Heard, wallet: Wallet)
    requires i < |w.calls| && !w.calls[i].AtReserve? && !w.calls[i].AtAttempt? && ActsOn(w.calls[i], h)
    ensures var v := ContinueCall(env, w, i, reply);
            |v.calls| == |w.calls| && Spared(v, v.calls[i], Hears(w, h, w.calls[i], reply), wallet)
  {
    if w.calls[i].AtCommit? || w.calls[i].AtRecord? || w.calls[i].Done? {
      WritingIsLast(env, w, i, reply);
    } else {
      ReadingNeverWaits(env, w, i, reply);
    }
    hide ContinueCall;
  }

  lemma MovesSpared(env: Env, w: World, i: nat, reply: Reply, h: Heard, wallet: Wallet)
    requires Sound(env, w) && UnderWay(w) && i < |w.calls| && ActsOn(w.calls[i], h) && Spared(w, w.calls[i], h, wallet)
    ensures var v := ContinueCall(env, w, i, reply);
            |v.calls| == |w.calls| && Spared(v, v.calls[i], Hears(w, h, w.calls[i], reply), wallet)
  {
    CallAt(env, w, i);
    hide Sound, Spared, ActsOn, Hears, ContinueCall, ResolvedSecret;
    if w.calls[i].AtReserve? {
      ReserveSpared(env, w, i, reply, h, wallet);
    } else if w.calls[i].AtAttempt? {
      AttemptSpared(env, w, i, reply, h, wallet);
    } else {
      OtherSpared(env, w, i, reply, h, wallet);
    }
  }

  lemma StepSpares(env: Env, w: World, heard: seq<Heard>, action: Action, wallet: Wallet, n: nat)
    requires InRange(env.draws) && Sound(env, w) && UnderWay(w) && AllAct(w, heard)
    requires wallet in w.entitled && LateSpared(w, heard, wallet, n)
    ensures LateSpared(Next(env, w, action), HeardAfter(w, heard, action), wallet, if action.Crash? then 0 else n)
  {
    var v, told := Next(env, w, action), HeardAfter(w, heard, action);
    CallsAfter(env, w, heard, action);
    hide Next, HeardAfter, Spared, Sound, UnderWay, Hears, ActsOn, InRange;
    if !action.Crash? {
      forall k | n <= k < |told|
        ensures Spared(v, v.calls[k], told[k], wallet)
      {
        if k < |w.calls| && !(action.Continue? && action.call == k) {
          CallAt(env, w, k);
          StaysSpared(env, w, action, w.calls[k], heard[k], wallet);
        } else if k < |w.calls| {
          MovesSpared(env, w, k, action.reply, heard[k], wallet);
        } else {
          BegunSpared(v, action.wallet, action.asking, wallet);
        }
      }
    }
  }

  lemma BegunSpared(w: World, begun: Wallet, asking: bool, wallet: Wallet)
    ensures Spared(w, AtFind(begun, asking), Heard(false, false), wallet)
  {
  }

  /** The calls, and what they heard, after a step: one begins or one moves. */
  lemma CallsAfter(env: Env, w: World, heard: seq<Heard>, action: Action)
    requires InRange(env.draws) && Sound(env, w) && AllAct(w, heard)
    ensures var v, told := Next(env, w, action), HeardAfter(w, heard, action);
            && |told| == |v.calls| && (action.Crash? ==> v.calls == [])
            && (!action.Crash? ==>
                  && |v.calls| == |w.calls| + (if action.Begin? then 1 else 0)
                  && (forall k | 0 <= k < |w.calls| && !(action.Continue? && action.call == k) :: v.calls[k] == w.calls[k] && told[k] == heard[k])
                  && (action.Begin? ==> v.calls[|w.calls|] == AtFind(action.wallet, action.asking) && told[|w.calls|] == Heard(false, false))
                  && (action.Continue? && action.call < |w.calls| ==>
                        && v.calls[action.call] == ContinueCall(env, w, action.call, action.reply).calls[action.call]
                        && told[action.call] == Hears(w, heard[action.call], w.calls[action.call], action.reply)))
  {
    match action
    case Continue(i, reply) => if i < |w.calls| { ContinueActs(env, w, i, reply, heard[i]); }
    case Proceed(a, reply) => ProceedKeepsCalls(w, a, reply);
    case _ =>
    hide Sound, InRange, ActsOn, ContinueCall, ProceedAttempt, Hears;
  }

  lemma {:induction false} WatchSpares(env: Env, w: World, heard: seq<Heard>, actions: seq<Action>, wallet: Wallet, n: nat)
    requires InRange(env.draws) && Sound(env, w) && UnderWay(w) && AllAct(w, heard)
    requires wallet in w.entitled && LateSpared(w, heard, wallet, n)
    ensures var v := Watch(env, w, heard, actions);
            wallet in v.0.entitled && LateSpared(v.0, v.1, wallet, if Crash in actions then 0 else n)
    decreases |actions|
  {
    hide Sound, InRange, Next, HeardAfter, AllAct, UnderWay, LateSpared;
    if actions != [] {
      var action := actions[0];
      StepSound(env, w, action);
      StepLeavesUnderWay(env, w, action);
      StepActs(env, w, heard, action);
      StepSpares(env, w, heard, action, wallet, n);
      WatchSpares(env, Next(env, w, action), HeardAfter(w, heard, action), actions[1..], wallet, if action.Crash? then 0 else n);
      assert actions == [action] + actions[1..];
    }
  }

  lemma {:induction false} WatchJoins(env: Env, w: World, heard: seq<Heard>, a: seq<Action>, b: seq<Action>)
    ensures var m := Watch(env, w, heard, a); Watch(env, w, heard, a + b) == Watch(env, m.0, m.1, b)
    decreases |a|
  {
    hide Next, HeardAfter;
    if a == [] {
      assert a + b == b;
    } else {
      assert (a + b)[1..] == a[1..] + b;
      WatchJoins(env, Next(env, w, a[0]), HeardAfter(w, heard, a[0]), a[1..], b);
    }
  }

  /**
   Over every run: once a reservation has landed for a wallet, a read begun after that,
   or after a crash since, never hears from its attempt that the vault is out of
   coverage, whichever attempt it joins. So where such a read writes the claim, the
   Secret is dealt exactly when the read found its request COMMITTED or was told that
   the vault covers one more reward.
  */
  lemma LateReadKeepsSecretIff(env: Env, before: seq<Action>, after: seq<Action>, action: Action, wallet: Wallet)
    requires InRange(env.draws) && wallet in Run(env, START, before).entitled
    requires Writes(Run(env, START, before + after), action, wallet)
    requires Crash in after || action.call >= |Run(env, START, before).calls|
    ensures var (w, heard) := Watch(env, START, [], before + after);
            && w == Run(env, START, before + after) && |heard| == |w.calls| && !heard[action.call].uncovered
            && var v := Next(env, w, action);
            && Claimed(v.records, wallet)
            && var card := v.records[wallet].claim.value.card;
            && (card.rarity == Secret <==> heard[action.call].funded)
            && (card.rarity != Secret ==> card.rarity == Legendary)
  {
    var (u, told) := Watch(env, START, [], before);
    var (w, heard) := Watch(env, START, [], before + after);
    WatchRuns(env, START, [], before);
    WatchRuns(env, START, [], before + after);
    WatchJoins(env, START, [], before, after);
    StartSound(env);
    WatchActs(env, START, [], before);
    RunLeavesUnderWay(env, START, before);
    WatchSpares(env, u, told, after, wallet, |u.calls|);
    NothingIsTakenBack(env, before, after);
    RunSound(env, START, before + after);
    EntitledDrew(env, w, wallet);
    hide Run, Watch, Sound, InRange, AllAct, Next, UnderWay;
    SecretKeptIff(env, before + after, action, wallet);
    assert Spared(w, w.calls[action.call], heard[action.call], wallet);
  }

  // ---------------------------------------------------------------------
  // One read served alone
  // ---------------------------------------------------------------------

  /** The world with one more call. */
  function At(w: World, c: Call): World {
    w.(calls := w.calls + [c])
  }

  lemma PutLast(w: World, c: Call, d: Call)
    ensures |At(w, c).calls| == |w.calls| + 1 && At(w, c).calls[|w.calls|] == c
    ensures Put(At(w, c), |w.calls|, d) == At(w, d)
  {
  }

  lemma NextOfLast(env: Env, w: World, c: Call, reply: Reply)
    ensures |At(w, c).calls| == |w.calls| + 1 && At(w, c).calls[|w.calls|] == c
    ensures Next(env, At(w, c), Continue(|w.calls|, reply)) == ContinueCall(env, At(w, c), |w.calls|, reply)
    ensures forall d :: Put(At(w, c), |w.calls|, d) == At(w, d)
  {
    forall d
      ensures Put(At(w, c), |w.calls|, d) == At(w, d)
    {
      PutLast(w, c, d);
    }
  }

  lemma RunOne(env: Env, w: World, action: Action, rest: seq<Action>)
    ensures Run(env, w, [action] + rest) == Run(env, Next(env, w, action), rest)
  {
    assert ([action] + rest)[1..] == rest;
  }

  lemma RunNone(env: Env, w: World)
    ensures Run(env, w, []) == w
  {
  }

  /** The wallet's request, unclaimed. */
  predicate Unclaimed(w: World, wallet: Wallet) {
    wallet in w.records && w.records[wallet].claim.None?
  }

  function Final(r: Request): Request {
    r.(state := RequestState.Finalized)
  }

  /** What recording a card leaves. */
  lemma Recorded(env: Env, w: World, r: Request, card: Genesis, reservation: Option<Tx>)
    requires Unclaimed(w, r.wallet) && r.hash.Some?
    ensures var v := Next(env, At(w, AtRecord(r, card, reservation)), Continue(|w.calls|, Says(true)));
            && Claimed(v.records, r.wallet) && v.entitled == w.entitled
            && v.records[r.wallet].claim.value.card == card && v.records[r.wallet].claim.value.reservation == reservation
            && v.calls == w.calls + [Done(Ready(v.records[r.wallet].claim.value))]
  {
    NextOfLast(env, w, AtRecord(r, card, reservation), Says(true));
  }

  /** A status read up to the question of coverage. */
  function Asking(wallet: Wallet, i: nat): seq<Action> {
    [Begin(wallet, false)] + ([Continue(i, Says(true))] + ([Continue(i, Says(true))] + []))
  }

  lemma AskingAlone(env: Env, w: World, wallet: Wallet)
    requires env.hasVault && Unclaimed(w, wallet) && OwnRequest(env, w.records, w.records[wallet].request, Pending)
    requires w.records[wallet].request.wallet == wallet
    ensures var r := w.records[wallet].request;
            Run(env, w, Asking(wallet, |w.calls|))
            == At(w, AtCovered(r.(state := Committed, hash := Some(env.hashes(r.target)))))
  {
    var r, i := w.records[wallet].request, |w.calls|;
    RunOne(env, w, Begin(wallet, false), [Continue(i, Says(true))] + ([Continue(i, Says(true))] + []));
    NextOfLast(env, w, AtFind(wallet, false), Says(true));
    RunOne(env, At(w, AtFind(wallet, false)), Continue(i, Says(true)), [Continue(i, Says(true))] + []);
    NextOfLast(env, w, AtBlock(r), Says(true));
    RunOne(env, At(w, AtBlock(r)), Continue(i, Says(true)), []);
    hide Run, At, Put;
    RunNone(env, At(w, AtCovered(r.(state := Committed, hash := Some(env.hashes(r.target))))));
  }

  /** A status read that is told the vault is out of coverage. */
  function ReadUncovered(wallet: Wallet, i: nat): seq<Action> {
    Asking(wallet, i) + ([Continue(i, Says(false))] + ([Continue(i, Says(true))] + []))
  }

  /** In any world: a pending Secret read while the vault is out of coverage is recorded as a Legendary, reserved or not. */
  lemma UncoveredDealsLegendary(env: Env, w: World, wallet: Wallet)
    requires InRange(env.draws) && Sound(env, w) && env.hasVault
    requires Unclaimed(w, wallet) && w.records[wallet].request.state == Pending && SecretDrawn(env, w.records, wallet)
    ensures var v := Run(env, w, ReadUncovered(wallet, |w.calls|));
            && v.entitled == w.entitled && Claimed(v.records, wallet)
            && v.records[wallet].claim.value.card.rarity == Legendary && v.records[wallet].claim.value.reservation.None?
  {
    RecordsOf(env, w);
    RecordAt(env, w, wallet);
    hide Sound, InRange, GoodRecords;
    var r, i := w.records[wallet].request, |w.calls|;
    AskingAlone(env, w, wallet);
    var committed := r.(state := Committed, hash := Some(env.hashes(r.target)));
    RunJoins(env, w, Asking(wallet, i), [Continue(i, Says(false))] + ([Continue(i, Says(true))] + []));
    CoverageDenied(env, w, committed);
    var card := ResolveGenesis(env.draws, env.hashes(r.target), wallet, false);
    TablesAgree(env.draws, env.hashes(r.target), wallet);
    var told := w.(told := w.told + {wallet});
    var last := AtRecord(Final(committed), card, None);
    hide Run, At, Next, ResolveGenesis;
    RunOne(env, At(w, AtCovered(committed)), Continue(i, Says(false)), [Continue(i, Says(true))] + []);
    RunOne(env, At(told, last), Continue(i, Says(true)), []);
    RunNone(env, Next(env, At(told, last), Continue(i, Says(true))));
    Recorded(env, told, Final(committed), card, None);
  }

  lemma CoverageDenied(env: Env, w: World, r: Request)
    requires InRange(env.draws) && r.state == Committed && r.hash.Some?
    ensures Next(env, At(w, AtCovered(r)), Continue(|w.calls|, Says(false)))
            == At(w.(told := w.told + {r.wallet}),
                  AtRecord(Final(r), ResolveGenesis(env.draws, r.hash.value, r.wallet, false), None))
  {
    NextOfLast(env, w, AtCovered(r), Says(false));
    TablesAgree(env.draws, r.hash.value, r.wallet);
    hide ResolveGenesis, InRange;
  }

  /** A status read of a pending request up to its record, told `covered` if there is a vault to ask. */
  function ReadOrdinary(wallet: Wallet, i: nat, hasVault: bool, covered: bool): seq<Action> {
    Asking(wallet, i) + if hasVault then [Continue(i, Says(covered))] + ([Continue(i, Says(true))] + []) else [Continue(i, Says(true))] + []
  }

  /**
   In any world, with a vault or without: a pending request whose draw is not a Secret is
   dealt its card when it is read alone after its block is final, with no reservation, and
   the read answers with the claim.
  */
  lemma OrdinaryIsDealt(env: Env, w: World, wallet: Wallet, covered: bool)
    requires InRange(env.draws) && Sound(env, w)
    requires Unclaimed(w, wallet) && w.records[wallet].request.state == Pending && !SecretDrawn(env, w.records, wallet)
    ensures var v := Run(env, w, ReadOrdinary(wallet, |w.calls|, env.hasVault, covered));
            && v.entitled == w.entitled && Claimed(v.records, wallet) && |v.calls| == |w.calls| + 1
            && var claim := v.records[wallet].claim.value;
            && claim.card == ResolveGenesis(env.draws, env.hashes(w.records[wallet].request.target), wallet, env.hasVault && covered)
            && claim.card.rarity != Secret && claim.reservation.None?
            && v.calls[|w.calls|] == Done(Ready(claim))
  {
    RecordsOf(env, w);
    RecordAt(env, w, wallet);
    hide Sound, InRange, GoodRecords;
    var r, i := w.records[wallet].request, |w.calls|;
    var committed := r.(state := Committed, hash := Some(env.hashes(r.target)));
    var card := ResolveGenesis(env.draws, env.hashes(r.target), wallet, env.hasVault && covered);
    TablesAgree(env.draws, env.hashes(r.target), wallet);
    assert card.rarity != Secret;
    var last, record := AtRecord(Final(committed), card, None), [Continue(i, Says(true))] + [];
    if env.hasVault {
      AskingAlone(env, w, wallet);
      RunJoins(env, w, Asking(wallet, i), [Continue(i, Says(covered))] + record);
      CoverageAnswered(env, w, committed, covered);
      var told := w.(told := if covered then w.told else w.told + {wallet});
      hide Run, At, Next, ResolveGenesis, Asking;
      RunOne(env, At(w, AtCovered(committed)), Continue(i, Says(covered)), record);
      RunOne(env, At(told, last), Continue(i, Says(true)), []);
      RunNone(env, Next(env, At(told, last), Continue(i, Says(true))));
      Recorded(env, told, Final(committed), card, None);
    } else {
      AskingNoVault(env, w, wallet);
      RunJoins(env, w, Asking(wallet, i), record);
      hide Run, At, Next, ResolveGenesis, Asking;
      RunOne(env, At(w, last), Continue(i, Says(true)), []);
      RunNone(env, Next(env, At(w, last), Continue(i, Says(true))));
      Recorded(env, w, Final(committed), card, None);
    }
  }

  lemma CoverageAnswered(env: Env, w: World, r: Request, covered: bool)
    requires r.state == Committed && r.hash.Some?
    requires ResolveGenesis(env.draws, r.hash.value, r.wallet, covered).rarity != Secret
    ensures Next(env, At(w, AtCovered(r)), Continue(|w.calls|, Says(covered)))
            == At(w.(told := if covered then w.told else w.told + {r.wallet}),
                  AtRecord(Final(r), ResolveGenesis(env.draws, r.hash.value, r.wallet, covered), None))
  {
    NextOfLast(env, w, AtCovered(r), Says(covered));
    hide ResolveGenesis;
  }

  lemma AskingNoVault(env: Env, w: World, wallet: Wallet)
    requires !env.hasVault && Unclaimed(w, wallet) && OwnRequest(env, w.records, w.records[wallet].request, Pending)
    requires w.records[wallet].request.wallet == wallet
    requires ResolveGenesis(env.draws, env.hashes(w.records[wallet].request.target), wallet, false).rarity != Secret
    ensures var r := w.records[wallet].request;
            var committed := r.(state := Committed, hash := Some(env.hashes(r.target)));
            Run(env, w, Asking(wallet, |w.calls|))
            == At(w, AtRecord(Final(committed), ResolveGenesis(env.draws, env.hashes(r.target), wallet, false), None))
  {
    var r, i := w.records[wallet].request, |w.calls|;
    RunOne(env, w, Begin(wallet, false), [Continue(i, Says(true))] + ([Continue(i, Says(true))] + []));
    NextOfLast(env, w, AtFind(wallet, false), Says(true));
    RunOne(env, At(w, AtFind(wallet, false)), Continue(i, Says(true)), [Continue(i, Says(true))] + []);
    NextOfLast(env, w, AtBlock(r), Says(true));
    RunOne(env, At(w, AtBlock(r)), Continue(i, Says(true)), []);
    hide Run, At, Put, ResolveGenesis;
    var committed := r.(state := Committed, hash := Some(env.hashes(r.target)));
    RunNone(env, At(w, AtRecord(Final(committed), ResolveGenesis(env.draws, env.hashes(r.target), wallet, false), None)));
  }

  /** A reservation that goes through, and the record after it. */
  function Reserving(i: nat, a: nat): seq<Action> {
    [Continue(i, Says(true))] + ([Proceed(a, Says(true))] + ([Proceed(a, Says(true))] + ([Proceed(a, Says(true))]
    + ([Continue(i, Says(true))] + ([Continue(i, Says(true))] + [])))))
  }

  /** The world with a call waiting for an attempt of its own. */
  function Awaiting(w: World, r: Resolved, committed: bool, stage: Stage): World {
    At(w, AtAttempt(r, committed, |w.attempts|)).(
      attempts := w.attempts + [Attempt(r.request.wallet, stage)],
      inFlight := w.inFlight[r.request.wallet := |w.attempts|])
  }

  lemma AttemptStarts(env: Env, w: World, r: Resolved, committed: bool)
    requires r.request.wallet !in w.inFlight
    ensures Next(env, At(w, AtReserve(r, committed)), Continue(|w.calls|, Says(true))) == Awaiting(w, r, committed, Simulating)
  {
    NextOfLast(env, w, AtReserve(r, committed), Says(true));
  }

  lemma AttemptLast(w: World, r: Resolved, committed: bool, s: Stage, t: Stage)
    ensures Awaiting(w, r, committed, s).attempts[|w.attempts|] == Attempt(r.request.wallet, s)
    ensures SetStage(Awaiting(w, r, committed, s), |w.attempts|, t) == Awaiting(w, r, committed, t)
  {
  }

  lemma AttemptSucceeds(env: Env, w: World, r: Resolved, committed: bool)
    requires r.request.wallet in w.entitled && r.request.wallet !in w.inFlight
    ensures var a, tx := |w.attempts|, w.entitled[r.request.wallet];
            && Next(env, Awaiting(w, r, committed, Simulating), Proceed(a, Says(true))) == Awaiting(w, r, committed, Finding)
            && Next(env, Awaiting(w, r, committed, Finding), Proceed(a, Says(true))) == Awaiting(w, r, committed, Pricing(tx))
            && Next(env, Awaiting(w, r, committed, Pricing(tx)), Proceed(a, Says(true)))
               == Awaiting(w, r, committed, Stage.Finished(ReservedBy(tx))).(inFlight := w.inFlight)
  {
    var tx := w.entitled[r.request.wallet];
    AttemptLast(w, r, committed, Simulating, Finding);
    AttemptLast(w, r, committed, Finding, Pricing(tx));
    AttemptLast(w, r, committed, Pricing(tx), Stage.Finished(ReservedBy(tx)));
    assert w.inFlight[r.request.wallet := |w.attempts|] - {r.request.wallet} == w.inFlight;
    hide SetStage;
  }

  /** The attempt found the reservation: what is left of the world beside the call that records it. */
  function AfterFinding(w: World, r: Resolved): World
    requires r.request.wallet in w.entitled
  {
    w.(attempts := w.attempts + [Attempt(r.request.wallet, Stage.Finished(ReservedBy(w.entitled[r.request.wallet])))])
  }

  lemma AttemptHeard(env: Env, w: World, r: Resolved, committed: bool)
    requires r.request.wallet in w.entitled && r.card.rarity == Secret
    ensures var tx := w.entitled[r.request.wallet];
            Next(env, Awaiting(w, r, committed, Stage.Finished(ReservedBy(tx))).(inFlight := w.inFlight), Continue(|w.calls|, Says(true)))
            == At(AfterFinding(w, r), AtRecord(Final(r.request), r.card, Some(tx)))
  {
    var tx := w.entitled[r.request.wallet];
    assert Awaiting(w, r, committed, Stage.Finished(ReservedBy(tx))).(inFlight := w.inFlight)
        == At(AfterFinding(w, r), AtAttempt(r, committed, |w.attempts|));
    NextOfLast(env, AfterFinding(w, r), AtAttempt(r, committed, |w.attempts|), Says(true));
    hide At, Put;
  }

  /** A reservation already on chain is found again, and the Secret recorded with it. */
  lemma ReservedIsRecorded(env: Env, w: World, r: Resolved, committed: bool)
    requires r.request.wallet in w.entitled && r.request.wallet !in w.inFlight && r.card.rarity == Secret
    requires Unclaimed(w, r.request.wallet) && r.request.hash.Some?
    ensures var v := Run(env, At(w, AtReserve(r, committed)), Reserving(|w.calls|, |w.attempts|));
            Claimed(v.records, r.request.wallet) && v.records[r.request.wallet].claim.value.card == r.card
  {
    var i, a, tx := |w.calls|, |w.attempts|, w.entitled[r.request.wallet];
    AttemptStarts(env, w, r, committed);
    AttemptSucceeds(env, w, r, committed);
    AttemptHeard(env, w, r, committed);
    var found := AfterFinding(w, r);
    var last := At(found, AtRecord(Final(r.request), r.card, Some(tx)));
    Recorded(env, found, Final(r.request), r.card, Some(tx));
    var three := [Continue(i, Says(true))] + ([Continue(i, Says(true))] + []);
    var four := [Proceed(a, Says(true))] + three;
    var five := [Proceed(a, Says(true))] + four;
    hide Run, At, Next, Awaiting;
    RunOne(env, At(w, AtReserve(r, committed)), Continue(i, Says(true)), [Proceed(a, Says(true))] + five);
    RunOne(env, Awaiting(w, r, committed, Simulating), Proceed(a, Says(true)), five);
    RunOne(env, Awaiting(w, r, committed, Finding), Proceed(a, Says(true)), four);
    RunOne(env, Awaiting(w, r, committed, Pricing(tx)), Proceed(a, Says(true)), three);
    RunOne(env, Awaiting(w, r, committed, Stage.Finished(ReservedBy(tx))).(inFlight := w.inFlight), Continue(i, Says(true)),
           [Continue(i, Says(true))] + []);
    RunOne(env, last, Continue(i, Says(true)), []);
    RunNone(env, Next(env, last, Continue(i, Says(true))));
  }

  /** A status read nothing interrupts, told `covered` if it asks. */
  function ReadAlone(w: World, wallet: Wallet, covered: bool): seq<Action> {
    var i, a := |w.calls|, |w.attempts|;
    if FoundCommitted(w.records, wallet) then [Begin(wallet, false)] + ([Continue(i, Says(true))] + Reserving(i, a))
    else if covered then Asking(wallet, i) + ([Continue(i, Says(true))] + Reserving(i, a))
    else ReadUncovered(wallet, i)
  }

  /**
   A reservation has landed and no claim is written, a crash or not. The next read,
   served alone, deals the Secret exactly when the request is stored COMMITTED or the
   vault covers one more reward at that moment; otherwise the reserved Secret is dealt as
   a Legendary. Only then does having been interrupted cost nothing.
  */
  lemma LandedSecretKeptIff(env: Env, w: World, wallet: Wallet, covered: bool)
    requires InRange(env.draws) && Sound(env, w) && env.hasVault
    requires Unclaimed(w, wallet) && wallet in w.entitled && wallet !in w.inFlight
    ensures var v := Run(env, w, ReadAlone(w, wallet, covered));
            && Claimed(v.records, wallet)
            && var card := v.records[wallet].claim.value.card;
            && (card.rarity == Secret <==> FoundCommitted(w.records, wallet) || covered)
            && (card.rarity != Secret ==> card.rarity == Legendary)
  {
    RecordsOf(env, w);
    RecordAt(env, w, wallet);
    EntitledDrew(env, w, wallet);
    hide Sound, GoodRecords, InRange;
    if FoundCommitted(w.records, wallet) {
      CommittedKept(env, w, wallet);
    } else if covered {
      CoveredKept(env, w, wallet);
    } else {
      UncoveredDealsLegendary(env, w, wallet);
    }
  }

  lemma EntitledDrew(env: Env, w: World, wallet: Wallet)
    requires Sound(env, w) && wallet in w.entitled
    ensures SecretDrawn(env, w.records, wallet)
  {
  }

  lemma CommittedKept(env: Env, w: World, wallet: Wallet)
    requires env.hasVault && Unclaimed(w, wallet) && wallet in w.entitled && wallet !in w.inFlight
    requires SecretDrawn(env, w.records, wallet) && w.records[wallet].request.wallet == wallet
    requires OwnRequest(env, w.records, w.records[wallet].request, Committed)
    ensures var v := Run(env, w, [Begin(wallet, false)] + ([Continue(|w.calls|, Says(true))] + Reserving(|w.calls|, |w.attempts|)));
            Claimed(v.records, wallet) && v.records[wallet].claim.value.card.rarity == Secret
  {
    var r, i := w.records[wallet].request, |w.calls|;
    var resolved := Resolved(r, ResolveGenesis(env.draws, env.hashes(r.target), wallet, true));
    NextOfLast(env, w, AtFind(wallet, false), Says(true));
    RunOne(env, w, Begin(wallet, false), [Continue(i, Says(true))] + Reserving(i, |w.attempts|));
    RunOne(env, At(w, AtFind(wallet, false)), Continue(i, Says(true)), Reserving(i, |w.attempts|));
    ReservedIsRecorded(env, w, resolved, true);
    hide Run, At, Put, ResolveGenesis, Reserving;
  }

  lemma CoverageGranted(env: Env, w: World, r: Request)
    requires env.hasVault && r.state == Committed && r.hash.Some? && DrawsSecret(env.draws, r.hash.value, r.wallet)
    ensures Next(env, At(w, AtCovered(r)), Continue(|w.calls|, Says(true)))
            == At(w, AtReserve(Resolved(r, ResolveGenesis(env.draws, r.hash.value, r.wallet, true)), false))
  {
    NextOfLast(env, w, AtCovered(r), Says(true));
    hide ResolveGenesis;
  }

  lemma CoveredKept(env: Env, w: World, wallet: Wallet)
    requires env.hasVault && Unclaimed(w, wallet) && wallet in w.entitled && wallet !in w.inFlight
    requires SecretDrawn(env, w.records, wallet) && w.records[wallet].request.wallet == wallet
    requires OwnRequest(env, w.records, w.records[wallet].request, Pending)
    ensures var v := Run(env, w, Asking(wallet, |w.calls|) + ([Continue(|w.calls|, Says(true))] + Reserving(|w.calls|, |w.attempts|)));
            Claimed(v.records, wallet) && v.records[wallet].claim.value.card.rarity == Secret
  {
    var r, i := w.records[wallet].request, |w.calls|;
    var committed := r.(state := Committed, hash := Some(env.hashes(r.target)));
    var resolved := Resolved(committed, ResolveGenesis(env.draws, env.hashes(r.target), wallet, true));
    AskingAlone(env, w, wallet);
    CoverageGranted(env, w, committed);
    ReservedIsRecorded(env, w, resolved, false);
    RunJoins(env, w, Asking(wallet, i), [Continue(i, Says(true))] + Reserving(i, |w.attempts|));
    hide Run, At, Next, ResolveGenesis, Reserving, Asking;
    RunOne(env, At(w, AtCovered(committed)), Continue(i, Says(true)), Reserving(i, |w.attempts|));
  }

  /** A status read told of coverage, whose reservation fails. */
  function ReadFailing(wallet: Wallet, i: nat, a: nat): seq<Action> {
    Asking(wallet, i) + ([Continue(i, Says(true))] + ([Continue(i, Says(true))] + ([Proceed(a, Fails)]
    + ([Continue(i, Says(true))] + ([Continue(i, Says(true))] + [])))))
  }

  lemma AttemptFails(env: Env, w: World, r: Resolved)
    requires r.request.wallet !in w.inFlight
    ensures var failed := w.(attempts := w.attempts + [Attempt(r.request.wallet, Stage.Finished(AttemptFailed))]);
            && Next(env, Awaiting(w, r, false, Simulating), Proceed(|w.attempts|, Fails)) == At(failed, AtAttempt(r, false, |w.attempts|))
            && Next(env, At(failed, AtAttempt(r, false, |w.attempts|)), Continue(|w.calls|, Says(true))) == At(failed, AtCommit(r.request))
  {
    var failed := w.(attempts := w.attempts + [Attempt(r.request.wallet, Stage.Finished(AttemptFailed))]);
    AttemptLast(w, r, false, Simulating, Stage.Finished(AttemptFailed));
    assert w.inFlight[r.request.wallet := |w.attempts|] - {r.request.wallet} == w.inFlight;
    NextOfLast(env, failed, AtAttempt(r, false, |w.attempts|), Says(true));
    hide SetStage, Put;
  }

  lemma HeldBack(env: Env, w: World, r: Request)
    requires r.wallet in w.records && w.records[r.wallet].request.state == Pending
    ensures var v := Next(env, At(w, AtCommit(r)), Continue(|w.calls|, Says(true)));
            v.records == w.records[r.wallet := Stored(r, None)] && v.calls == w.calls + [Done(SecretPending)]
  {
    NextOfLast(env, w, AtCommit(r), Says(true));
  }

  /** In any sound world: a Secret whose reservation fails is stored COMMITTED and shown to nobody. */
  lemma FailedIsHeldBack(env: Env, w: World, wallet: Wallet)
    requires InRange(env.draws) && Sound(env, w) && env.hasVault
    requires Unclaimed(w, wallet) && w.records[wallet].request.state == Pending && SecretDrawn(env, w.records, wallet)
    requires wallet !in w.inFlight
    ensures var v := Run(env, w, ReadFailing(wallet, |w.calls|, |w.attempts|));
            var r := w.records[wallet].request;
            && v.records == w.records[wallet := Stored(r.(state := Committed, hash := Some(env.hashes(r.target))), None)]
            && v.calls == w.calls + [Done(SecretPending)]
  {
    RecordsOf(env, w);
    RecordAt(env, w, wallet);
    hide Sound, InRange, GoodRecords;
    var r, i, a := w.records[wallet].request, |w.calls|, |w.attempts|;
    var committed := r.(state := Committed, hash := Some(env.hashes(r.target)));
    var resolved := Resolved(committed, ResolveGenesis(env.draws, env.hashes(r.target), wallet, true));
    var failed := w.(attempts := w.attempts + [Attempt(wallet, Stage.Finished(AttemptFailed))]);
    AskingAlone(env, w, wallet);
    CoverageGranted(env, w, committed);
    AttemptStarts(env, w, resolved, false);
    AttemptFails(env, w, resolved);
    HeldBack(env, failed, committed);
    var two := [Continue(i, Says(true))] + ([Continue(i, Says(true))] + []);
    var three := [Proceed(a, Fails)] + two;
    var four := [Continue(i, Says(true))] + three;
    RunJoins(env, w, Asking(wallet, i), [Continue(i, Says(true))] + four);
    hide Run, At, Next, ResolveGenesis, Asking, Awaiting;
    RunOne(env, At(w, AtCovered(committed)), Continue(i, Says(true)), four);
    RunOne(env, At(w, AtReserve(resolved, false)), Continue(i, Says(true)), three);
    RunOne(env, Awaiting(w, resolved, false, Simulating), Proceed(a, Fails), two);
    RunOne(env, At(failed, AtAttempt(resolved, false, a)), Continue(i, Says(true)), [Continue(i, Says(true))] + []);
    RunOne(env, At(failed, AtCommit(committed)), Continue(i, Says(true)), []);
    RunNone(env, Next(env, At(failed, AtCommit(committed)), Continue(i, Says(true))));
  }

  /** A status read told of coverage, whose reservation is simulated, sent, lands and is confirmed. */
  function ReadReserving(wallet: Wallet, i: nat, a: nat, tx: Tx): seq<Action> {
    Asking(wallet, i) + ([Continue(i, Says(true))] + ([Continue(i, Says(true))] + ([Proceed(a, Says(true))] + ([Proceed(a, Says(true))]
    + ([Land(wallet, tx, true)] + ([Proceed(a, Says(true))] + ([Proceed(a, Says(true))]
    + ([Continue(i, Says(true))] + ([Continue(i, Says(true))] + [])))))))))
  }

  /** The world once the wallet's transaction has landed. */
  function Entitling(w: World, wallet: Wallet): World {
    w.(mempool := w.mempool + {(wallet, w.nextTx)} - {(wallet, w.nextTx)}, nextTx := w.nextTx + 1, entitled := w.entitled[wallet := w.nextTx])
  }

  lemma AttemptSends(env: Env, w: World, r: Resolved)
    requires r.request.wallet !in w.entitled
    ensures var a, tx, wallet := |w.attempts|, w.nextTx, r.request.wallet;
            var sent := w.(mempool := w.mempool + {(wallet, tx)}, nextTx := w.nextTx + 1);
            && Next(env, Awaiting(w, r, false, Simulating), Proceed(a, Says(true))) == Awaiting(w, r, false, Sending)
            && Next(env, Awaiting(w, r, false, Sending), Proceed(a, Says(true))) == Awaiting(sent, r, false, Confirming(tx))
            && Next(env, Awaiting(sent, r, false, Confirming(tx)), Land(wallet, tx, true)) == Awaiting(Entitling(w, wallet), r, false, Confirming(tx))
  {
    AttemptLast(w, r, false, Simulating, Sending);
    AttemptLast(w, r, false, Sending, Confirming(w.nextTx));
    hide SetStage;
  }

  lemma AttemptConfirms(env: Env, w: World, r: Resolved)
    requires r.request.wallet in w.entitled && r.request.wallet !in w.inFlight
    ensures var a, tx := |w.attempts|, w.entitled[r.request.wallet];
            && Next(env, Awaiting(w, r, false, Confirming(tx)), Proceed(a, Says(true))) == Awaiting(w, r, false, Pricing(tx))
            && Next(env, Awaiting(w, r, false, Pricing(tx)), Proceed(a, Says(true)))
               == Awaiting(w, r, false, Stage.Finished(ReservedBy(tx))).(inFlight := w.inFlight)
  {
    var tx := w.entitled[r.request.wallet];
    AttemptLast(w, r, false, Confirming(tx), Pricing(tx));
    AttemptLast(w, r, false, Pricing(tx), Stage.Finished(ReservedBy(tx)));
    assert w.inFlight[r.request.wallet := |w.attempts|] - {r.request.wallet} == w.inFlight;
    hide SetStage;
  }

  /** In any sound world: a Secret drawn while the vault covers it, whose reservation goes through, is reserved on chain and dealt. */
  lemma FreshSecretIsDealt(env: Env, w: World, wallet: Wallet)
    requires InRange(env.draws) && Sound(env, w) && env.hasVault
    requires Unclaimed(w, wallet) && w.records[wallet].request.state == Pending && SecretDrawn(env, w.records, wallet)
    requires wallet !in w.inFlight && wallet !in w.entitled
    ensures var v := Run(env, w, ReadReserving(wallet, |w.calls|, |w.attempts|, w.nextTx));
            && v.entitled == w.entitled[wallet := w.nextTx] && Claimed(v.records, wallet)
            && v.records[wallet].claim.value.card.rarity == Secret && v.records[wallet].claim.value.reservation == Some(w.nextTx)
            && v.calls == w.calls + [Done(Ready(v.records[wallet].claim.value))]
  {
    RecordsOf(env, w);
    RecordAt(env, w, wallet);
    hide Sound, InRange, GoodRecords;
    var r, i, a, tx := w.records[wallet].request, |w.calls|, |w.attempts|, w.nextTx;
    var committed := r.(state := Committed, hash := Some(env.hashes(r.target)));
    var resolved := Resolved(committed, ResolveGenesis(env.draws, env.hashes(r.target), wallet, true));
    var sent, landed := w.(mempool := w.mempool + {(wallet, tx)}, nextTx := w.nextTx + 1), Entitling(w, wallet);
    var found := AfterFinding(landed, resolved);
    var last := At(found, AtRecord(Final(committed), resolved.card, Some(tx)));
    AskingAlone(env, w, wallet);
    CoverageGranted(env, w, committed);
    AttemptStarts(env, w, resolved, false);
    AttemptSends(env, w, resolved);
    AttemptConfirms(env, landed, resolved);
    AttemptHeard(env, landed, resolved, false);
    Recorded(env, found, Final(committed), resolved.card, Some(tx));
    var two := [Continue(i, Says(true))] + ([Continue(i, Says(true))] + []);
    var three := [Proceed(a, Says(true))] + two;
    var four := [Proceed(a, Says(true))] + three;
    var five := [Land(wallet, tx, true)] + four;
    var six := [Proceed(a, Says(true))] + five;
    var seven := [Proceed(a, Says(true))] + six;
    var eight := [Continue(i, Says(true))] + seven;
    RunJoins(env, w, Asking(wallet, i), [Continue(i, Says(true))] + eight);
    hide Run, At, Next, ResolveGenesis, Asking, Awaiting;
    RunOne(env, At(w, AtCovered(committed)), Continue(i, Says(true)), eight);
    RunOne(env, At(w, AtReserve(resolved, false)), Continue(i, Says(true)), seven);
    RunOne(env, Awaiting(w, resolved, false, Simulating), Proceed(a, Says(true)), six);
    RunOne(env, Awaiting(w, resolved, false, Sending), Proceed(a, Says(true)), five);
    RunOne(env, Awaiting(sent, resolved, false, Confirming(tx)), Land(wallet, tx, true), four);
    RunOne(env, Awaiting(landed, resolved, false, Confirming(tx)), Proceed(a, Says(true)), three);
    RunOne(env, Awaiting(landed, resolved, false, Pricing(tx)), Proceed(a, Says(true)), two);
    RunOne(env, Awaiting(landed, resolved, false, Stage.Finished(ReservedBy(tx))).(inFlight := landed.inFlight), Continue(i, Says(true)),
           [Continue(i, Says(true))] + []);
    RunOne(env, last, Continue(i, Says(true)), []);
    RunNone(env, Next(env, last, Continue(i, Says(true))));
  }

  // ---------------------------------------------------------------------
  // What a read answers
  // ---------------------------------------------------------------------

  /** Who asks finds nothing, its claim or its pending block; a wallet that already claimed is told so when it asks for another. */
  lemma ReadAnswers(env: Env, w: World, wallet: Wallet, asking: bool)
    requires Sound(env, w)
    ensures var i := |w.calls|;
            var v := Next(env, At(w, AtFind(wallet, asking)), Continue(i, Says(true)));
            && (wallet !in w.records ==> v == At(w, if asking then AtBalance(wallet) else Done(NoRequest)))
            && (Claimed(w.records, wallet) ==>
                  v == At(w, Done(if asking then AlreadyClaimed(w.records[wallet].claim.value) else Ready(w.records[wallet].claim.value))))
            && (Unclaimed(w, wallet) && w.records[wallet].request.state == Pending ==>
                  && v == At(w, AtBlock(w.records[wallet].request))
                  && Next(env, v, Continue(i, Says(false))) == At(w, Done(PendingFinality(w.records[wallet].request.target))))
            && Next(env, At(w, AtBalance(wallet)), Continue(i, Says(false))) == At(w, Done(NotEligible))
  {
    NextOfLast(env, w, AtFind(wallet, asking), Says(true));
    NextOfLast(env, w, AtBalance(wallet), Says(false));
    if wallet in w.records {
      NextOfLast(env, w, AtBlock(w.records[wallet].request), Says(false));
    }
    hide Sound, At, Put, ResolveAndReveal, BlockFinal;
  }

  /** A reservation joins the attempt under way for its wallet, and no second one starts. */
  lemma ReservationJoins(env: Env, w: World, r: Resolved, committed: bool)
    ensures var v, x := Next(env, At(w, AtReserve(r, committed)), Continue(|w.calls|, Says(true))), r.request.wallet;
            if x in w.inFlight then v == At(w, AtAttempt(r, committed, w.inFlight[x]))
            else v == Awaiting(w, r, committed, Simulating)
  {
    NextOfLast(env, w, AtReserve(r, committed), Says(true));
  }

  /** A transaction in the mempool lands once; it reserves exactly for a wallet without a reservation, where the vault covers it. */
  lemma LandsIff(env: Env, w: World, wallet: Wallet, tx: Tx, covered: bool, x: Wallet)
    ensures var v := Next(env, w, Land(wallet, tx, covered));
            && (x in v.entitled <==> x in w.entitled || (x == wallet && (wallet, tx) in w.mempool && covered))
            && (x in w.entitled ==> v.entitled[x] == w.entitled[x])
            && (x in v.entitled && x !in w.entitled ==> v.entitled[x] == tx)
            && v.mempool == w.mempool - {(wallet, tx)}
            && v == w.(entitled := v.entitled, mempool := v.mempool)
  {
    hide ContinueCall, ProceedAttempt;
  }

  // ---------------------------------------------------------------------
  // Runs that lose a reserved Secret
  // ---------------------------------------------------------------------

  /** A first request up to the instant its reservation lands. */
  function UntilLanded(wallet: Wallet): seq<Action> {
    [Begin(wallet, true), Continue(0, Says(true)), Continue(0, Says(true)), Continue(0, Number(5)), Continue(0, Says(true)),
     Continue(0, Says(true)), Continue(0, Says(true)), Continue(0, Says(true)),
     Proceed(0, Says(true)), Proceed(0, Says(true)), Land(wallet, 0, true)]
  }

  function Bound(wallet: Wallet): Records {
    map[wallet := Stored(Request(wallet, Pending, 15, None), None)]
  }

  function CommittedTo15(env: Env, wallet: Wallet): Request {
    Request(wallet, Committed, 15, Some(env.hashes(15)))
  }

  function DrawnSecret(env: Env, wallet: Wallet): Resolved {
    Resolved(CommittedTo15(env, wallet), ResolveGenesis(env.draws, env.hashes(15), wallet, true))
  }

  function Attempting(env: Env, wallet: Wallet, stage: Stage): World {
    START.(records := Bound(wallet), calls := [AtAttempt(DrawnSecret(env, wallet), false, 0)],
           attempts := [Attempt(wallet, stage)], inFlight := map[wallet := 0])
  }

  function Sent(env: Env, wallet: Wallet): World {
    Attempting(env, wallet, Confirming(0)).(mempool := {(wallet, 0)}, nextTx := 1)
  }

  /** Bound to block 15, entitled on chain, the first call still waiting for its attempt. */
  function Landed(env: Env, wallet: Wallet): World {
    Sent(env, wallet).(mempool := {}, entitled := map[wallet := 0])
  }

  /** The worlds on the way. */
  function Worlds(env: Env, wallet: Wallet): seq<World> {
    var bound := START.(records := Bound(wallet));
    [START,
     START.(calls := [AtFind(wallet, true)]),
     START.(calls := [AtBalance(wallet)]),
     START.(calls := [AtHead(wallet)]),
     START.(calls := [AtOpen(wallet, 15)]),
     bound.(calls := [AtBlock(Request(wallet, Pending, 15, None))]),
     bound.(calls := [AtCovered(CommittedTo15(env, wallet))]),
     bound.(calls := [AtReserve(DrawnSecret(env, wallet), false)]),
     Attempting(env, wallet, Simulating),
     Attempting(env, wallet, Sending),
     Sent(env, wallet),
     Landed(env, wallet)]
  }

  /** A run passes through the worlds its steps lead to. */
  lemma {:induction false} RunPasses(env: Env, worlds: seq<World>, actions: seq<Action>)
    requires |worlds| == |actions| + 1
    requires forall k | 0 <= k < |actions| :: Next(env, worlds[k], actions[k]) == worlds[k + 1]
    ensures Run(env, worlds[0], actions) == worlds[|actions|]
    decreases |actions|
  {
    hide Next;
    if actions != [] {
      RunPasses(env, worlds[1..], actions[1..]);
    }
  }

  lemma RequestLeads(env: Env, wallet: Wallet)
    requires env.hasVault && DrawnSecret(env, wallet).card.rarity == Secret
    ensures var ws, actions := Worlds(env, wallet), UntilLanded(wallet);
            forall k | 0 <= k < 7 :: Next(env, ws[k], actions[k]) == ws[k + 1]
  {
    hide ResolveGenesis;
    var ws, actions := Worlds(env, wallet), UntilLanded(wallet);
    assert Next(env, ws[0], actions[0]) == ws[1];
    assert Next(env, ws[1], actions[1]) == ws[2];
    assert Next(env, ws[2], actions[2]) == ws[3];
    assert Next(env, ws[3], actions[3]) == ws[4];
    assert Next(env, ws[4], actions[4]) == ws[5];
    assert Next(env, ws[5], actions[5]) == ws[6];
    assert Next(env, ws[6], actions[6]) == ws[7];
  }

  lemma ReservationLeads(env: Env, wallet: Wallet)
    requires env.hasVault && DrawnSecret(env, wallet).card.rarity == Secret
    ensures var ws, actions := Worlds(env, wallet), UntilLanded(wallet);
            forall k | 7 <= k < 11 :: Next(env, ws[k], actions[k]) == ws[k + 1]
  {
    hide ResolveGenesis;
    var ws, actions := Worlds(env, wallet), UntilLanded(wallet);
    assert Next(env, ws[7], actions[7]) == ws[8];
    assert Next(env, ws[8], actions[8]) == ws[9];
    assert Next(env, ws[9], actions[9]) == ws[10];
    assert Next(env, ws[10], actions[10]) == ws[11];
  }

  lemma RequestLands(env: Env, wallet: Wallet)
    requires env.hasVault && DrawsSecret(env.draws, env.hashes(15), wallet)
    ensures Run(env, START, UntilLanded(wallet)) == Landed(env, wallet)
  {
    assert DrawnSecret(env, wallet).card.rarity == Secret;
    RequestLeads(env, wallet);
    ReservationLeads(env, wallet);
    hide Next, ResolveGenesis, Landed, Run;
    assert |UntilLanded(wallet)| == 11 && |Worlds(env, wallet)| == 12;
    RunPasses(env, Worlds(env, wallet), UntilLanded(wallet));
  }

  /** Entitled on chain, and dealt a Legendary with no reservation. */
  predicate Lost(w: World, wallet: Wallet) {
    && wallet in w.entitled && Claimed(w.records, wallet)
    && w.records[wallet].claim.value.card.rarity == Legendary && w.records[wallet].claim.value.reservation.None?
  }

  /** The reservation took the last reward, the process died, and the next read finds no coverage: the reserved Secret is dealt as Legendary. */
  lemma CrashCanLoseSecret(env: Env, wallet: Wallet)
    requires InRange(env.draws) && env.hasVault && DrawsSecret(env.draws, env.hashes(15), wallet)
    ensures Lost(Run(env, START, UntilLanded(wallet) + [Crash] + ReadUncovered(wallet, 0)), wallet)
  {
    var crashed := UntilLanded(wallet) + [Crash];
    RequestLands(env, wallet);
    RunJoins(env, START, UntilLanded(wallet), [Crash]);
    RunJoins(env, START, crashed, ReadUncovered(wallet, 0));
    StartSound(env);
    RunSound(env, START, crashed);
    var w := Run(env, START, crashed);
    assert w == Landed(env, wallet).(calls := [], attempts := [], inFlight := map[]);
    hide Sound, InRange, ReadUncovered, UntilLanded, ResolveGenesis;
    UncoveredDealsLegendary(env, w, wallet);
    hide Run;
  }

  /** No crash is needed: a second read while the first call still awaits its own reservation does the same. */
  lemma RaceCanLoseSecret(env: Env, wallet: Wallet)
    requires InRange(env.draws) && env.hasVault && DrawsSecret(env.draws, env.hashes(15), wallet)
    ensures Lost(Run(env, START, UntilLanded(wallet) + ReadUncovered(wallet, 1)), wallet)
  {
    RequestLands(env, wallet);
    RunJoins(env, START, UntilLanded(wallet), ReadUncovered(wallet, 1));
    StartSound(env);
    RunSound(env, START, UntilLanded(wallet));
    var w := Landed(env, wallet);
    hide Sound, InRange, ReadUncovered, UntilLanded, ResolveGenesis, Run;
    UncoveredDealsLegendary(env, w, wallet);
  }
}

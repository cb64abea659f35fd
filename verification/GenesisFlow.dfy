/**
 The Genesis claim protocol as a state machine: every await of
 packages/genesis-service/src/flow.ts and packages/chain/src/secret-vault.ts is a
 step of its own, taken in any order, with any answer, by any number of calls.
 */
module GenesisFlow {
  import opened Cards
  import opened Genesis
  import opened Wrappers

  const ENTROPY_TARGET_DISTANCE: nat := 10

  /** What never changes: the finalized chain, the draws, and whether a vault key is configured. */
  datatype Env = Env(hashes: nat -> string, draws: Draws, hasVault: bool)

  datatype Answer =
    | NoRequest
    | NotEligible
    | PendingFinality(target: nat)
    | SecretPending
    | Ready(claim: Claim)
    | AlreadyClaimed(claim: Claim)
    | Threw

  /** Where one call is waiting, with the locals it holds. */
  datatype Call =
    | AtFind(wallet: Wallet, asking: bool)
    | AtBalance(wallet: Wallet)
    | AtHead(wallet: Wallet)
    | AtOpen(wallet: Wallet, target: nat)
    | AtBlock(request: Request)
    | AtCovered(request: Request)
    | AtReserve(resolved: Resolved, committed: bool)
    | AtAttempt(resolved: Resolved, committed: bool, attempt: nat)
    | AtCommit(request: Request)
    | AtRecord(request: Request, card: Genesis, reservation: Option<Tx>)
    | Done(answer: Answer)

  datatype Reserved = ReservedBy(tx: Tx) | Uncovered | AttemptFailed

  /** Where one reservation attempt is waiting. */
  datatype Stage = Simulating | Finding | Sending | Confirming(tx: Tx) | Pricing(tx: Tx) | Finished(outcome: Reserved)

  datatype Attempt = Attempt(wallet: Wallet, stage: Stage)

  /**
   The database, the vault contract with its unlanded transactions, and one process;
   `told` holds the wallets for which the vault ever answered that it is out of coverage.
  */
  datatype World = World(
    records: Records,
    nextNumber: nat,
    entitled: map<Wallet, Tx>,
    mempool: set<(Wallet, Tx)>,
    nextTx: Tx,
    calls: seq<Call>,
    attempts: seq<Attempt>,
    inFlight: map<Wallet, nat>,
    told: set<Wallet>)

  /** What the awaited thing answers. */
  datatype Reply = Fails | Says(yes: bool) | Number(n: nat)

  datatype Action =
    | Begin(wallet: Wallet, asking: bool)
    | Continue(call: nat, reply: Reply)
    | Proceed(attempt: nat, reply: Reply)
    | Land(wallet: Wallet, tx: Tx, covered: bool)
    | Crash

  const START: World := World(map[], 1, map[], {}, 0, [], [], map[], {})

  // ---------------------------------------------------------------------
  // One call
  // ---------------------------------------------------------------------

  /** A finalized card on its way to the record. */
  function ToRecord(r: Resolved, reservation: Option<Tx>): Call {
    match FinalizeGenesis(r, reservation)
    case Err(_) => Done(Threw)
    case Ok(ReservationFailed) => Done(SecretPending)
    case Ok(Revealable(request, card, tx)) => AtRecord(request, card, tx)
  }

  /** No reservation: keep the commit, show nothing. */
  function HoldBack(r: Request, committed: bool): Call {
    if committed then Done(SecretPending) else AtCommit(r)
  }

  function Reveal(env: Env, r: Resolved, committed: bool): Call {
    if r.card.rarity != Secret then ToRecord(r, None)
    else if !env.hasVault then HoldBack(r.request, committed)
    else AtReserve(r, committed)
  }

  function ResolveAndReveal(env: Env, r: Request, secretAvailable: bool, committed: bool): Call {
    match ResolveRequest(env.draws, r, secretAvailable)
    case Err(_) => Done(Threw)
    case Ok(resolved) => Reveal(env, resolved, committed)
  }

  function Advance(env: Env, s: Stored): Call {
    if s.claim.Some? then Done(Ready(s.claim.value))
    else if s.request.state == Committed then ResolveAndReveal(env, s.request, true, true)
    else if s.request.state != Pending then Done(Threw)
    else AtBlock(s.request)
  }

  function Found(env: Env, records: Records, w: Wallet, asking: bool): Call {
    if w !in records then if asking then AtBalance(w) else Done(NoRequest)
    else if asking && records[w].claim.Some? then Done(AlreadyClaimed(records[w].claim.value))
    else Advance(env, records[w])
  }

  function BlockFinal(env: Env, r: Request): Call {
    match CommitEntropy(r, r.target, env.hashes(r.target))
    case Err(_) => Done(Threw)
    case Ok(committed) => if env.hasVault then AtCovered(committed) else ResolveAndReveal(env, committed, false, false)
  }

  function Outcome(env: Env, r: Resolved, committed: bool, o: Reserved): Call {
    match o
    case AttemptFailed => HoldBack(r.request, committed)
    case Uncovered =>
      (match ResolveRequest(env.draws, r.request, false)
       case Err(_) => Done(Threw)
       case Ok(other) => ToRecord(other, None))
    case ReservedBy(tx) => ToRecord(r, Some(tx))
  }

  function Put(w: World, i: nat, c: Call): World
    requires i < |w.calls|
  {
    w.(calls := w.calls[i := c])
  }

  /** The call joins the attempt under way for its wallet, or starts one. */
  function Reserve(w: World, i: nat, r: Resolved, committed: bool): World
    requires i < |w.calls|
  {
    var wallet := r.request.wallet;
    if wallet in w.inFlight then Put(w, i, AtAttempt(r, committed, w.inFlight[wallet]))
    else
      Put(w, i, AtAttempt(r, committed, |w.attempts|)).(
        attempts := w.attempts + [Attempt(wallet, Simulating)],
        inFlight := w.inFlight[wallet := |w.attempts|])
  }

  function ContinueCall(env: Env, w: World, i: nat, reply: Reply): World
    requires i < |w.calls|
  {
    match w.calls[i]
    case AtFind(wallet, asking) =>
      Put(w, i, if reply.Fails? then Done(Threw) else Found(env, w.records, wallet, asking))
    case AtBalance(wallet) =>
      Put(w, i, if !reply.Says? then Done(Threw) else if reply.yes then AtHead(wallet) else Done(NotEligible))
    case AtHead(wallet) =>
      Put(w, i, if !reply.Number? then Done(Threw) else AtOpen(wallet, reply.n + ENTROPY_TARGET_DISTANCE))
    case AtOpen(wallet, target) =>
      if reply.Fails? || OpenRequest(wallet, target).Err? then Put(w, i, Done(Threw))
      else
        var stands := OpenIn(w.records, OpenRequest(wallet, target).value);
        Put(w, i, Advance(env, Stored(stands.1, None))).(records := stands.0)
    case AtBlock(r) =>
      Put(w, i, if !reply.Says? then Done(Threw) else if reply.yes then BlockFinal(env, r) else Done(PendingFinality(r.target)))
    case AtCovered(r) =>
      if !reply.Says? then Put(w, i, Done(Threw))
      else
        Put(w, i, ResolveAndReveal(env, r, reply.yes, false)).(told := if reply.yes then w.told else w.told + {r.wallet})
    case AtReserve(r, committed) => Reserve(w, i, r, committed)
    case AtAttempt(r, committed, a) =>
      if a < |w.attempts| && w.attempts[a].stage.Finished? then
        Put(w, i, Outcome(env, r, committed, w.attempts[a].stage.outcome))
      else w
    case AtCommit(r) =>
      if reply.Fails? then Put(w, i, Done(Threw))
      else
        (match CommitIn(w.records, r)
         case Err(_) => Put(w, i, Done(Threw))
         case Ok(records) => Put(w, i, Done(SecretPending)).(records := records))
    case AtRecord(r, card, reservation) =>
      if reply.Fails? then Put(w, i, Done(Threw))
      else
        (match RecordIn(w.records, w.nextNumber, r, card, reservation)
         case Err(_) => Put(w, i, Done(Threw))
         case Ok((records, next, claim)) => Put(w, i, Done(Ready(claim))).(records := records, nextNumber := next))
    case Done(_) => w
  }

  // ---------------------------------------------------------------------
  // One attempt, and the chain
  // ---------------------------------------------------------------------

  function SetStage(w: World, a: nat, s: Stage): World
    requires a < |w.attempts|
  {
    w.(attempts := w.attempts[a := Attempt(w.attempts[a].wallet, s)])
  }

  /** An attempt ends, and its wallet's next reservation starts a new one. */
  function Finish(w: World, a: nat, o: Reserved): World
    requires a < |w.attempts|
  {
    SetStage(w, a, Finished(o)).(inFlight := w.inFlight - {w.attempts[a].wallet})
  }

  function ProceedAttempt(w: World, a: nat, reply: Reply): World
    requires a < |w.attempts|
  {
    var wallet := w.attempts[a].wallet;
    match w.attempts[a].stage
    case Simulating =>
      if !reply.Says? then Finish(w, a, AttemptFailed)
      else if wallet in w.entitled then SetStage(w, a, Finding)
      else if reply.yes then SetStage(w, a, Sending)
      else Finish(w, a, Uncovered).(told := w.told + {wallet})
    case Finding =>
      if reply.Says? && reply.yes && wallet in w.entitled then SetStage(w, a, Pricing(w.entitled[wallet]))
      else Finish(w, a, AttemptFailed)
    case Sending =>
      if reply.Fails? then Finish(w, a, AttemptFailed)
      else SetStage(w, a, Confirming(w.nextTx)).(mempool := w.mempool + {(wallet, w.nextTx)}, nextTx := w.nextTx + 1)
    case Confirming(tx) =>
      if reply.Fails? then Finish(w, a, AttemptFailed)
      else if wallet in w.entitled && w.entitled[wallet] == tx then SetStage(w, a, Pricing(tx))
      else w
    case Pricing(tx) =>
      if reply.Fails? then Finish(w, a, AttemptFailed) else Finish(w, a, ReservedBy(tx))
    case Finished(_) => w
  }

  /** A transaction lands: it reserves where the contract allows, once for a wallet. */
  function LandTx(w: World, wallet: Wallet, tx: Tx, covered: bool): World {
    if (wallet, tx) !in w.mempool then w
    else
      w.(mempool := w.mempool - {(wallet, tx)},
         entitled := if wallet !in w.entitled && covered then w.entitled[wallet := tx] else w.entitled)
  }

  function Next(env: Env, w: World, action: Action): World {
    match action
    case Begin(wallet, asking) => w.(calls := w.calls + [AtFind(wallet, asking)])
    case Continue(i, reply) => if i < |w.calls| then ContinueCall(env, w, i, reply) else w
    case Proceed(a, reply) => if a < |w.attempts| then ProceedAttempt(w, a, reply) else w
    case Land(wallet, tx, covered) => LandTx(w, wallet, tx, covered)
    case Crash => w.(calls := [], attempts := [], inFlight := map[])
  }

  function Run(env: Env, w: World, actions: seq<Action>): World
    decreases |actions|
  {
    if actions == [] then w else Run(env, Next(env, w, actions[0]), actions[1..])
  }

  // ---------------------------------------------------------------------
  // What every step keeps
  // ---------------------------------------------------------------------

  ghost predicate SecretDrawn(env: Env, records: Records, wallet: Wallet) {
    wallet in records && DrawsSecret(env.draws, env.hashes(records[wallet].request.target), wallet)
  }

  /** A call's copy of a request, with the hash of the request's own block. */
  ghost predicate OwnRequest(env: Env, records: Records, r: Request, state: RequestState) {
    && r.wallet in records && r.target == records[r.wallet].request.target && r.state == state
    && r.hash == if state == Pending then None else Some(env.hashes(r.target))
  }

  /** The card is what the block gives that wallet under the table it names. */
  ghost predicate OwnCard(env: Env, r: Request, card: Genesis) {
    card == ResolveGenesis(env.draws, env.hashes(r.target), r.wallet, card.secretAvailable)
  }

  ghost predicate SecretReserved(w: World, wallet: Wallet, card: Genesis, reservation: Option<Tx>) {
    && (reservation.Some? <==> card.rarity == Secret)
    && (reservation.Some? ==> wallet in w.entitled && w.entitled[wallet] == reservation.value)
  }

  /** Resolved under the disabled table only because the vault said so. */
  ghost predicate TableEarned(env: Env, w: World, wallet: Wallet, card: Genesis) {
    !card.secretAvailable ==> !env.hasVault || wallet in w.told
  }

  ghost predicate GoodClaim(env: Env, w: World, wallet: Wallet, c: Claim) {
    && wallet in w.records && w.records[wallet].claim == Some(c) && c.wallet == wallet
    && c.block == w.records[wallet].request.target && c.hash == env.hashes(c.block)
    && c.card == ResolveGenesis(env.draws, c.hash, wallet, c.card.secretAvailable)
    && SecretReserved(w, wallet, c.card, c.reservation)
    && TableEarned(env, w, wallet, c.card)
    && c.number < w.nextNumber && c.uses == UsesOf(RarityOf(c.card.card))
  }

  ghost predicate GoodRecord(env: Env, w: World, wallet: Wallet)
    requires wallet in w.records
  {
    var s := w.records[wallet];
    && s.request.wallet == wallet
    && (s.claim.None? ==>
          || OwnRequest(env, w.records, s.request, Pending)
          || (OwnRequest(env, w.records, s.request, Committed) && SecretDrawn(env, w.records, wallet)))
    && (s.claim.Some? ==> OwnRequest(env, w.records, s.request, Finalized) && GoodClaim(env, w, wallet, s.claim.value))
  }

  ghost predicate GoodRecords(env: Env, w: World) {
    && (forall wallet | wallet in w.records :: GoodRecord(env, w, wallet))
    && (forall a, b | a in w.records && b in w.records && a != b && w.records[a].claim.Some? && w.records[b].claim.Some? ::
          w.records[a].claim.value.number != w.records[b].claim.value.number)
  }

  ghost predicate ResolvedSecret(env: Env, w: World, r: Resolved) {
    && OwnRequest(env, w.records, r.request, Committed)
    && r.card == ResolveGenesis(env.draws, env.hashes(r.request.target), r.request.wallet, true)
    && r.card.rarity == Secret && env.hasVault
  }

  ghost predicate GoodCall(env: Env, w: World, c: Call) {
    match c
    case AtFind(_, _) => true
    case AtBalance(_) => true
    case AtHead(_) => true
    case AtOpen(_, _) => true
    case AtBlock(r) => OwnRequest(env, w.records, r, Pending)
    case AtCovered(r) => OwnRequest(env, w.records, r, Committed) && env.hasVault
    case AtReserve(r, _) => ResolvedSecret(env, w, r)
    case AtAttempt(r, _, a) => ResolvedSecret(env, w, r) && a < |w.attempts| && w.attempts[a].wallet == r.request.wallet
    case AtCommit(r) => OwnRequest(env, w.records, r, Committed) && SecretDrawn(env, w.records, r.wallet)
    case AtRecord(r, card, reservation) =>
      && OwnRequest(env, w.records, r, Finalized) && OwnCard(env, r, card)
      && SecretReserved(w, r.wallet, card, reservation) && TableEarned(env, w, r.wallet, card)
    case Done(answer) =>
      match answer
      case Ready(c) => GoodClaim(env, w, c.wallet, c)
      case AlreadyClaimed(c) => GoodClaim(env, w, c.wallet, c)
      case _ => true
  }

  ghost predicate GoodCalls(env: Env, w: World) {
    forall i | 0 <= i < |w.calls| :: GoodCall(env, w, w.calls[i])
  }

  ghost predicate GoodAttempt(env: Env, w: World, a: Attempt) {
    && SecretDrawn(env, w.records, a.wallet)
    && match a.stage
       case Finding => a.wallet in w.entitled
       case Confirming(tx) => tx < w.nextTx
       case Pricing(tx) => a.wallet in w.entitled && w.entitled[a.wallet] == tx
       case Finished(o) =>
         (o.ReservedBy? ==> a.wallet in w.entitled && w.entitled[a.wallet] == o.tx) && (o.Uncovered? ==> a.wallet in w.told)
       case _ => true
  }

  ghost predicate GoodAttempts(env: Env, w: World) {
    forall i | 0 <= i < |w.attempts| :: GoodAttempt(env, w, w.attempts[i])
  }

  /** At most one attempt is under way for a wallet: the one in flight. */
  ghost predicate OneAtATime(w: World) {
    && (forall wallet | wallet in w.inFlight :: w.inFlight[wallet] < |w.attempts| && w.attempts[w.inFlight[wallet]].wallet == wallet)
    && (forall i | 0 <= i < |w.attempts| && !w.attempts[i].stage.Finished? ::
          w.attempts[i].wallet in w.inFlight && w.inFlight[w.attempts[i].wallet] == i)
  }

  /** Nothing is set aside for a wallet that drew no Secret. */
  ghost predicate GoodChain(env: Env, w: World) {
    && (forall wallet | wallet in w.entitled :: SecretDrawn(env, w.records, wallet))
    && (forall x | x in w.mempool :: SecretDrawn(env, w.records, x.0))
  }

  ghost predicate Sound(env: Env, w: World) {
    GoodRecords(env, w) && GoodCalls(env, w) && GoodAttempts(env, w) && OneAtATime(w) && GoodChain(env, w)
  }

  /** What no step takes back: target blocks, claims, reservations. */
  ghost predicate Keeps(v: World, w: World) {
    && (forall wallet | wallet in v.records ::
          && wallet in w.records && w.records[wallet].request.target == v.records[wallet].request.target
          && (v.records[wallet].claim.Some? ==> w.records[wallet].claim == v.records[wallet].claim))
    && (forall wallet | wallet in v.entitled :: wallet in w.entitled && w.entitled[wallet] == v.entitled[wallet])
    && v.told <= w.told && v.nextNumber <= w.nextNumber && v.nextTx <= w.nextTx
  }

  ghost predicate SameAttempts(v: World, w: World) {
    |v.attempts| <= |w.attempts| && forall i | 0 <= i < |v.attempts| :: w.attempts[i].wallet == v.attempts[i].wallet
  }

  // ---------------------------------------------------------------------
  // What a call knows stays true
  // ---------------------------------------------------------------------

  lemma RequestStays(env: Env, v: World, w: World, r: Request, state: RequestState)
    requires Keeps(v, w) && OwnRequest(env, v.records, r, state)
    ensures OwnRequest(env, w.records, r, state)
  {
  }

  lemma DrawStays(env: Env, v: World, w: World, wallet: Wallet)
    requires Keeps(v, w) && SecretDrawn(env, v.records, wallet)
    ensures SecretDrawn(env, w.records, wallet)
  {
    hide DrawsSecret;
  }

  lemma ClaimStays(env: Env, v: World, w: World, wallet: Wallet, c: Claim)
    requires Keeps(v, w) && GoodClaim(env, v, wallet, c)
    ensures GoodClaim(env, w, wallet, c)
  {
    hide ResolveGenesis;
  }

  lemma CallStays(env: Env, v: World, w: World, c: Call)
    requires Keeps(v, w) && SameAttempts(v, w) && GoodCall(env, v, c)
    ensures GoodCall(env, w, c)
  {
    match c
    case AtBlock(r) => RequestStays(env, v, w, r, Pending);
    case AtCovered(r) => RequestStays(env, v, w, r, Committed);
    case AtReserve(r, _) => RequestStays(env, v, w, r.request, Committed);
    case AtAttempt(r, _, _) => RequestStays(env, v, w, r.request, Committed);
    case AtCommit(r) =>
      RequestStays(env, v, w, r, Committed);
      DrawStays(env, v, w, r.wallet);
    case AtRecord(r, _, _) => RequestStays(env, v, w, r, Finalized);
    case Done(answer) =>
      if answer.Ready? || answer.AlreadyClaimed? {
        ClaimStays(env, v, w, answer.claim.wallet, answer.claim);
      }
    case _ =>
  }

  lemma AttemptStays(env: Env, v: World, w: World, a: Attempt)
    requires Keeps(v, w) && GoodAttempt(env, v, a)
    ensures GoodAttempt(env, w, a)
  {
    hide DrawsSecret;
  }

  lemma RecordStays(env: Env, v: World, w: World, wallet: Wallet)
    requires Keeps(v, w) && wallet in v.records && w.records[wallet] == v.records[wallet] && GoodRecord(env, v, wallet)
    ensures GoodRecord(env, w, wallet)
  {
    hide ResolveGenesis, DrawsSecret;
    var s := v.records[wallet];
    if s.claim.Some? {
      ClaimStays(env, v, w, wallet, s.claim.value);
    }
  }

  lemma OldCallsStay(env: Env, v: World, w: World)
    requires Keeps(v, w) && SameAttempts(v, w) && GoodCalls(env, v)
    ensures forall i | 0 <= i < |v.calls| :: GoodCall(env, w, v.calls[i])
  {
    forall i | 0 <= i < |v.calls|
      ensures GoodCall(env, w, v.calls[i])
    {
      CallStays(env, v, w, v.calls[i]);
    }
  }

  lemma OldAttemptsStay(env: Env, v: World, w: World)
    requires Keeps(v, w) && GoodAttempts(env, v)
    ensures forall i | 0 <= i < |v.attempts| :: GoodAttempt(env, w, v.attempts[i])
  {
    forall i | 0 <= i < |v.attempts|
      ensures GoodAttempt(env, w, v.attempts[i])
    {
      AttemptStays(env, v, w, v.attempts[i]);
    }
  }

  lemma ChainStays(env: Env, v: World, w: World)
    requires Keeps(v, w) && GoodChain(env, v) && w.entitled == v.entitled && w.mempool == v.mempool
    ensures GoodChain(env, w)
  {
    hide SecretDrawn;
    forall wallet | wallet in w.entitled
      ensures SecretDrawn(env, w.records, wallet)
    {
      DrawStays(env, v, w, wallet);
    }
    forall x | x in w.mempool
      ensures SecretDrawn(env, w.records, x.0)
    {
      DrawStays(env, v, w, x.0);
    }
  }

  lemma RecordsStay(env: Env, v: World, w: World)
    requires Keeps(v, w) && GoodRecords(env, v) && w.records == v.records
    ensures GoodRecords(env, w)
  {
    hide GoodRecord;
    forall wallet | wallet in w.records
      ensures GoodRecord(env, w, wallet)
    {
      RecordStays(env, v, w, wallet);
    }
  }

  /** One call moves on; its new place is good, and so are the records it wrote. */
  lemma CallMoved(env: Env, v: World, w: World, i: nat, c: Call)
    requires Sound(env, v) && i < |v.calls| && w.calls == v.calls[i := c]
    requires Keeps(v, w) && (w.attempts, w.inFlight, w.entitled, w.mempool) == (v.attempts, v.inFlight, v.entitled, v.mempool)
    requires GoodCall(env, w, c) && GoodRecords(env, w)
    ensures Sound(env, w)
  {
    hide GoodCall, GoodAttempt, GoodRecords;
    OldCallsStay(env, v, w);
    OldAttemptsStay(env, v, w);
    ChainStays(env, v, w);
  }

  // ---------------------------------------------------------------------
  // Where a call goes next
  // ---------------------------------------------------------------------

  lemma ToRecordGood(env: Env, w: World, r: Resolved, reservation: Option<Tx>)
    requires OwnRequest(env, w.records, r.request, Committed) && OwnCard(env, r.request, r.card)
    requires TableEarned(env, w, r.request.wallet, r.card)
    requires reservation.Some? ==> SecretReserved(w, r.request.wallet, r.card, reservation)
    ensures GoodCall(env, w, ToRecord(r, reservation))
  {
    hide ResolveGenesis;
  }

  lemma RevealGood(env: Env, w: World, r: Resolved, committed: bool)
    requires InRange(env.draws)
    requires OwnRequest(env, w.records, r.request, Committed) && OwnCard(env, r.request, r.card)
    requires TableEarned(env, w, r.request.wallet, r.card)
    ensures GoodCall(env, w, Reveal(env, r, committed))
  {
    TablesAgree(env.draws, env.hashes(r.request.target), r.request.wallet);
    ToRecordGood(env, w, r, None);
    hide ResolveGenesis, InRange, ToRecord;
  }

  lemma ResolveAndRevealGood(env: Env, w: World, r: Request, secretAvailable: bool, committed: bool)
    requires InRange(env.draws) && OwnRequest(env, w.records, r, Committed)
    requires !secretAvailable ==> !env.hasVault || r.wallet in w.told
    ensures GoodCall(env, w, ResolveAndReveal(env, r, secretAvailable, committed))
  {
    var resolved := Resolved(r, ResolveGenesis(env.draws, r.hash.value, r.wallet, secretAvailable));
    CardNamesTable(env.draws, r.hash.value, r.wallet, secretAvailable);
    hide ResolveGenesis, InRange, Reveal, GoodCall;
    RevealGood(env, w, resolved, committed);
  }

  lemma CardNamesTable(d: Draws, hash: string, wallet: Wallet, secretAvailable: bool)
    ensures ResolveGenesis(d, hash, wallet, secretAvailable).secretAvailable == secretAvailable
  {
  }

  lemma AdvanceGood(env: Env, w: World, wallet: Wallet, s: Stored)
    requires InRange(env.draws) && wallet in w.records && GoodRecord(env, w, wallet)
    requires s.request == w.records[wallet].request && (s.claim.None? || s.claim == w.records[wallet].claim)
    ensures GoodCall(env, w, Advance(env, s))
  {
    hide InRange, ResolveAndReveal, ResolveGenesis, DrawsSecret;
    if s.claim.None? && s.request.state == Committed {
      ResolveAndRevealGood(env, w, s.request, true, true);
    }
  }

  lemma FoundGood(env: Env, w: World, wallet: Wallet, asking: bool)
    requires InRange(env.draws) && GoodRecords(env, w)
    ensures GoodCall(env, w, Found(env, w.records, wallet, asking))
  {
    hide InRange, GoodRecords, Advance, GoodClaim, OwnRequest, SecretDrawn;
    if wallet in w.records {
      RecordAt(env, w, wallet);
      AdvanceGood(env, w, wallet, w.records[wallet]);
      ClaimIsOf(env, w, wallet);
    }
  }

  lemma ClaimIsOf(env: Env, w: World, wallet: Wallet)
    requires wallet in w.records && GoodRecord(env, w, wallet)
    ensures w.records[wallet].claim.Some? ==> w.records[wallet].claim.value.wallet == wallet
  {
  }

  lemma BlockFinalGood(env: Env, w: World, r: Request)
    requires InRange(env.draws) && OwnRequest(env, w.records, r, Pending)
    ensures GoodCall(env, w, BlockFinal(env, r))
  {
    hide InRange, ResolveAndReveal;
    var committed := CommitEntropy(r, r.target, env.hashes(r.target)).value;
    if !env.hasVault {
      ResolveAndRevealGood(env, w, committed, false, false);
    }
  }

  lemma OutcomeGood(env: Env, w: World, r: Resolved, committed: bool, o: Reserved)
    requires InRange(env.draws) && ResolvedSecret(env, w, r)
    requires o.ReservedBy? ==> r.request.wallet in w.entitled && w.entitled[r.request.wallet] == o.tx
    requires o.Uncovered? ==> r.request.wallet in w.told
    ensures GoodCall(env, w, Outcome(env, r, committed, o))
  {
    CardNamesTable(env.draws, env.hashes(r.request.target), r.request.wallet, true);
    CardNamesTable(env.draws, env.hashes(r.request.target), r.request.wallet, false);
    match o
    case AttemptFailed =>
    case Uncovered =>
      var other := Resolved(r.request, ResolveGenesis(env.draws, r.request.hash.value, r.request.wallet, false));
      hide InRange, ToRecord, ResolveGenesis;
      ToRecordGood(env, w, other, None);
    case ReservedBy(tx) =>
      hide InRange, ToRecord, ResolveGenesis;
      ToRecordGood(env, w, r, Some(tx));
  }

  // ---------------------------------------------------------------------
  // The store's steps
  // ---------------------------------------------------------------------

  lemma OpenGood(env: Env, v: World, w: World, wallet: Wallet, target: nat)
    requires GoodRecords(env, v)
    requires var r := Request(wallet, Pending, target, None); w.records == OpenIn(v.records, r).0
    requires (w.entitled, w.told, w.nextNumber, w.nextTx) == (v.entitled, v.told, v.nextNumber, v.nextTx)
    ensures Keeps(v, w) && GoodRecords(env, w) && wallet in w.records
    ensures OpenIn(v.records, Request(wallet, Pending, target, None)).1 == w.records[wallet].request
  {
    hide ResolveGenesis, DrawsSecret;
    if wallet in v.records {
      assert GoodRecord(env, v, wallet);
      RecordsStay(env, v, w);
    } else {
      forall other | other in w.records
        ensures GoodRecord(env, w, other)
      {
        if other != wallet {
          assert GoodRecord(env, v, other);
          RecordStays(env, v, w, other);
        }
      }
    }
  }

  lemma CommitGood(env: Env, v: World, w: World, r: Request)
    requires GoodRecords(env, v) && OwnRequest(env, v.records, r, Committed) && SecretDrawn(env, v.records, r.wallet)
    requires CommitIn(v.records, r).Ok? && w.records == CommitIn(v.records, r).value
    requires (w.entitled, w.told, w.nextNumber, w.nextTx) == (v.entitled, v.told, v.nextNumber, v.nextTx)
    ensures Keeps(v, w) && GoodRecords(env, w)
  {
    hide ResolveGenesis, DrawsSecret;
    assert GoodRecord(env, v, r.wallet);
    forall other | other in w.records
      ensures GoodRecord(env, w, other)
    {
      if other != r.wallet {
        assert GoodRecord(env, v, other);
        RecordStays(env, v, w, other);
      }
    }
  }

  lemma RecordingGood(env: Env, v: World, w: World, r: Request, card: Genesis, reservation: Option<Tx>)
    requires GoodRecords(env, v) && GoodCall(env, v, AtRecord(r, card, reservation))
    requires var o := RecordIn(v.records, v.nextNumber, r, card, reservation); o.Ok? && (w.records, w.nextNumber) == (o.value.0, o.value.1)
    requires (w.entitled, w.told, w.nextTx) == (v.entitled, v.told, v.nextTx)
    ensures Keeps(v, w) && GoodRecords(env, w)
    ensures var claim := RecordIn(v.records, v.nextNumber, r, card, reservation).value.2; GoodClaim(env, w, claim.wallet, claim)
  {
    hide ResolveGenesis, DrawsSecret;
    assert GoodRecord(env, v, r.wallet);
    if v.records[r.wallet].claim.Some? {
      RecordsStay(env, v, w);
    } else {
      var claim := RecordIn(v.records, v.nextNumber, r, card, reservation).value.2;
      assert Keeps(v, w);
      forall other | other in w.records
        ensures GoodRecord(env, w, other)
      {
        if other != r.wallet {
          assert GoodRecord(env, v, other);
          RecordStays(env, v, w, other);
        }
      }
      forall other | other in w.records && other != r.wallet && w.records[other].claim.Some?
        ensures w.records[other].claim.value.number != claim.number
      {
        assert GoodRecord(env, v, other);
      }
    }
  }

  // ---------------------------------------------------------------------
  // Every step
  // ---------------------------------------------------------------------

  /** A call that only moves. */
  lemma MoveSound(env: Env, v: World, i: nat, c: Call)
    requires Sound(env, v) && i < |v.calls| && GoodCall(env, v, c)
    ensures Sound(env, Put(v, i, c)) && Keeps(v, Put(v, i, c))
  {
    hide GoodCall, GoodAttempts, OneAtATime, GoodChain, GoodRecord;
    var w := Put(v, i, c);
    CallStays(env, v, w, c);
    RecordsStay(env, v, w);
    hide GoodRecords, GoodCalls;
    CallMoved(env, v, w, i, c);
  }

  lemma OpenSound(env: Env, v: World, i: nat, wallet: Wallet, target: nat)
    requires InRange(env.draws) && Sound(env, v) && i < |v.calls|
    ensures var stands := OpenIn(v.records, Request(wallet, Pending, target, None));
            var w := Put(v, i, Advance(env, Stored(stands.1, None))).(records := stands.0);
            Sound(env, w) && Keeps(v, w)
  {
    hide InRange, Advance, GoodCall, GoodCalls, GoodAttempts, OneAtATime, GoodChain, GoodRecords, OpenIn;
    var stands := OpenIn(v.records, Request(wallet, Pending, target, None));
    var c := Advance(env, Stored(stands.1, None));
    var w := Put(v, i, c).(records := stands.0);
    OpenGood(env, v, w, wallet, target);
    RecordAt(env, w, wallet);
    AdvanceGood(env, w, wallet, Stored(stands.1, None));
    CallMoved(env, v, w, i, c);
  }

  lemma RecordAt(env: Env, w: World, wallet: Wallet)
    requires GoodRecords(env, w) && wallet in w.records
    ensures GoodRecord(env, w, wallet)
  {
  }

  lemma CoveredSound(env: Env, v: World, i: nat, r: Request, yes: bool)
    requires InRange(env.draws) && Sound(env, v) && i < |v.calls| && OwnRequest(env, v.records, r, Committed)
    ensures var w := Put(v, i, ResolveAndReveal(env, r, yes, false)).(told := if yes then v.told else v.told + {r.wallet});
            Sound(env, w) && Keeps(v, w)
  {
    hide InRange, ResolveAndReveal, GoodCall, GoodCalls, GoodAttempts, OneAtATime, GoodChain, GoodRecords;
    var c := ResolveAndReveal(env, r, yes, false);
    var w := Put(v, i, c).(told := if yes then v.told else v.told + {r.wallet});
    ResolveAndRevealGood(env, w, r, yes, false);
    RecordsStay(env, v, w);
    CallMoved(env, v, w, i, c);
  }

  lemma StartedSound(env: Env, v: World, i: nat, r: Resolved, committed: bool)
    requires Sound(env, v) && i < |v.calls| && ResolvedSecret(env, v, r) && r.request.wallet !in v.inFlight
    ensures var w := Reserve(v, i, r, committed); Sound(env, w) && Keeps(v, w)
  {
    hide ResolvedSecret, GoodRecord, GoodCall, OneAtATime, SecretDrawn, GoodAttempt, GoodChain;
    var wallet, w := r.request.wallet, Reserve(v, i, r, committed);
    SecretWasDrawn(env, v, r);
    StartedOneAtATime(v, w, wallet);
    ResolvedStays(env, v, w, r);
    RecordsStay(env, v, w);
    OldCallsStay(env, v, w);
    OldAttemptsStay(env, v, w);
    ChainStays(env, v, w);
    JoinedGood(env, w, r, committed, |v.attempts|);
    FreshAttemptGood(env, w, wallet);
  }

  lemma ReserveSound(env: Env, v: World, i: nat, r: Resolved, committed: bool)
    requires Sound(env, v) && i < |v.calls| && ResolvedSecret(env, v, r)
    ensures var w := Reserve(v, i, r, committed); Sound(env, w) && Keeps(v, w)
  {
    var wallet := r.request.wallet;
    if wallet in v.inFlight {
      assert v.attempts[v.inFlight[wallet]].wallet == wallet;
      hide ResolvedSecret, Sound, Keeps;
      JoinedGood(env, v, r, committed, v.inFlight[wallet]);
      MoveSound(env, v, i, AtAttempt(r, committed, v.inFlight[wallet]));
    } else {
      StartedSound(env, v, i, r, committed);
      hide *;
    }
  }

  lemma SecretWasDrawn(env: Env, w: World, r: Resolved)
    requires ResolvedSecret(env, w, r)
    ensures SecretDrawn(env, w.records, r.request.wallet)
  {
  }

  lemma ResolvedStays(env: Env, v: World, w: World, r: Resolved)
    requires ResolvedSecret(env, v, r) && w.records == v.records
    ensures ResolvedSecret(env, w, r)
  {
  }

  lemma JoinedGood(env: Env, w: World, r: Resolved, committed: bool, a: nat)
    requires ResolvedSecret(env, w, r) && a < |w.attempts| && w.attempts[a].wallet == r.request.wallet
    ensures GoodCall(env, w, AtAttempt(r, committed, a))
  {
  }

  lemma FreshAttemptGood(env: Env, w: World, wallet: Wallet)
    requires SecretDrawn(env, w.records, wallet)
    ensures GoodAttempt(env, w, Attempt(wallet, Simulating))
  {
  }

  lemma StartedOneAtATime(v: World, w: World, wallet: Wallet)
    requires OneAtATime(v) && wallet !in v.inFlight
    requires w.attempts == v.attempts + [Attempt(wallet, Simulating)] && w.inFlight == v.inFlight[wallet := |v.attempts|]
    ensures OneAtATime(w)
  {
  }

  lemma CommitSound(env: Env, v: World, i: nat, r: Request)
    requires Sound(env, v) && i < |v.calls| && OwnRequest(env, v.records, r, Committed) && SecretDrawn(env, v.records, r.wallet)
    requires CommitIn(v.records, r).Ok?
    ensures var w := Put(v, i, Done(SecretPending)).(records := CommitIn(v.records, r).value); Sound(env, w) && Keeps(v, w)
  {
    hide GoodCalls, GoodAttempts, OneAtATime, GoodChain, GoodRecords, CommitIn;
    var w := Put(v, i, Done(SecretPending)).(records := CommitIn(v.records, r).value);
    CommitGood(env, v, w, r);
    CallMoved(env, v, w, i, Done(SecretPending));
  }

  lemma RecordSound(env: Env, v: World, i: nat, r: Request, card: Genesis, reservation: Option<Tx>)
    requires Sound(env, v) && i < |v.calls| && GoodCall(env, v, AtRecord(r, card, reservation))
    requires RecordIn(v.records, v.nextNumber, r, card, reservation).Ok?
    ensures var o := RecordIn(v.records, v.nextNumber, r, card, reservation).value;
            var w := Put(v, i, Done(Ready(o.2))).(records := o.0, nextNumber := o.1);
            Sound(env, w) && Keeps(v, w)
  {
    var o := RecordIn(v.records, v.nextNumber, r, card, reservation).value;
    var w := Put(v, i, Done(Ready(o.2))).(records := o.0, nextNumber := o.1);
    hide GoodCalls, GoodAttempts, OneAtATime, GoodChain, GoodRecords, RecordIn, GoodClaim, GoodCall, Keeps;
    RecordingGood(env, v, w, r, card, reservation);
    ReadyGood(env, w, o.2);
    CallMoved(env, v, w, i, Done(Ready(o.2)));
  }

  lemma ReadyGood(env: Env, w: World, c: Claim)
    requires GoodClaim(env, w, c.wallet, c)
    ensures GoodCall(env, w, Done(Ready(c)))
  {
  }

  lemma AttemptAt(env: Env, v: World, a: nat)
    requires GoodAttempts(env, v) && a < |v.attempts|
    ensures GoodAttempt(env, v, v.attempts[a])
  {
  }

  /** Calls that wait for a read. */
  lemma ReadingSound(env: Env, v: World, i: nat, reply: Reply)
    requires InRange(env.draws) && Sound(env, v) && i < |v.calls|
    requires v.calls[i].AtFind? || v.calls[i].AtBalance? || v.calls[i].AtHead? || v.calls[i].AtBlock? || v.calls[i].AtCovered?
    ensures Sound(env, ContinueCall(env, v, i, reply)) && Keeps(v, ContinueCall(env, v, i, reply))
  {
    CallAt(env, v, i);
    hide Sound, InRange, Found, BlockFinal, ResolveAndReveal, Put, OwnRequest, Keeps;
    ThrewSound(env, v, i);
    match v.calls[i]
    case AtFind(wallet, asking) =>
      RecordsOf(env, v);
      FoundGood(env, v, wallet, asking);
      MoveSound(env, v, i, Found(env, v.records, wallet, asking));
    case AtBalance(wallet) =>
      MoveSound(env, v, i, AtHead(wallet));
      MoveSound(env, v, i, Done(NotEligible));
    case AtHead(wallet) =>
      if reply.Number? {
        MoveSound(env, v, i, AtOpen(wallet, reply.n + ENTROPY_TARGET_DISTANCE));
      }
    case AtBlock(r) =>
      BlockFinalGood(env, v, r);
      MoveSound(env, v, i, BlockFinal(env, r));
      MoveSound(env, v, i, Done(PendingFinality(r.target)));
    case AtCovered(r) =>
      if reply.Says? {
        CoveredSound(env, v, i, r, reply.yes);
      }
  }

  lemma CommittingSound(env: Env, v: World, i: nat, reply: Reply)
    requires Sound(env, v) && i < |v.calls| && v.calls[i].AtCommit?
    ensures Sound(env, ContinueCall(env, v, i, reply)) && Keeps(v, ContinueCall(env, v, i, reply))
  {
    CallAt(env, v, i);
    hide Sound, CommitIn, Put, OwnRequest, SecretDrawn, Keeps;
    ThrewSound(env, v, i);
    if CommitIn(v.records, v.calls[i].request).Ok? {
      CommitSound(env, v, i, v.calls[i].request);
    }
  }

  lemma RecordingSound(env: Env, v: World, i: nat, reply: Reply)
    requires Sound(env, v) && i < |v.calls| && v.calls[i].AtRecord?
    ensures Sound(env, ContinueCall(env, v, i, reply)) && Keeps(v, ContinueCall(env, v, i, reply))
  {
    CallAt(env, v, i);
    hide Sound, RecordIn, Put, GoodCall, Keeps;
    ThrewSound(env, v, i);
    var c := v.calls[i];
    if RecordIn(v.records, v.nextNumber, c.request, c.card, c.reservation).Ok? {
      RecordSound(env, v, i, c.request, c.card, c.reservation);
    }
  }

  /** Calls that write the store. */
  lemma WritingSound(env: Env, v: World, i: nat, reply: Reply)
    requires InRange(env.draws) && Sound(env, v) && i < |v.calls|
    requires v.calls[i].AtOpen? || v.calls[i].AtCommit? || v.calls[i].AtRecord?
    ensures Sound(env, ContinueCall(env, v, i, reply)) && Keeps(v, ContinueCall(env, v, i, reply))
  {
    if v.calls[i].AtOpen? {
      hide Sound, InRange, Advance, OpenIn, Put, Keeps;
      ThrewSound(env, v, i);
      OpenSound(env, v, i, v.calls[i].wallet, v.calls[i].target);
    } else if v.calls[i].AtCommit? {
      CommittingSound(env, v, i, reply);
      hide *;
    } else {
      RecordingSound(env, v, i, reply);
      hide *;
    }
  }

  /** Calls that reserve. */
  lemma ReservingSound(env: Env, v: World, i: nat, reply: Reply)
    requires InRange(env.draws) && Sound(env, v) && i < |v.calls|
    requires v.calls[i].AtReserve? || v.calls[i].AtAttempt? || v.calls[i].Done?
    ensures Sound(env, ContinueCall(env, v, i, reply)) && Keeps(v, ContinueCall(env, v, i, reply))
  {
    CallAt(env, v, i);
    hide Sound, InRange, Outcome, Reserve, Put, ResolvedSecret, Keeps;
    SoundKeepsItself(v);
    match v.calls[i]
    case AtReserve(r, committed) =>
      ReserveSound(env, v, i, r, committed);
    case AtAttempt(r, committed, a) =>
      if v.attempts[a].stage.Finished? {
        AttemptsOf(env, v);
        AttemptAt(env, v, a);
        OutcomeGood(env, v, r, committed, v.attempts[a].stage.outcome);
        MoveSound(env, v, i, Outcome(env, r, committed, v.attempts[a].stage.outcome));
      }
    case Done(_) =>
  }

  lemma CallAt(env: Env, v: World, i: nat)
    requires Sound(env, v) && i < |v.calls|
    ensures GoodCall(env, v, v.calls[i])
  {
  }

  lemma ContinueSound(env: Env, v: World, i: nat, reply: Reply)
    requires InRange(env.draws) && Sound(env, v) && i < |v.calls|
    ensures Sound(env, ContinueCall(env, v, i, reply)) && Keeps(v, ContinueCall(env, v, i, reply))
  {
    hide *;
    var c := v.calls[i];
    if c.AtFind? || c.AtBalance? || c.AtHead? || c.AtBlock? || c.AtCovered? {
      ReadingSound(env, v, i, reply);
    } else if c.AtOpen? || c.AtCommit? || c.AtRecord? {
      WritingSound(env, v, i, reply);
    } else {
      ReservingSound(env, v, i, reply);
    }
  }

  lemma SoundKeepsItself(v: World)
    ensures Keeps(v, v)
  {
  }

  lemma ThrewSound(env: Env, v: World, i: nat)
    requires Sound(env, v) && i < |v.calls|
    ensures Sound(env, Put(v, i, Done(Threw))) && Keeps(v, Put(v, i, Done(Threw)))
  {
    hide Sound, Keeps, Put;
    MoveSound(env, v, i, Done(Threw));
  }

  lemma RecordsOf(env: Env, v: World)
    requires Sound(env, v)
    ensures GoodRecords(env, v)
  {
  }

  lemma AttemptsOf(env: Env, v: World)
    requires Sound(env, v)
    ensures GoodAttempts(env, v)
  {
  }

  // ---------------------------------------------------------------------
  // Attempts, the chain and crashes
  // ---------------------------------------------------------------------

  /** An attempt moves on: the calls and records it does not touch stay as they were. */
  lemma AttemptMoved(env: Env, v: World, w: World, a: nat)
    requires Sound(env, v) && a < |v.attempts| && |w.attempts| == |v.attempts| && Keeps(v, w)
    requires w.attempts == v.attempts[a := w.attempts[a]] && w.attempts[a].wallet == v.attempts[a].wallet
    requires (w.records, w.calls, w.entitled) == (v.records, v.calls, v.entitled)
    requires GoodAttempt(env, w, w.attempts[a]) && OneAtATime(w) && GoodChain(env, w)
    ensures Sound(env, w)
  {
    hide GoodCall, GoodAttempt, GoodRecord, OneAtATime, GoodChain;
    RecordsStay(env, v, w);
    OldCallsStay(env, v, w);
    OldAttemptsStay(env, v, w);
  }

  lemma StagedOneAtATime(v: World, a: nat, s: Stage)
    requires OneAtATime(v) && a < |v.attempts| && !v.attempts[a].stage.Finished? && !s.Finished?
    ensures OneAtATime(SetStage(v, a, s))
  {
  }

  lemma FinishedOneAtATime(v: World, a: nat, o: Reserved)
    requires OneAtATime(v) && a < |v.attempts| && !v.attempts[a].stage.Finished?
    ensures OneAtATime(Finish(v, a, o))
  {
  }

  lemma StageSound(env: Env, v: World, a: nat, s: Stage)
    requires Sound(env, v) && a < |v.attempts| && !v.attempts[a].stage.Finished? && !s.Finished?
    requires GoodAttempt(env, v, Attempt(v.attempts[a].wallet, s))
    ensures Sound(env, SetStage(v, a, s)) && Keeps(v, SetStage(v, a, s))
  {
    var w := SetStage(v, a, s);
    StagedOneAtATime(v, a, s);
    ChainStays(env, v, w);
    AttemptStays(env, v, w, w.attempts[a]);
    hide GoodRecords, GoodCalls, GoodAttempts, GoodAttempt, OneAtATime, GoodChain;
    AttemptMoved(env, v, w, a);
  }

  lemma FinishSound(env: Env, v: World, a: nat, o: Reserved, told: set<Wallet>)
    requires Sound(env, v) && a < |v.attempts| && !v.attempts[a].stage.Finished?
    requires v.told <= told && GoodAttempt(env, v.(told := told), Attempt(v.attempts[a].wallet, Finished(o)))
    ensures var w := Finish(v, a, o).(told := told); Sound(env, w) && Keeps(v, w)
  {
    var w := Finish(v, a, o).(told := told);
    FinishedOneAtATime(v, a, o);
    ChainStays(env, v, w);
    AttemptStays(env, v.(told := told), w, w.attempts[a]);
    hide GoodRecords, GoodCalls, GoodAttempts, GoodAttempt, GoodChain;
    assert OneAtATime(w);
    hide OneAtATime;
    AttemptMoved(env, v, w, a);
  }

  lemma SendSound(env: Env, v: World, a: nat)
    requires Sound(env, v) && a < |v.attempts| && v.attempts[a].stage == Sending
    ensures var w := SetStage(v, a, Confirming(v.nextTx)).(mempool := v.mempool + {(v.attempts[a].wallet, v.nextTx)}, nextTx := v.nextTx + 1);
            Sound(env, w) && Keeps(v, w)
  {
    var wallet := v.attempts[a].wallet;
    var w := SetStage(v, a, Confirming(v.nextTx)).(mempool := v.mempool + {(wallet, v.nextTx)}, nextTx := v.nextTx + 1);
    AttemptAt(env, v, a);
    StagedOneAtATime(v, a, Confirming(v.nextTx));
    assert SecretDrawn(env, v.records, wallet);
    assert GoodAttempt(env, w, w.attempts[a]);
    assert GoodChain(env, w);
    hide GoodRecords, GoodCalls, GoodAttempts, GoodAttempt, GoodChain;
    assert OneAtATime(w);
    hide OneAtATime;
    AttemptMoved(env, v, w, a);
  }

  lemma FailSound(env: Env, v: World, a: nat, o: Reserved)
    requires Sound(env, v) && a < |v.attempts| && !v.attempts[a].stage.Finished?
    requires o == AttemptFailed || (v.attempts[a].stage.Pricing? && o == ReservedBy(v.attempts[a].stage.tx))
    ensures Sound(env, Finish(v, a, o)) && Keeps(v, Finish(v, a, o))
  {
    AttemptsOf(env, v);
    AttemptAt(env, v, a);
    hide Sound, Keeps, SecretDrawn, Finish;
    assert v.(told := v.told) == v;
    FinishSound(env, v, a, o, v.told);
    FinishAsIs(v, a, o);
  }

  lemma SimulatedSound(env: Env, v: World, a: nat, reply: Reply)
    requires Sound(env, v) && a < |v.attempts| && v.attempts[a].stage == Simulating
    ensures Sound(env, ProceedAttempt(v, a, reply)) && Keeps(v, ProceedAttempt(v, a, reply))
  {
    AttemptsOf(env, v);
    AttemptAt(env, v, a);
    var wallet := v.attempts[a].wallet;
    hide Sound, Keeps, SecretDrawn, SetStage, Finish;
    FailSound(env, v, a, AttemptFailed);
    if reply.Says? {
      if wallet in v.entitled {
        StageSound(env, v, a, Finding);
      } else if reply.yes {
        StageSound(env, v, a, Sending);
      } else {
        FinishSound(env, v, a, Uncovered, v.told + {wallet});
      }
    }
  }

  lemma LandedSound(env: Env, v: World, a: nat, tx: Tx)
    requires Sound(env, v) && a < |v.attempts| && !v.attempts[a].stage.Finished?
    requires v.attempts[a].wallet in v.entitled && v.entitled[v.attempts[a].wallet] == tx
    ensures Sound(env, SetStage(v, a, Pricing(tx))) && Keeps(v, SetStage(v, a, Pricing(tx)))
  {
    AttemptsOf(env, v);
    AttemptAt(env, v, a);
    hide Sound, Keeps, SecretDrawn, SetStage;
    StageSound(env, v, a, Pricing(tx));
  }

  lemma FindingSound(env: Env, v: World, a: nat, reply: Reply)
    requires Sound(env, v) && a < |v.attempts| && v.attempts[a].stage == Finding
    ensures Sound(env, ProceedAttempt(v, a, reply)) && Keeps(v, ProceedAttempt(v, a, reply))
  {
    var wallet := v.attempts[a].wallet;
    hide Sound, Keeps, SetStage, Finish;
    FailSound(env, v, a, AttemptFailed);
    if wallet in v.entitled {
      LandedSound(env, v, a, v.entitled[wallet]);
    }
  }

  lemma SendingSound(env: Env, v: World, a: nat, reply: Reply)
    requires Sound(env, v) && a < |v.attempts| && v.attempts[a].stage == Sending
    ensures Sound(env, ProceedAttempt(v, a, reply)) && Keeps(v, ProceedAttempt(v, a, reply))
  {
    hide Sound, Keeps, SetStage, Finish;
    FailSound(env, v, a, AttemptFailed);
    SendSound(env, v, a);
  }

  lemma ConfirmingSound(env: Env, v: World, a: nat, reply: Reply)
    requires Sound(env, v) && a < |v.attempts| && v.attempts[a].stage.Confirming?
    ensures Sound(env, ProceedAttempt(v, a, reply)) && Keeps(v, ProceedAttempt(v, a, reply))
  {
    var wallet, tx := v.attempts[a].wallet, v.attempts[a].stage.tx;
    hide Sound, Keeps, SetStage, Finish;
    FailSound(env, v, a, AttemptFailed);
    SoundKeepsItself(v);
    if wallet in v.entitled && v.entitled[wallet] == tx {
      LandedSound(env, v, a, tx);
    }
  }

  lemma PricingSound(env: Env, v: World, a: nat, reply: Reply)
    requires Sound(env, v) && a < |v.attempts| && v.attempts[a].stage.Pricing?
    ensures Sound(env, ProceedAttempt(v, a, reply)) && Keeps(v, ProceedAttempt(v, a, reply))
  {
    hide Sound, Keeps, SetStage, Finish;
    FailSound(env, v, a, AttemptFailed);
    FailSound(env, v, a, ReservedBy(v.attempts[a].stage.tx));
  }

  lemma ProceedSound(env: Env, v: World, a: nat, reply: Reply)
    requires Sound(env, v) && a < |v.attempts|
    ensures Sound(env, ProceedAttempt(v, a, reply)) && Keeps(v, ProceedAttempt(v, a, reply))
  {
    hide Sound, Keeps, SetStage, Finish;
    var stage := v.attempts[a].stage;
    if stage == Simulating {
      SimulatedSound(env, v, a, reply);
    } else if stage == Finding {
      FindingSound(env, v, a, reply);
    } else if stage == Sending {
      SendingSound(env, v, a, reply);
    } else if stage.Confirming? {
      ConfirmingSound(env, v, a, reply);
    } else if stage.Pricing? {
      PricingSound(env, v, a, reply);
    } else {
      SoundKeepsItself(v);
    }
  }

  lemma FinishAsIs(v: World, a: nat, o: Reserved)
    requires a < |v.attempts|
    ensures Finish(v, a, o).(told := v.told) == Finish(v, a, o)
  {
  }

  lemma LandedChain(env: Env, v: World, wallet: Wallet, tx: Tx, covered: bool)
    requires GoodChain(env, v) && (wallet, tx) in v.mempool
    ensures GoodChain(env, LandTx(v, wallet, tx, covered)) && Keeps(v, LandTx(v, wallet, tx, covered))
  {
    assert SecretDrawn(env, v.records, (wallet, tx).0);
    hide SecretDrawn;
  }

  lemma LandSound(env: Env, v: World, wallet: Wallet, tx: Tx, covered: bool)
    requires Sound(env, v)
    ensures Sound(env, LandTx(v, wallet, tx, covered)) && Keeps(v, LandTx(v, wallet, tx, covered))
  {
    hide GoodCall, GoodAttempt, GoodRecord, GoodChain;
    if (wallet, tx) in v.mempool {
      var w := LandTx(v, wallet, tx, covered);
      LandedChain(env, v, wallet, tx, covered);
      RecordsStay(env, v, w);
      OldCallsStay(env, v, w);
      OldAttemptsStay(env, v, w);
    }
  }

  lemma BeginSound(env: Env, v: World, c: Call)
    requires Sound(env, v) && GoodCall(env, v, c)
    ensures Sound(env, v.(calls := v.calls + [c])) && Keeps(v, v.(calls := v.calls + [c]))
  {
    var w := v.(calls := v.calls + [c]);
    hide GoodCall, GoodAttempt, GoodRecord, GoodChain;
    assert GoodChain(env, w) by { ChainStays(env, v, w); }
    RecordsStay(env, v, w);
    OldCallsStay(env, v, w);
    CallStays(env, v, w, c);
    OldAttemptsStay(env, v, w);
  }

  lemma CrashSound(env: Env, v: World)
    requires Sound(env, v)
    ensures var w := v.(calls := [], attempts := [], inFlight := map[]); Sound(env, w) && Keeps(v, w)
  {
    var w := v.(calls := [], attempts := [], inFlight := map[]);
    hide GoodRecord, GoodChain;
    ChainStays(env, v, w);
    RecordsStay(env, v, w);
  }

  /** Any step of any call, attempt, transaction or crash keeps the protocol sound and takes nothing back. */
  lemma StepSound(env: Env, v: World, action: Action)
    requires InRange(env.draws) && Sound(env, v)
    ensures Sound(env, Next(env, v, action)) && Keeps(v, Next(env, v, action))
  {
    hide Sound, Keeps, ContinueCall, ProceedAttempt, LandTx;
    SoundKeepsItself(v);
    match action
    case Begin(wallet, asking) => BeginSound(env, v, AtFind(wallet, asking));
    case Continue(i, reply) => if i < |v.calls| { ContinueSound(env, v, i, reply); }
    case Proceed(a, reply) => if a < |v.attempts| { ProceedSound(env, v, a, reply); }
    case Land(wallet, tx, covered) => LandSound(env, v, wallet, tx, covered);
    case Crash => CrashSound(env, v);
  }

  lemma KeepsOn(u: World, v: World, w: World)
    requires Keeps(u, v) && Keeps(v, w)
    ensures Keeps(u, w)
  {
  }

  lemma {:induction false} RunSound(env: Env, v: World, actions: seq<Action>)
    requires InRange(env.draws) && Sound(env, v)
    ensures Sound(env, Run(env, v, actions)) && Keeps(v, Run(env, v, actions))
    decreases |actions|
  {
    hide Sound, Keeps, Next, InRange;
    SoundKeepsItself(v);
    if actions != [] {
      var w := Next(env, v, actions[0]);
      StepSound(env, v, actions[0]);
      RunSound(env, w, actions[1..]);
      KeepsOn(v, w, Run(env, w, actions[1..]));
    }
  }

  // ---------------------------------------------------------------------
  // What a reachable world promises
  // ---------------------------------------------------------------------

  lemma StartSound(env: Env)
    ensures Sound(env, START)
  {
  }

  ghost predicate CardIsHonest(env: Env, w: World, wallet: Wallet, c: Claim) {
    && wallet in w.records && c.wallet == wallet && c.block == w.records[wallet].request.target
    && c.hash == env.hashes(c.block)
    && c.card == ResolveGenesis(env.draws, c.hash, wallet, c.card.secretAvailable)
    && (c.reservation.Some? <==> c.card.rarity == Secret)
    && (c.card.rarity == Secret ==> wallet in w.entitled && c.reservation == Some(w.entitled[wallet]))
    && c.uses == UsesOf(RarityOf(c.card.card))
  }

  /**
   Over every interleaving of calls, failures, crashes and coverage changes: a claim's
   card is what its own block gives that wallet under the table it records, a Secret is
   backed by the reservation on chain, a request stored COMMITTED is a Secret under the
   funded table, nothing is reserved for a wallet that drew no Secret, one reservation
   runs at a time for a wallet, and Genesis numbers do not repeat.
  */
  lemma EveryRunIsHonest(env: Env, actions: seq<Action>)
    requires InRange(env.draws)
    ensures var w := Run(env, START, actions);
            && (forall wallet | wallet in w.records && w.records[wallet].claim.Some? ::
                  CardIsHonest(env, w, wallet, w.records[wallet].claim.value))
            && (forall wallet | wallet in w.records && w.records[wallet].request.state == Committed ::
                  w.records[wallet].request.hash == Some(env.hashes(w.records[wallet].request.target))
                  && SecretDrawn(env, w.records, wallet))
            && (forall wallet | wallet in w.entitled :: SecretDrawn(env, w.records, wallet))
            && (forall i, j | 0 <= i < j < |w.attempts| && w.attempts[i].wallet == w.attempts[j].wallet ::
                  w.attempts[i].stage.Finished? || w.attempts[j].stage.Finished?)
            && (forall a, b | a in w.records && b in w.records && a != b && w.records[a].claim.Some? && w.records[b].claim.Some? ::
                  w.records[a].claim.value.number != w.records[b].claim.value.number)
  {
    var w := Run(env, START, actions);
    StartSound(env);
    RunSound(env, START, actions);
    hide Run, ResolveGenesis, DrawsSecret, GoodCall, GoodAttempt, InRange;
    forall wallet | wallet in w.records
      ensures w.records[wallet].claim.Some? ==> CardIsHonest(env, w, wallet, w.records[wallet].claim.value)
      ensures w.records[wallet].request.state == Committed ==>
                w.records[wallet].request.hash == Some(env.hashes(w.records[wallet].request.target)) && SecretDrawn(env, w.records, wallet)
    {
      assert GoodRecord(env, w, wallet);
    }
  }

  /** Once bound, a wallet keeps its target block; once claimed, its claim; once reserved, its reservation. */
  lemma NothingIsTakenBack(env: Env, before: seq<Action>, after: seq<Action>)
    requires InRange(env.draws)
    ensures Keeps(Run(env, START, before), Run(env, START, before + after))
  {
    StartSound(env);
    RunSound(env, START, before);
    RunSound(env, Run(env, START, before), after);
    RunJoins(env, START, before, after);
  }

  lemma {:induction false} RunJoins(env: Env, w: World, a: seq<Action>, b: seq<Action>)
    ensures Run(env, w, a + b) == Run(env, Run(env, w, a), b)
    decreases |a|
  {
    hide Next;
    if a == [] {
      assert a + b == b;
    } else {
      assert (a + b)[1..] == a[1..] + b;
      RunJoins(env, Next(env, w, a[0]), a[1..], b);
    }
  }

  /** Every answer shown is the claim on record: nobody is shown a card that is not theirs to keep. */
  lemma ShownIsRecorded(env: Env, actions: seq<Action>, i: nat)
    requires InRange(env.draws) && i < |Run(env, START, actions).calls|
    ensures var w := Run(env, START, actions);
            w.calls[i].Done? && w.calls[i].answer.Ready? ==>
              var c := w.calls[i].answer.claim;
              c.wallet in w.records && w.records[c.wallet].claim == Some(c) && CardIsHonest(env, w, c.wallet, c)
  {
    StartSound(env);
    RunSound(env, START, actions);
    var w := Run(env, START, actions);
    CallAt(env, w, i);
    hide Run, ResolveGenesis, Sound, InRange;
  }

  /** A claim's card is the one its block's two draws deal, under the rarity its slot falls to. */
  lemma ClaimIsItsDraws(env: Env, actions: seq<Action>, wallet: Wallet)
    requires InRange(env.draws)
    requires var w := Run(env, START, actions); wallet in w.records && w.records[wallet].claim.Some?
    ensures var w := Run(env, START, actions);
            var c := w.records[wallet].claim.value;
            var slot := env.draws.slot(env.hashes(w.records[wallet].request.target), wallet);
            && c.card.slot == slot && Some(c.card.rarity) == RarityForSlot(slot, c.card.secretAvailable)
            && c.card.card == Dealt(slot, env.draws.card(c.hash, wallet, CountOf(c.card.rarity)), c.card.secretAvailable)
            && RarityOf(c.card.card) == c.card.rarity
  {
    EveryRunIsHonest(env, actions);
    var w := Run(env, START, actions);
    var c := w.records[wallet].claim.value;
    CardIsDealt(env.draws, c.hash, wallet, c.card.secretAvailable);
    CardHasRarity(env.draws, c.hash, wallet, c.card.secretAvailable);
    SlotIsDrawn(env.draws, c.hash, wallet, c.card.secretAvailable);
    hide Run, ResolveGenesis, InRange, RarityForSlot, Dealt, CountOf;
  }

  lemma SlotIsDrawn(d: Draws, hash: string, wallet: Wallet, secretAvailable: bool)
    ensures ResolveGenesis(d, hash, wallet, secretAvailable).slot == d.slot(hash, wallet)
  {
  }

  // ---------------------------------------------------------------------
  // Which table a claim names
  // ---------------------------------------------------------------------

  /**
   A wallet whose draw is in the secret band is dealt its Secret exactly when the claim
   was resolved under the funded table; and with a vault key that never answered "out of
   coverage" for it, that is every claim.
  */
  lemma TableDecidesSecret(env: Env, actions: seq<Action>, wallet: Wallet)
    requires InRange(env.draws)
    requires var w := Run(env, START, actions);
             wallet in w.records && w.records[wallet].claim.Some? && SecretDrawn(env, w.records, wallet)
    ensures var w := Run(env, START, actions);
            var c := w.records[wallet].claim.value;
            && (c.card.rarity == Secret <==> c.card.secretAvailable)
            && (c.card.rarity != Secret ==> c.card.rarity == Legendary)
            && (env.hasVault && wallet !in w.told ==> c.card.rarity == Secret)
  {
    StartSound(env);
    RunSound(env, START, actions);
    var w := Run(env, START, actions);
    RecordsOf(env, w);
    RecordAt(env, w, wallet);
    var hash := env.hashes(w.records[wallet].request.target);
    TablesAgree(env.draws, hash, wallet);
    CardNamesTable(env.draws, hash, wallet, true);
    CardNamesTable(env.draws, hash, wallet, false);
    hide Run, ResolveGenesis, Sound, InRange, GoodRecords;
  }
}

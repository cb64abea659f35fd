/**
 How a wallet comes to its block, packages/genesis-service/src/flow.ts: nothing is
 opened for a wallet whose balance was not read as enough, and the block it is bound to
 lies ten past a head read afterwards.
 */
module GenesisEntry {
  import opened Genesis
  import opened GenesisFlow
  import opened GenesisOutcome
  import opened Wrappers

  /** The call a step continues. */
  ghost predicate Resumes(env: Env, actions: seq<Action>, k: int, at: Call, reply: Reply) {
    0 <= k < |actions| && var w := Run(env, START, actions[..k]);
    actions[k].Continue? && actions[k].reply == reply && actions[k].call < |w.calls| && w.calls[actions[k].call] == at
  }

  /** Before the `n`-th step the wallet's balance was read and was enough. */
  ghost predicate ReadEnough(env: Env, actions: seq<Action>, n: int, wallet: Wallet) {
    exists j :: 0 <= j < n && Resumes(env, actions, j, AtBalance(wallet), Says(true))
  }

  /** And after that the head was read, ten short of `target`. */
  ghost predicate ReadHead(env: Env, actions: seq<Action>, n: int, wallet: Wallet, target: nat) {
    exists k :: 0 <= k < n && target >= 10 && ReadEnough(env, actions, k, wallet)
                && Resumes(env, actions, k, AtHead(wallet), Number(target - 10))
  }

  /** Where calls stand and what is stored is accounted for by what was read. */
  ghost predicate Accounted(env: Env, actions: seq<Action>, n: int, w: World) {
    && (forall i | 0 <= i < |w.calls| :: w.calls[i].AtHead? ==> ReadEnough(env, actions, n, w.calls[i].wallet))
    && (forall i | 0 <= i < |w.calls| :: w.calls[i].AtOpen? ==> ReadHead(env, actions, n, w.calls[i].wallet, w.calls[i].target))
    && (forall x | x in w.records :: ReadHead(env, actions, n, x, w.records[x].request.target))
  }

  lemma MoreRead(env: Env, actions: seq<Action>, n: int, wallet: Wallet, target: nat)
    ensures ReadEnough(env, actions, n, wallet) ==> ReadEnough(env, actions, n + 1, wallet)
    ensures ReadHead(env, actions, n, wallet, target) ==> ReadHead(env, actions, n + 1, wallet, target)
  {
    hide Resumes;
    if ReadEnough(env, actions, n, wallet) {
      var j :| 0 <= j < n && Resumes(env, actions, j, AtBalance(wallet), Says(true));
      assert 0 <= j < n + 1;
    }
    if ReadHead(env, actions, n, wallet, target) {
      var k :| 0 <= k < n && target >= 10 && ReadEnough(env, actions, k, wallet)
               && Resumes(env, actions, k, AtHead(wallet), Number(target - 10));
      assert 0 <= k < n + 1;
    }
  }

  /** A call that waits to read the head or to open has just read what it needs, or waited there before. */
  lemma CallEnters(env: Env, w: World, action: Action, i: nat)
    requires i < |Next(env, w, action).calls|
    ensures var c := Next(env, w, action).calls[i];
            && (c.AtHead? ==>
                  || (i < |w.calls| && w.calls[i] == c)
                  || (action == Continue(i, Says(true)) && i < |w.calls| && w.calls[i] == AtBalance(c.wallet)))
            && (c.AtOpen? ==>
                  || (i < |w.calls| && w.calls[i] == c)
                  || (c.target >= 10 && action == Continue(i, Number(c.target - 10)) && i < |w.calls| && w.calls[i] == AtHead(c.wallet)))
  {
    match action
    case Continue(j, reply) =>
      if j < |w.calls| {
        Continues(env, w, j, reply, i);
      }
      hide ContinueCall;
    case Proceed(a, reply) =>
      ProceedKeepsCalls(w, a, reply);
      hide ProceedAttempt;
    case _ => hide ContinueCall, ProceedAttempt;
  }

  lemma Continues(env: Env, w: World, j: nat, reply: Reply, i: nat)
    requires j < |w.calls| && i < |ContinueCall(env, w, j, reply).calls|
    ensures i < |w.calls|
    ensures var c := ContinueCall(env, w, j, reply).calls[i];
            && (i != j ==> c == w.calls[i])
            && (c.AtHead? ==> c == w.calls[i] || (i == j && reply == Says(true) && w.calls[i] == AtBalance(c.wallet)))
            && (c.AtOpen? ==> c == w.calls[i] || (i == j && c.target >= 10 && reply == Number(c.target - 10) && w.calls[i] == AtHead(c.wallet)))
  {
    if w.calls[j].AtBalance? || w.calls[j].AtHead? {
      Entering(env, w, j, reply);
    } else if w.calls[j].AtFind? || w.calls[j].AtBlock? || w.calls[j].AtCovered? {
      ReadingPasses(env, w, j, reply);
    } else if w.calls[j].AtOpen? || w.calls[j].AtCommit? || w.calls[j].AtRecord? {
      WritingPasses(env, w, j, reply);
    } else {
      ReservingPasses(env, w, j, reply);
    }
    hide ContinueCall;
  }

  /** Only the call that moves has moved. */
  ghost predicate Moved(w: World, v: World, j: nat) {
    j < |w.calls| == |v.calls| && v.calls == w.calls[j := v.calls[j]]
  }

  lemma Entering(env: Env, w: World, j: nat, reply: Reply)
    requires j < |w.calls| && (w.calls[j].AtBalance? || w.calls[j].AtHead?)
    ensures var v := ContinueCall(env, w, j, reply);
            && Moved(w, v, j)
            && var c := v.calls[j];
            && (c.AtHead? ==> reply == Says(true) && w.calls[j] == AtBalance(c.wallet))
            && (c.AtOpen? ==> c.target >= 10 && reply == Number(c.target - 10) && w.calls[j] == AtHead(c.wallet))
  {
  }

  lemma ReadingPasses(env: Env, w: World, j: nat, reply: Reply)
    requires j < |w.calls| && (w.calls[j].AtFind? || w.calls[j].AtBlock? || w.calls[j].AtCovered?)
    ensures var v := ContinueCall(env, w, j, reply); Moved(w, v, j) && Past(v.calls[j])
  {
    NeverEnters(env, w);
    hide Advance, Found, BlockFinal, ResolveAndReveal;
  }

  lemma WritingPasses(env: Env, w: World, j: nat, reply: Reply)
    requires j < |w.calls| && (w.calls[j].AtOpen? || w.calls[j].AtCommit? || w.calls[j].AtRecord?)
    ensures var v := ContinueCall(env, w, j, reply); Moved(w, v, j) && Past(v.calls[j])
  {
    NeverEnters(env, w);
    hide Advance, OpenIn, CommitIn, RecordIn;
  }

  lemma ReservingPasses(env: Env, w: World, j: nat, reply: Reply)
    requires j < |w.calls| && (w.calls[j].AtReserve? || w.calls[j].AtAttempt? || w.calls[j].Done?)
    ensures var v := ContinueCall(env, w, j, reply); Moved(w, v, j) && Past(v.calls[j])
  {
    NeverEnters(env, w);
    hide Outcome;
  }

  /** What a stored request, a final block or an attempt leads to is past reading the head. */
  lemma NeverEnters(env: Env, w: World)
    ensures forall s :: Past(Advance(env, s))
    ensures forall wallet, asking :: Past(Found(env, w.records, wallet, asking))
    ensures forall r, yes, committed :: Past(ResolveAndReveal(env, r, yes, committed))
    ensures forall r :: Past(BlockFinal(env, r))
    ensures forall r, committed, o :: Past(Outcome(env, r, committed, o))
  {
    hide ResolveRequest, FinalizeGenesis, CommitEntropy;
  }

  predicate Past(c: Call) {
    !c.AtHead? && !c.AtOpen?
  }

  /** A wallet's request appears only where a call opens it. */
  lemma RecordEnters(env: Env, w: World, action: Action, x: Wallet)
    requires x !in w.records && x in Next(env, w, action).records
    ensures action.Continue? && action.call < |w.calls|
    ensures w.calls[action.call] == AtOpen(x, Next(env, w, action).records[x].request.target)
  {
    hide ContinueCall;
    match action
    case Continue(i, reply) => OpeningEnters(env, w, i, reply, x);
    case Proceed(a, reply) => ProceedKeepsRecords(w, a, reply);
    case _ =>
  }

  lemma OpeningEnters(env: Env, w: World, i: nat, reply: Reply, x: Wallet)
    requires x !in w.records && i < |w.calls| && x in ContinueCall(env, w, i, reply).records
    ensures w.calls[i] == AtOpen(x, ContinueCall(env, w, i, reply).records[x].request.target)
  {
    hide Advance, Found, BlockFinal, Outcome, ResolveAndReveal;
    match w.calls[i]
    case AtOpen(wallet, target) =>
      assert OpenRequest(wallet, target).value == Request(wallet, Pending, target, None);
    case _ =>
  }

  lemma StepAccounted(env: Env, actions: seq<Action>, n: nat, w: World)
    requires n < |actions| && w == Run(env, START, actions[..n]) && Accounted(env, actions, n, w)
    requires Keeps(w, Next(env, w, actions[n]))
    ensures Accounted(env, actions, n + 1, Next(env, w, actions[n]))
  {
    var action := actions[n];
    var v := Next(env, w, action);
    hide Next, Run, ReadHead, ReadEnough;
    forall i | 0 <= i < |v.calls|
      ensures v.calls[i].AtHead? ==> ReadEnough(env, actions, n + 1, v.calls[i].wallet)
      ensures v.calls[i].AtOpen? ==> ReadHead(env, actions, n + 1, v.calls[i].wallet, v.calls[i].target)
    {
      CallEnters(env, w, action, i);
      if v.calls[i].AtHead? {
        MoreRead(env, actions, n, v.calls[i].wallet, 0);
        JustEnough(env, actions, n, v.calls[i].wallet);
      }
      if v.calls[i].AtOpen? {
        MoreRead(env, actions, n, v.calls[i].wallet, v.calls[i].target);
        JustHead(env, actions, n, v.calls[i].wallet, v.calls[i].target);
      }
    }
    forall x | x in v.records
      ensures ReadHead(env, actions, n + 1, x, v.records[x].request.target)
    {
      if x !in w.records {
        RecordEnters(env, w, action, x);
      }
      MoreRead(env, actions, n, x, v.records[x].request.target);
    }
  }

  lemma JustEnough(env: Env, actions: seq<Action>, n: nat, wallet: Wallet)
    requires Resumes(env, actions, n, AtBalance(wallet), Says(true)) || ReadEnough(env, actions, n + 1, wallet)
    ensures ReadEnough(env, actions, n + 1, wallet)
  {
    hide Resumes;
  }

  lemma JustHead(env: Env, actions: seq<Action>, n: nat, wallet: Wallet, target: nat)
    requires (target >= 10 && ReadEnough(env, actions, n, wallet) && Resumes(env, actions, n, AtHead(wallet), Number(target - 10)))
             || ReadHead(env, actions, n + 1, wallet, target)
    ensures ReadHead(env, actions, n + 1, wallet, target)
  {
    hide Resumes, ReadEnough;
  }

  lemma RunLast(env: Env, actions: seq<Action>, n: nat)
    requires n < |actions|
    ensures Run(env, START, actions[..n + 1]) == Next(env, Run(env, START, actions[..n]), actions[n])
  {
    assert actions[..n + 1] == actions[..n] + [actions[n]];
    RunJoins(env, START, actions[..n], [actions[n]]);
    var w := Run(env, START, actions[..n]);
    assert Run(env, w, [actions[n]]) == Run(env, Next(env, w, actions[n]), []);
    hide Next;
  }

  lemma {:induction false} RunAccounted(env: Env, actions: seq<Action>, n: nat)
    requires InRange(env.draws) && n <= |actions|
    ensures Accounted(env, actions, n, Run(env, START, actions[..n]))
    decreases n
  {
    hide Accounted, Next, Run, InRange, Keeps, Sound;
    if n == 0 {
      Untouched(env, actions);
    } else {
      RunAccounted(env, actions, n - 1);
      RunLast(env, actions, n - 1);
      StartSound(env);
      RunSound(env, START, actions[..n - 1]);
      StepSound(env, Run(env, START, actions[..n - 1]), actions[n - 1]);
      StepAccounted(env, actions, n - 1, Run(env, START, actions[..n - 1]));
    }
  }

  lemma Untouched(env: Env, actions: seq<Action>)
    ensures Accounted(env, actions, 0, Run(env, START, actions[..0]))
  {
  }

  /**
   Over every run: a wallet has a request only after its balance was read and was
   enough, and its block lies exactly ten past a head read after that, so it could not
   be known when the request was made.
  */
  lemma BoundAhead(env: Env, actions: seq<Action>, wallet: Wallet)
    requires InRange(env.draws) && wallet in Run(env, START, actions).records
    ensures ReadHead(env, actions, |actions|, wallet, Run(env, START, actions).records[wallet].request.target)
  {
    assert actions[..|actions|] == actions;
    RunAccounted(env, actions, |actions|);
    hide Run, ReadHead;
  }

  // ---------------------------------------------------------------------
  // Nothing before the block is final
  // ---------------------------------------------------------------------

  /** Whose card a call carries, once its block's hash has been taken. */
  function Subject(c: Call): Option<Wallet> {
    match c
    case AtCovered(r) => Some(r.wallet)
    case AtReserve(r, _) => Some(r.request.wallet)
    case AtAttempt(r, _, _) => Some(r.request.wallet)
    case AtCommit(r) => Some(r.wallet)
    case AtRecord(r, _, _) => Some(r.wallet)
    case _ => None
  }

  predicate OnlyOf(c: Call, x: Wallet) {
    Subject(c) == None || Subject(c) == Some(x)
  }

  /** The wallet's request has its hash. */
  predicate Taken(records: Records, x: Wallet) {
    x in records && records[x].request.state != Pending
  }

  /** Before the `n`-th step a read of the wallet's block said that it was final. */
  ghost predicate ReadFinal(env: Env, actions: seq<Action>, n: int, x: Wallet) {
    exists k, r: Request :: 0 <= k < n && r.wallet == x && Resumes(env, actions, k, AtBlock(r), Says(true))
  }

  ghost predicate Waited(env: Env, actions: seq<Action>, n: int, w: World) {
    && (forall i | 0 <= i < |w.calls| && Subject(w.calls[i]).Some? :: ReadFinal(env, actions, n, Subject(w.calls[i]).value))
    && (forall x | x in w.records && w.records[x].request.state != Pending :: ReadFinal(env, actions, n, x))
  }

  lemma RevealSubject(env: Env, r: Request, yes: bool, committed: bool)
    ensures OnlyOf(ResolveAndReveal(env, r, yes, committed), r.wallet)
  {
    hide ResolveGenesis;
  }

  lemma FinalSubject(env: Env, r: Request)
    ensures OnlyOf(BlockFinal(env, r), r.wallet)
  {
    var committed := CommitEntropy(r, r.target, env.hashes(r.target));
    if committed.Ok? {
      RevealSubject(env, committed.value, false, false);
    }
    hide ResolveAndReveal;
  }

  lemma OutcomeSubject(env: Env, r: Resolved, committed: bool, o: Reserved)
    ensures OnlyOf(Outcome(env, r, committed, o), r.request.wallet)
  {
    hide ResolveGenesis;
  }

  lemma AdvanceSubject(env: Env, s: Stored)
    ensures OnlyOf(Advance(env, s), s.request.wallet) && (s.request.state == Pending ==> Subject(Advance(env, s)) == None)
  {
    RevealSubject(env, s.request, true, true);
    hide ResolveAndReveal;
  }

  /** Where a call that carries somebody's card came from. */
  ghost predicate Carries(w: World, j: nat, reply: Reply, c: Call)
    requires j < |w.calls|
  {
    Subject(c).Some? ==>
      || Subject(w.calls[j]) == Subject(c)
      || (w.calls[j].AtBlock? && reply == Says(true) && w.calls[j].request.wallet == Subject(c).value)
      || Taken(w.records, Subject(c).value)
  }

  lemma FindingCarries(env: Env, w: World, j: nat, reply: Reply)
    requires GoodRecords(env, w) && j < |w.calls| && w.calls[j].AtFind?
    ensures |ContinueCall(env, w, j, reply).calls| == |w.calls| && Carries(w, j, reply, ContinueCall(env, w, j, reply).calls[j])
    ensures ContinueCall(env, w, j, reply).records == w.records
  {
    var x := w.calls[j].wallet;
    hide Advance, OwnRequest, GoodClaim, SecretDrawn, GoodRecords;
    if x in w.records {
      RecordAt(env, w, x);
      AdvanceSubject(env, w.records[x]);
    }
  }

  lemma ReadingCarries(env: Env, w: World, j: nat, reply: Reply)
    requires j < |w.calls| && (w.calls[j].AtBlock? || w.calls[j].AtCovered? || w.calls[j].AtBalance? || w.calls[j].AtHead?)
    ensures |ContinueCall(env, w, j, reply).calls| == |w.calls| && Carries(w, j, reply, ContinueCall(env, w, j, reply).calls[j])
    ensures ContinueCall(env, w, j, reply).records == w.records
  {
    hide BlockFinal, ResolveAndReveal;
    if w.calls[j].AtBlock? {
      FinalSubject(env, w.calls[j].request);
    } else if w.calls[j].AtCovered? && reply.Says? {
      RevealSubject(env, w.calls[j].request, reply.yes, false);
    }
  }

  lemma OpeningCarries(env: Env, w: World, j: nat, reply: Reply)
    requires GoodRecords(env, w) && j < |w.calls| && w.calls[j].AtOpen?
    ensures var v := ContinueCall(env, w, j, reply);
            && |v.calls| == |w.calls| && Carries(w, j, reply, v.calls[j])
            && forall x | Taken(v.records, x) :: Taken(w.records, x)
  {
    hide Advance, OwnRequest, GoodClaim, SecretDrawn, GoodRecords;
    var x, target := w.calls[j].wallet, w.calls[j].target;
    if x in w.records {
      RecordAt(env, w, x);
    }
    if OpenRequest(x, target).Ok? {
      AdvanceSubject(env, Stored(OpenIn(w.records, OpenRequest(x, target).value).1, None));
    }
  }

  lemma WritingCarries(env: Env, w: World, j: nat, reply: Reply)
    requires j < |w.calls| && (w.calls[j].AtCommit? || w.calls[j].AtRecord?)
    ensures var v := ContinueCall(env, w, j, reply);
            && |v.calls| == |w.calls| && Carries(w, j, reply, v.calls[j])
            && forall x | Taken(v.records, x) :: Taken(w.records, x) || Subject(w.calls[j]) == Some(x)
  {
  }

  lemma ReservingCarries(env: Env, w: World, j: nat, reply: Reply)
    requires j < |w.calls| && (w.calls[j].AtReserve? || w.calls[j].AtAttempt? || w.calls[j].Done?)
    ensures |ContinueCall(env, w, j, reply).calls| == |w.calls| && Carries(w, j, reply, ContinueCall(env, w, j, reply).calls[j])
    ensures ContinueCall(env, w, j, reply).records == w.records
  {
    if w.calls[j].AtAttempt? && w.calls[j].attempt < |w.attempts| && w.attempts[w.calls[j].attempt].stage.Finished? {
      OutcomeSubject(env, w.calls[j].resolved, w.calls[j].committed, w.attempts[w.calls[j].attempt].stage.outcome);
    }
    hide Outcome;
  }

  lemma ContinueCarries(env: Env, w: World, j: nat, reply: Reply)
    requires GoodRecords(env, w) && j < |w.calls|
    ensures var v := ContinueCall(env, w, j, reply);
            && |v.calls| == |w.calls| && Carries(w, j, reply, v.calls[j])
            && forall x | Taken(v.records, x) :: Taken(w.records, x) || Subject(w.calls[j]) == Some(x)
  {
    if w.calls[j].AtFind? {
      FindingCarries(env, w, j, reply);
    } else if w.calls[j].AtOpen? {
      OpeningCarries(env, w, j, reply);
    } else if w.calls[j].AtCommit? || w.calls[j].AtRecord? {
      WritingCarries(env, w, j, reply);
    } else if w.calls[j].AtReserve? || w.calls[j].AtAttempt? || w.calls[j].Done? {
      ReservingCarries(env, w, j, reply);
    } else {
      ReadingCarries(env, w, j, reply);
    }
    hide ContinueCall, GoodRecords, Carries;
  }

  lemma StillFinal(env: Env, actions: seq<Action>, n: int, x: Wallet)
    requires ReadFinal(env, actions, n, x)
    ensures ReadFinal(env, actions, n + 1, x)
  {
    hide Resumes;
    var k, r: Request :| 0 <= k < n && r.wallet == x && Resumes(env, actions, k, AtBlock(r), Says(true));
    assert 0 <= k < n + 1;
  }

  lemma NowFinal(env: Env, actions: seq<Action>, n: nat, r: Request)
    requires Resumes(env, actions, n, AtBlock(r), Says(true))
    ensures ReadFinal(env, actions, n + 1, r.wallet)
  {
    hide Resumes;
  }

  /** One step of a call: whatever it now carries or has stored was final. */
  lemma ContinueWaited(env: Env, actions: seq<Action>, n: nat, w: World, j: nat, reply: Reply)
    requires n < |actions| && actions[n] == Continue(j, reply) && w == Run(env, START, actions[..n])
    requires j < |w.calls| && GoodRecords(env, w) && Waited(env, actions, n, w)
    ensures var v := ContinueCall(env, w, j, reply);
            && |v.calls| == |w.calls|
            && (Subject(v.calls[j]).Some? ==> ReadFinal(env, actions, n + 1, Subject(v.calls[j]).value))
            && forall x | Taken(v.records, x) :: ReadFinal(env, actions, n + 1, x)
  {
    ContinueCarries(env, w, j, reply);
    var v := ContinueCall(env, w, j, reply);
    hide ContinueCall, GoodRecords, ReadFinal, Run;
    if Subject(v.calls[j]).Some? {
      var x := Subject(v.calls[j]).value;
      if w.calls[j].AtBlock? && reply == Says(true) && w.calls[j].request.wallet == x {
        NowFinal(env, actions, n, w.calls[j].request);
      } else {
        StillFinal(env, actions, n, x);
      }
    }
    forall x | Taken(v.records, x)
      ensures ReadFinal(env, actions, n + 1, x)
    {
      StillFinal(env, actions, n, x);
    }
  }

  /** What the step leaves to the others. */
  lemma OthersAsTheyWere(env: Env, w: World, action: Action, i: nat)
    requires i < |Next(env, w, action).calls| && !(action.Continue? && action.call == i)
    ensures Subject(Next(env, w, action).calls[i]).Some? ==> i < |w.calls| && w.calls[i] == Next(env, w, action).calls[i]
  {
    match action
    case Continue(j, reply) =>
      if j < |w.calls| {
        Continues(env, w, j, reply, i);
      }
      hide ContinueCall;
    case Proceed(a, reply) =>
      ProceedKeepsCalls(w, a, reply);
      hide ProceedAttempt;
    case _ => hide ContinueCall, ProceedAttempt;
  }

  lemma OthersStoreNothing(env: Env, w: World, action: Action)
    requires !(action.Continue? && action.call < |w.calls|)
    ensures Next(env, w, action).records == w.records
  {
    if action.Proceed? {
      ProceedKeepsRecords(w, action.attempt, action.reply);
    }
    hide ContinueCall, ProceedAttempt;
  }

  lemma StepWaited(env: Env, actions: seq<Action>, n: nat, w: World)
    requires n < |actions| && w == Run(env, START, actions[..n]) && GoodRecords(env, w) && Waited(env, actions, n, w)
    ensures Waited(env, actions, n + 1, Next(env, w, actions[n]))
  {
    var action := actions[n];
    var v := Next(env, w, action);
    if action.Continue? && action.call < |w.calls| {
      ContinueWaited(env, actions, n, w, action.call, action.reply);
      assert v == ContinueCall(env, w, action.call, action.reply);
    } else {
      OthersStoreNothing(env, w, action);
    }
    hide Next, Run, ReadFinal, GoodRecords, ContinueCall;
    forall i | 0 <= i < |v.calls| && Subject(v.calls[i]).Some?
      ensures ReadFinal(env, actions, n + 1, Subject(v.calls[i]).value)
    {
      if !(action.Continue? && action.call == i) {
        OthersAsTheyWere(env, w, action, i);
        StillFinal(env, actions, n, Subject(v.calls[i]).value);
      }
    }
    forall x | x in v.records && v.records[x].request.state != Pending
      ensures ReadFinal(env, actions, n + 1, x)
    {
      if action.Continue? && action.call < |w.calls| {
        assert Taken(v.records, x);
      } else {
        StillFinal(env, actions, n, x);
      }
    }
  }

  lemma {:induction false} RunWaited(env: Env, actions: seq<Action>, n: nat)
    requires InRange(env.draws) && n <= |actions|
    ensures Waited(env, actions, n, Run(env, START, actions[..n]))
    decreases n
  {
    hide Waited, Next, Run, InRange, Sound, GoodRecords;
    if n == 0 {
      NothingWaits(env, actions);
    } else {
      RunWaited(env, actions, n - 1);
      RunLast(env, actions, n - 1);
      StartSound(env);
      RunSound(env, START, actions[..n - 1]);
      RecordsOf(env, Run(env, START, actions[..n - 1]));
      StepWaited(env, actions, n - 1, Run(env, START, actions[..n - 1]));
    }
  }

  lemma NothingWaits(env: Env, actions: seq<Action>)
    ensures Waited(env, actions, 0, Run(env, START, actions[..0]))
  {
  }

  /** Over every run: a wallet's draw is taken, stored or claimed only after a read said that its block was final. */
  lemma NothingBeforeFinality(env: Env, actions: seq<Action>, wallet: Wallet)
    requires InRange(env.draws)
    requires var w := Run(env, START, actions);
             || Taken(w.records, wallet) || Claimed(w.records, wallet)
             || exists i :: 0 <= i < |w.calls| && Subject(w.calls[i]) == Some(wallet)
    ensures ReadFinal(env, actions, |actions|, wallet)
  {
    assert actions[..|actions|] == actions;
    RunWaited(env, actions, |actions|);
    StartSound(env);
    RunSound(env, START, actions);
    var w := Run(env, START, actions);
    RecordsOf(env, w);
    if wallet in w.records {
      RecordAt(env, w, wallet);
    }
    hide Run, ReadFinal, Sound, GoodRecords, GoodClaim;
  }
}

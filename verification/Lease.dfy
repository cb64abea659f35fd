/**
 The leader lease, packages/redis/src/lease.ts: one key with an expiry, renewed and
 released by compare-and-set, under a clock and messages that take time.
 */
module Lease {
  import opened Wrappers

  /** The expiry, the longest time between two renewals, and the longest exchange with the server. */
  datatype Timing = Timing(ttl: nat, period: nat, delay: nat)

  /** How often `takeLease` asks and renews. */
  function Interval(ttl: nat): nat {
    if ttl / 3 > 1_000 then ttl / 3 else 1_000
  }

  datatype Key = Key(owner: nat, expires: int)

  datatype SetAnswer = Travelling | Taken | Refused

  datatype Renewal = Renewal(sent: int, answer: Option<bool>)

  /** One call of `takeLease`, under a holder id of its own. */
  datatype Phase =
    | Idle
    | Asking(sent: int, answer: SetAnswer)
    | Holding(due: int, out: seq<Renewal>)
    | Lost

  /** Commands whose sender stopped listening; they may still reach the server. */
  datatype Stray = StraySet(holder: nat) | StrayRenew(holder: nat) | StrayRelease(holder: nat)

  datatype World = World(
    now: int,
    key: Option<Key>,
    phases: seq<Phase>,
    strays: multiset<Stray>,
    aborted: map<nat, Phase>)

  datatype Action =
    | Wait(until: int)
    | Ask(i: nat)
    | SetArrives(i: nat)
    | SetReplies(i: nat)
    | SetFails(i: nat)
    | TimerFires(i: nat)
    | RenewArrives(i: nat, k: nat)
    | RenewReplies(i: nat, k: nat)
    | RenewFails(i: nat, k: nat)
    | Release(i: nat)
    | Abort(i: nat)
    | Die(i: nat)
    | StrayArrives(m: Stray)

  // ---------------------------------------------------------------------
  // The server
  // ---------------------------------------------------------------------

  predicate Live(key: Option<Key>, now: int) {
    key.Some? && now < key.value.expires
  }

  predicate OwnedBy(key: Option<Key>, now: int, i: nat) {
    Live(key, now) && key.value.owner == i
  }

  /** `SET NX PX`. */
  function SetKey(key: Option<Key>, now: int, i: nat, ttl: nat): Option<Key> {
    if Live(key, now) then key else Some(Key(i, now + ttl))
  }

  /** The RENEW script. */
  function RenewKey(key: Option<Key>, now: int, i: nat, ttl: nat): Option<Key> {
    if OwnedBy(key, now, i) then Some(Key(i, now + ttl)) else key
  }

  /** The RELEASE script. */
  function ReleaseKey(key: Option<Key>, now: int, i: nat): Option<Key> {
    if OwnedBy(key, now, i) then None else key
  }

  // ---------------------------------------------------------------------
  // Steps
  // ---------------------------------------------------------------------

  predicate HasPhase(w: World, i: nat) {
    i < |w.phases|
  }

  function Put(w: World, i: nat, p: Phase): World
    requires HasPhase(w, i)
  {
    w.(phases := w.phases[i := p])
  }

  /** How late the clock may get while a holder waits for something. */
  predicate PhaseAllows(p: Phase, t: int, timing: Timing) {
    match p
    case Asking(sent, _) => t <= sent + timing.delay
    case Holding(due, out) => t <= due && forall k | 0 <= k < |out| :: t <= out[k].sent + timing.delay
    case _ => true
  }

  predicate ClockAllows(w: World, t: int, timing: Timing) {
    forall i | 0 <= i < |w.phases| :: PhaseAllows(w.phases[i], t, timing)
  }

  /** The renewals still under way when nobody waits for them any more. */
  function StrayRenewals(i: nat, out: seq<Renewal>): multiset<Stray> {
    multiset(seq(|out|, k requires 0 <= k < |out| => StrayRenew(i)))
  }

  function Without(out: seq<Renewal>, k: nat): seq<Renewal>
    requires k < |out|
  {
    out[..k] + out[k + 1..]
  }

  /** `give`: the lease is not held any more. */
  function Give(w: World, i: nat): World
    requires HasPhase(w, i) && w.phases[i].Holding?
  {
    Put(w, i, Lost).(strays := w.strays + StrayRenewals(i, w.phases[i].out))
  }

  function SetStep(w: World, i: nat, timing: Timing): World
    requires HasPhase(w, i)
  {
    var p := w.phases[i];
    if p.Asking? && p.answer == Travelling then
      Put(w, i, p.(answer := if Live(w.key, w.now) then Refused else Taken)).(key := SetKey(w.key, w.now, i, timing.ttl))
    else w
  }

  function RenewStep(w: World, i: nat, k: nat, timing: Timing): World
    requires HasPhase(w, i)
  {
    var p := w.phases[i];
    if p.Holding? && k < |p.out| && p.out[k].answer.None? then
      Put(w, i, p.(out := p.out[k := p.out[k].(answer := Some(OwnedBy(w.key, w.now, i)))])).(key := RenewKey(w.key, w.now, i, timing.ttl))
    else w
  }

  function RenewReplyStep(w: World, i: nat, k: nat): World
    requires HasPhase(w, i)
  {
    var p := w.phases[i];
    if p.Holding? && k < |p.out| && p.out[k].answer.Some? then
      if p.out[k].answer.value then Put(w, i, p.(out := Without(p.out, k))) else Give(w, i)
    else w
  }

  function PhaseStep(w: World, i: nat, action: Action, timing: Timing): World
    requires HasPhase(w, i)
  {
    var p := w.phases[i];
    match action
    case Ask(_) =>
      if p == Idle && i !in w.aborted then Put(w, i, Asking(w.now, Travelling)) else w
    case SetArrives(_) => SetStep(w, i, timing)
    case SetReplies(_) =>
      if p.Asking? && p.answer == Taken then Put(w, i, Holding(w.now + timing.period, []))
      else if p.Asking? && p.answer == Refused then Put(w, i, Idle)
      else w
    case SetFails(_) =>
      if p.Asking? then Put(w, i, Idle).(strays := if p.answer == Travelling then w.strays + multiset{StraySet(i)} else w.strays) else w
    case TimerFires(_) =>
      if p.Holding? then Put(w, i, Holding(w.now + timing.period, p.out + [Renewal(w.now, None)])) else w
    case RenewArrives(_, k) => RenewStep(w, i, k, timing)
    case RenewReplies(_, k) => RenewReplyStep(w, i, k)
    case RenewFails(_, k) => if p.Holding? && k < |p.out| then Give(w, i) else w
    case Release(_) =>
      if p.Holding? then Give(w, i).(strays := Give(w, i).strays + multiset{StrayRelease(i)}) else w
    case Abort(_) =>
      if i in w.aborted then w
      else (if p.Holding? then Give(w, i) else w).(aborted := w.aborted[i := p])
    case Die(_) =>
      if p.Holding? then Give(w, i)
      else if p.Asking? then Put(w, i, Lost).(strays := if p.answer == Travelling then w.strays + multiset{StraySet(i)} else w.strays)
      else Put(w, i, Lost)
    case _ => w
  }

  function StrayStep(w: World, m: Stray, timing: Timing): World {
    if m !in w.strays then w
    else
      w.(strays := w.strays - multiset{m},
         key := match m
                case StraySet(i) => SetKey(w.key, w.now, i, timing.ttl)
                case StrayRenew(i) => RenewKey(w.key, w.now, i, timing.ttl)
                case StrayRelease(i) => ReleaseKey(w.key, w.now, i))
  }

  function Next(w: World, action: Action, timing: Timing): World {
    match action
    case Wait(t) => if w.now <= t && ClockAllows(w, t, timing) then w.(now := t) else w
    case StrayArrives(m) => StrayStep(w, m, timing)
    case _ => if HasPhase(w, action.i) then PhaseStep(w, action.i, action, timing) else w
  }

  function Run(w: World, actions: seq<Action>, timing: Timing): World
    decreases |actions|
  {
    if actions == [] then w else Run(Next(w, actions[0], timing), actions[1..], timing)
  }

  function Start(holders: nat): World {
    World(0, None, seq(holders, _ => Idle), multiset{}, map[])
  }

  predicate Held(w: World, i: nat) {
    HasPhase(w, i) && w.phases[i].Holding?
  }

  // ---------------------------------------------------------------------
  // Nobody else touches a live key
  // ---------------------------------------------------------------------

  /** Whose command a step carries out at the server, if any. */
  ghost function Author(action: Action): Option<nat> {
    match action
    case SetArrives(i) => Some(i)
    case RenewArrives(i, _) => Some(i)
    case StrayArrives(m) => Some(m.holder)
    case _ => None
  }

  /**
   With no assumption on time at all: while a holder's key lives, no other holder's
   command changes it, and its owner's only extend it or delete it.
  */
  lemma OnlyTheOwnerTouches(w: World, action: Action, timing: Timing, owner: nat)
    requires OwnedBy(w.key, w.now, owner)
    ensures var v := Next(w, action, timing);
            && (Author(action) != Some(owner) ==> v.key == w.key)
            && (v.key == w.key || v.key == Some(Key(owner, w.now + timing.ttl)) || (v.key == None && action == StrayArrives(StrayRelease(owner))))
  {
  }

  // ---------------------------------------------------------------------
  // One holder at a time
  // ---------------------------------------------------------------------

  /** A renewal is due, or one is under way, early enough to settle the matter before the key expires. */
  ghost predicate RenewsInTime(due: int, out: seq<Renewal>, expires: int, timing: Timing) {
    || due + timing.delay < expires
    || exists k :: 0 <= k < |out| && out[k].answer.None? && out[k].sent + timing.delay < expires
  }

  ghost predicate PhaseSafe(w: World, i: nat, timing: Timing)
    requires HasPhase(w, i)
  {
    var p := w.phases[i];
    && (p.Asking? ==> p.sent <= w.now)
    && (p.Asking? && p.answer == Taken ==>
          w.key.Some? && w.key.value.owner == i && p.sent + timing.ttl <= w.key.value.expires)
    && (p.Holding? ==>
          && w.key.Some? && w.key.value.owner == i && RenewsInTime(p.due, p.out, w.key.value.expires, timing)
          && p.due <= w.now + timing.period
          && forall k | 0 <= k < |p.out| :: p.out[k].sent <= w.now && p.out[k].answer != Some(false))
    && (StrayRelease(i) in w.strays ==> p == Lost)
    && PhaseAllows(p, w.now, timing)
  }

  ghost predicate Safe(w: World, timing: Timing) {
    && (forall i | 0 <= i < |w.phases| :: PhaseSafe(w, i, timing))
    && (w.key.Some? ==> w.key.value.expires <= w.now + timing.ttl)
  }

  /** The renewal interval and two exchanges fit into the expiry. */
  predicate FitsExpiry(timing: Timing) {
    timing.period + 2 * timing.delay < timing.ttl
  }

  /** A holder's key has not expired. */
  lemma HolderOwns(w: World, i: nat, timing: Timing)
    requires Safe(w, timing) && FitsExpiry(timing) && HasPhase(w, i)
    requires w.phases[i].Holding? || (w.phases[i].Asking? && w.phases[i].answer == Taken)
    ensures OwnedBy(w.key, w.now, i)
  {
    assert PhaseSafe(w, i, timing);
  }

  /** What a step did to the key, as the holders see it: nothing, or a later expiry. */
  ghost predicate KeyOnlyGrows(w: World, v: World) {
    v.key == w.key || (w.key.Some? && v.key.Some? && v.key.value.owner == w.key.value.owner && w.key.value.expires <= v.key.value.expires)
  }

  ghost predicate OnKey(p: Phase) {
    p.Holding? || (p.Asking? && p.answer == Taken)
  }

  lemma LaterExpiry(due: int, out: seq<Renewal>, a: int, b: int, timing: Timing)
    requires RenewsInTime(due, out, a, timing) && a <= b
    ensures RenewsInTime(due, out, b, timing)
  {
  }

  lemma OtherPhaseKeeps(w: World, v: World, j: nat, timing: Timing)
    requires HasPhase(w, j) && HasPhase(v, j) && PhaseSafe(w, j, timing)
    requires v.phases[j] == w.phases[j] && v.now == w.now
    requires StrayRelease(j) in v.strays ==> StrayRelease(j) in w.strays
    requires OnKey(w.phases[j]) ==> KeyOnlyGrows(w, v)
    ensures PhaseSafe(v, j, timing)
  {
    var p := w.phases[j];
    hide RenewsInTime, PhaseAllows;
    if p.Holding? {
      LaterExpiry(p.due, p.out, w.key.value.expires, v.key.value.expires, timing);
    }
  }

  /** One phase changes, and with it perhaps the key. */
  lemma OneMoves(w: World, v: World, i: nat, timing: Timing)
    requires Safe(w, timing) && HasPhase(w, i) && |v.phases| == |w.phases| && v.now == w.now
    requires forall j | 0 <= j < |w.phases| && j != i :: v.phases[j] == w.phases[j]
    requires forall j: nat | j < |w.phases| && j != i :: StrayRelease(j) in v.strays ==> StrayRelease(j) in w.strays
    requires KeyOnlyGrows(w, v) || forall j | 0 <= j < |w.phases| && j != i :: !OnKey(w.phases[j])
    requires PhaseSafe(v, i, timing) && (v.key.Some? ==> v.key.value.expires <= v.now + timing.ttl)
    ensures Safe(v, timing)
  {
    forall j | 0 <= j < |v.phases|
      ensures PhaseSafe(v, j, timing)
    {
      if j != i {
        assert PhaseSafe(w, j, timing);
        hide PhaseSafe, Safe;
        OtherPhaseKeeps(w, v, j, timing);
      }
    }
  }

  /** With the key dead or free, nobody holds or is about to. */
  lemma DeadKeyIsFree(w: World, timing: Timing)
    requires Safe(w, timing) && FitsExpiry(timing) && !Live(w.key, w.now)
    ensures forall j | 0 <= j < |w.phases| :: !OnKey(w.phases[j])
  {
    forall j | 0 <= j < |w.phases|
      ensures !OnKey(w.phases[j])
    {
      if OnKey(w.phases[j]) {
        hide Safe;
        HolderOwns(w, j, timing);
      }
    }
  }

  lemma NoReleaseAmong(i: nat, j: nat, out: seq<Renewal>)
    ensures StrayRelease(j) !in StrayRenewals(i, out)
  {
  }

  lemma GiveSafe(w: World, i: nat, timing: Timing)
    requires Safe(w, timing) && HasPhase(w, i) && w.phases[i].Holding?
    ensures Safe(Give(w, i), timing)
  {
    var v := Give(w, i);
    forall j: nat | j < |w.phases|
      ensures StrayRelease(j) in v.strays ==> StrayRelease(j) in w.strays
    {
      NoReleaseAmong(i, j, w.phases[i].out);
    }
    OneMoves(w, v, i, timing);
  }

  lemma PhaseAt(w: World, i: nat, timing: Timing)
    requires Safe(w, timing) && HasPhase(w, i)
    ensures PhaseSafe(w, i, timing)
    ensures w.key.Some? ==> w.key.value.expires <= w.now + timing.ttl
  {
  }

  lemma SetSafe(w: World, i: nat, timing: Timing)
    requires Safe(w, timing) && FitsExpiry(timing) && HasPhase(w, i)
    ensures Safe(SetStep(w, i, timing), timing)
  {
    var v := SetStep(w, i, timing);
    PhaseAt(w, i, timing);
    if !Live(w.key, w.now) {
      DeadKeyIsFree(w, timing);
    }
    hide Safe;
    if v != w {
      OneMoves(w, v, i, timing);
    }
  }

  lemma TakenSafe(w: World, i: nat, timing: Timing)
    requires Safe(w, timing) && FitsExpiry(timing) && HasPhase(w, i)
    requires w.phases[i].Asking? && w.phases[i].answer == Taken
    ensures Safe(Put(w, i, Holding(w.now + timing.period, [])), timing)
  {
    PhaseAt(w, i, timing);
    hide Safe;
    OneMoves(w, Put(w, i, Holding(w.now + timing.period, [])), i, timing);
  }

  lemma TimerSafe(w: World, i: nat, timing: Timing)
    requires Safe(w, timing) && HasPhase(w, i) && w.phases[i].Holding?
    ensures Safe(Put(w, i, Holding(w.now + timing.period, w.phases[i].out + [Renewal(w.now, None)])), timing)
  {
    var p := w.phases[i];
    var out := p.out + [Renewal(w.now, None)];
    var v := Put(w, i, Holding(w.now + timing.period, out));
    PhaseAt(w, i, timing);
    assert RenewsInTime(w.now + timing.period, out, w.key.value.expires, timing) by {
      if p.due + timing.delay < w.key.value.expires {
        assert out[|p.out|].answer.None? && out[|p.out|].sent + timing.delay < w.key.value.expires;
      } else {
        var k :| 0 <= k < |p.out| && p.out[k].answer.None? && p.out[k].sent + timing.delay < w.key.value.expires;
        assert out[k].answer.None? && out[k].sent + timing.delay < w.key.value.expires;
      }
    }
    hide Safe, RenewsInTime;
    OneMoves(w, v, i, timing);
  }

  lemma RenewSafe(w: World, i: nat, k: nat, timing: Timing)
    requires Safe(w, timing) && FitsExpiry(timing) && HasPhase(w, i)
    ensures Safe(RenewStep(w, i, k, timing), timing)
  {
    var v := RenewStep(w, i, k, timing);
    var p := w.phases[i];
    if p.Holding? && k < |p.out| && p.out[k].answer.None? {
      HolderOwns(w, i, timing);
      PhaseAt(w, i, timing);
      hide Safe;
      assert v.phases[i].due + timing.delay < v.key.value.expires;
      hide RenewsInTime;
      assert PhaseSafe(v, i, timing) by { SoonEnough(v.phases[i].due, v.phases[i].out, v.key.value.expires, timing); }
      hide PhaseSafe;
      OneMoves(w, v, i, timing);
    }
  }

  lemma SoonEnough(due: int, out: seq<Renewal>, expires: int, timing: Timing)
    requires due + timing.delay < expires
    ensures RenewsInTime(due, out, expires, timing)
  {
  }

  lemma WithoutKeeps(due: int, out: seq<Renewal>, k: nat, expires: int, timing: Timing)
    requires k < |out| && out[k].answer.Some? && RenewsInTime(due, out, expires, timing)
    ensures RenewsInTime(due, Without(out, k), expires, timing)
  {
    if due + timing.delay >= expires {
      var j :| 0 <= j < |out| && out[j].answer.None? && out[j].sent + timing.delay < expires;
      var rest := Without(out, k);
      assert rest[if j < k then j else j - 1] == out[j];
    }
  }

  lemma WithoutIsPart(out: seq<Renewal>, k: nat)
    requires k < |out|
    ensures forall r | r in Without(out, k) :: r in out
  {
  }

  /** What a holder knows of its renewals, element by element. */
  lemma RenewalsOf(out: seq<Renewal>, rest: seq<Renewal>, now: int, t: int, timing: Timing)
    requires forall r | r in rest :: r in out
    requires forall k | 0 <= k < |out| :: out[k].sent <= now && out[k].answer != Some(false) && t <= out[k].sent + timing.delay
    ensures forall k | 0 <= k < |rest| :: rest[k].sent <= now && rest[k].answer != Some(false) && t <= rest[k].sent + timing.delay
  {
    forall k | 0 <= k < |rest|
      ensures rest[k].sent <= now && rest[k].answer != Some(false) && t <= rest[k].sent + timing.delay
    {
      assert rest[k] in out;
    }
  }

  lemma RenewReplySafe(w: World, i: nat, k: nat, timing: Timing)
    requires Safe(w, timing) && HasPhase(w, i)
    ensures Safe(RenewReplyStep(w, i, k), timing)
  {
    var v := RenewReplyStep(w, i, k);
    var p := w.phases[i];
    if p.Holding? && k < |p.out| && p.out[k].answer.Some? {
      PhaseAt(w, i, timing);
      assert p.out[k].answer != Some(false);
      WithoutKeeps(p.due, p.out, k, w.key.value.expires, timing);
      WithoutIsPart(p.out, k);
      RenewalsOf(p.out, Without(p.out, k), w.now, w.now, timing);
      hide Safe, RenewsInTime, Without;
      OneMoves(w, v, i, timing);
    }
  }

  lemma StraySafe(w: World, m: Stray, timing: Timing)
    requires Safe(w, timing) && FitsExpiry(timing)
    ensures Safe(StrayStep(w, m, timing), timing)
  {
    var v := StrayStep(w, m, timing);
    if m in w.strays {
      if m.StraySet? && !Live(w.key, w.now) {
        DeadKeyIsFree(w, timing);
      }
      forall j | 0 <= j < |v.phases|
        ensures PhaseSafe(v, j, timing)
      {
        PhaseAt(w, j, timing);
        if OnKey(w.phases[j]) && m.StrayRelease? {
          hide Safe;
          HolderOwns(w, j, timing);
        }
        hide Safe, RenewsInTime, PhaseAllows;
        OtherPhaseKeeps(w, v, j, timing);
      }
    }
  }

  /** Every step keeps the lease safe. */
  lemma NextSafe(w: World, action: Action, timing: Timing)
    requires Safe(w, timing) && FitsExpiry(timing)
    ensures Safe(Next(w, action, timing), timing)
  {
    match action
    case Wait(t) =>
      if w.now <= t && ClockAllows(w, t, timing) {
        WaitSafe(w, t, timing);
      }
    case StrayArrives(m) => StraySafe(w, m, timing);
    case _ =>
      if HasPhase(w, action.i) {
        hide Safe;
        PhaseStepSafe(w, action.i, action, timing);
      }
  }

  lemma WaitSafe(w: World, t: int, timing: Timing)
    requires Safe(w, timing) && w.now <= t && ClockAllows(w, t, timing)
    ensures Safe(w.(now := t), timing)
  {
    var v := w.(now := t);
    forall i | 0 <= i < |v.phases|
      ensures PhaseSafe(v, i, timing)
    {
      assert PhaseSafe(w, i, timing) && PhaseAllows(w.phases[i], t, timing);
    }
  }

  lemma AskSafe(w: World, i: nat, timing: Timing)
    requires Safe(w, timing) && HasPhase(w, i) && w.phases[i] == Idle
    ensures Safe(Put(w, i, Asking(w.now, Travelling)), timing)
  {
    PhaseAt(w, i, timing);
    hide Safe;
    OneMoves(w, Put(w, i, Asking(w.now, Travelling)), i, timing);
  }

  /** Going idle or lost, with perhaps a command left on its way. */
  lemma DropSafe(w: World, i: nat, p: Phase, left: multiset<Stray>, timing: Timing)
    requires Safe(w, timing) && HasPhase(w, i) && (p == Lost || (p == Idle && w.phases[i].Asking?))
    requires forall j: nat | j < |w.phases| :: StrayRelease(j) in left ==> j == i && p == Lost
    ensures Safe(Put(w, i, p).(strays := w.strays + left), timing)
  {
    PhaseAt(w, i, timing);
    var v := Put(w, i, p).(strays := w.strays + left);
    hide Safe;
    assert PhaseSafe(v, i, timing);
    OneMoves(w, v, i, timing);
  }

  lemma NoneLeft(w: World, i: nat, p: Phase)
    requires HasPhase(w, i)
    ensures Put(w, i, p).(strays := w.strays + multiset{}) == Put(w, i, p)
  {
    assert w.strays + multiset{} == w.strays;
  }

  lemma PhaseStepSafe(w: World, i: nat, action: Action, timing: Timing)
    requires Safe(w, timing) && FitsExpiry(timing) && HasPhase(w, i)
    ensures Safe(PhaseStep(w, i, action, timing), timing)
  {
    var p := w.phases[i];
    hide Safe, SetStep, RenewStep, RenewReplyStep, Give, Put;
    match action
    case Ask(_) => if p == Idle { AskSafe(w, i, timing); }
    case SetArrives(_) => SetSafe(w, i, timing);
    case SetReplies(_) =>
      if p.Asking? && p.answer == Taken {
        TakenSafe(w, i, timing);
      } else if p.Asking? {
        DropSafe(w, i, Idle, multiset{}, timing);
        NoneLeft(w, i, Idle);
      }
    case SetFails(_) =>
      if p.Asking? {
        DropSafe(w, i, Idle, multiset{StraySet(i)}, timing);
        DropSafe(w, i, Idle, multiset{}, timing);
        NoneLeft(w, i, Idle);
      }
    case TimerFires(_) => if p.Holding? { TimerSafe(w, i, timing); }
    case RenewArrives(_, k) => RenewSafe(w, i, k, timing);
    case RenewReplies(_, k) => RenewReplySafe(w, i, k, timing);
    case RenewFails(_, _) => if p.Holding? { GiveSafe(w, i, timing); }
    case Release(_) => if p.Holding? { ReleaseSafe(w, i, timing); }
    case Abort(_) =>
      if p.Holding? {
        GiveSafe(w, i, timing);
        AbortedSafe(Give(w, i), w.aborted[i := p], timing);
      } else {
        AbortedSafe(w, w.aborted[i := p], timing);
      }
    case Die(_) =>
      if p.Holding? {
        GiveSafe(w, i, timing);
      } else {
        DropSafe(w, i, Lost, multiset{StraySet(i)}, timing);
        DropSafe(w, i, Lost, multiset{}, timing);
        NoneLeft(w, i, Lost);
      }
    case _ =>
  }

  lemma AbortedSafe(w: World, aborted: map<nat, Phase>, timing: Timing)
    requires Safe(w, timing)
    ensures Safe(w.(aborted := aborted), timing)
  {
    var v := w.(aborted := aborted);
    forall i | 0 <= i < |v.phases|
      ensures PhaseSafe(v, i, timing)
    {
      assert PhaseSafe(w, i, timing);
    }
  }

  lemma ReleaseSafe(w: World, i: nat, timing: Timing)
    requires Safe(w, timing) && HasPhase(w, i) && w.phases[i].Holding?
    ensures Safe(Give(w, i).(strays := Give(w, i).strays + multiset{StrayRelease(i)}), timing)
  {
    var out := w.phases[i].out;
    var left := StrayRenewals(i, out) + multiset{StrayRelease(i)};
    forall j: nat | j < |w.phases|
      ensures StrayRelease(j) in left ==> j == i
    {
      NoReleaseAmong(i, j, out);
    }
    assert Give(w, i).strays + multiset{StrayRelease(i)} == w.strays + left;
    DropSafe(w, i, Lost, left, timing);
  }

  lemma {:induction false} RunSafe(w: World, actions: seq<Action>, timing: Timing)
    requires Safe(w, timing) && FitsExpiry(timing)
    ensures Safe(Run(w, actions, timing), timing)
    decreases |actions|
  {
    hide Safe, Next;
    if actions != [] {
      NextSafe(w, actions[0], timing);
      RunSafe(Next(w, actions[0], timing), actions[1..], timing);
    }
  }

  lemma StartSafe(holders: nat, timing: Timing)
    ensures Safe(Start(holders), timing)
  {
  }

  /** When the interval and two exchanges fit into the expiry, no run has two holders, and a holder always owns the live key. */
  lemma OneHolder(holders: nat, actions: seq<Action>, timing: Timing, i: nat, j: nat)
    requires FitsExpiry(timing)
    requires Held(Run(Start(holders), actions, timing), i)
    ensures var w := Run(Start(holders), actions, timing); OwnedBy(w.key, w.now, i)
    ensures Held(Run(Start(holders), actions, timing), j) ==> i == j
  {
    var w := Run(Start(holders), actions, timing);
    StartSafe(holders, timing);
    RunSafe(Start(holders), actions, timing);
    hide Run, Safe;
    HolderOwns(w, i, timing);
    if Held(w, j) {
      HolderOwns(w, j, timing);
    }
  }

  // ---------------------------------------------------------------------
  // And not otherwise
  // ---------------------------------------------------------------------

  /** Time passes to `t`, the holder's timer firing whenever it is due and no renewal answered. */
  function FireUntil(due: int, t: int, timing: Timing): seq<Action>
    requires timing.period > 0
    decreases t - due
  {
    if due >= t then [Wait(t)] else [Wait(due), TimerFires(0)] + FireUntil(due + timing.period, t, timing)
  }

  /** One holder with unanswered renewals, and a second instance that has not asked. */
  function Stalled(now: int, due: int, out: seq<Renewal>, expires: int): World {
    World(now, Some(Key(0, expires)), [Holding(due, out), Idle], multiset{}, map[])
  }

  lemma RunTwo(w: World, a: Action, b: Action, rest: seq<Action>, timing: Timing)
    ensures Run(w, [a, b] + rest, timing) == Run(Next(Next(w, a, timing), b, timing), rest, timing)
  {
    hide Next;
    assert ([a, b] + rest)[1..] == [b] + rest && ([b] + rest)[1..] == rest;
  }

  lemma WaitStalled(now: int, due: int, out: seq<Renewal>, expires: int, t: int, timing: Timing)
    requires now <= t <= due && forall k | 0 <= k < |out| :: t <= out[k].sent + timing.delay
    ensures Next(Stalled(now, due, out, expires), Wait(t), timing) == Stalled(t, due, out, expires)
  {
  }

  lemma RunLast(w: World, a: Action, timing: Timing)
    ensures Run(w, [a], timing) == Next(w, a, timing)
  {
    hide Next;
    assert [a][1..] == [];
  }

  lemma {:induction false} FireReaches(now: int, due: int, out: seq<Renewal>, expires: int, t: int, timing: Timing) returns (due': int, out': seq<Renewal>)
    requires timing.period > 0 && now <= due && now <= t && t <= due + timing.delay
    requires forall k | 0 <= k < |out| :: t <= out[k].sent + timing.delay
    ensures Run(Stalled(now, due, out, expires), FireUntil(due, t, timing), timing) == Stalled(t, due', out', expires)
    decreases t - due
  {
    hide Next, Run, Stalled;
    if due >= t {
      due', out' := due, out;
      WaitStalled(now, due, out, expires, t, timing);
      RunLast(Stalled(now, due, out, expires), Wait(t), timing);
    } else {
      WaitStalled(now, due, out, expires, due, timing);
      Fired(due, out, expires, timing);
      RunTwo(Stalled(now, due, out, expires), Wait(due), TimerFires(0), FireUntil(due + timing.period, t, timing), timing);
      hide FireUntil;
      due', out' := FireReaches(due, due + timing.period, out + [Renewal(due, None)], expires, t, timing);
    }
  }

  lemma Fired(due: int, out: seq<Renewal>, expires: int, timing: Timing)
    ensures Next(Stalled(due, due, out, expires), TimerFires(0), timing)
            == Stalled(due, due + timing.period, out + [Renewal(due, None)], expires)
  {
  }

  lemma {:induction false} RunJoins(w: World, a: seq<Action>, b: seq<Action>, timing: Timing)
    ensures Run(w, a + b, timing) == Run(Run(w, a, timing), b, timing)
    decreases |a|
  {
    hide Next;
    if a == [] {
      assert a + b == b;
    } else {
      assert (a + b)[1..] == a[1..] + b;
      RunJoins(Next(w, a[0], timing), a[1..], b, timing);
    }
  }

  const TAKE: seq<Action> := [Ask(0), SetArrives(0)]
  const TAKEOVER: seq<Action> := [Ask(1), SetArrives(1), SetReplies(1)]

  lemma FirstTakes(timing: Timing)
    ensures Run(Start(2), TAKE + [Wait(timing.delay), SetReplies(0)], timing)
            == Stalled(timing.delay, timing.delay + timing.period, [], timing.ttl)
    requires timing.ttl > 0
  {
    var asked := Start(2).(phases := [Asking(0, Travelling), Idle]);
    var taken := asked.(phases := [Asking(0, Taken), Idle], key := Some(Key(0, timing.ttl)));
    assert Next(Start(2), Ask(0), timing) == asked;
    assert Next(asked, SetArrives(0), timing) == taken;
    assert ClockAllows(taken, timing.delay, timing);
    var late := taken.(now := timing.delay);
    assert Next(taken, Wait(timing.delay), timing) == late;
    assert Next(late, SetReplies(0), timing) == Stalled(timing.delay, timing.delay + timing.period, [], timing.ttl);
    hide Next;
    assert TAKE + [Wait(timing.delay), SetReplies(0)] == [Ask(0), SetArrives(0)] + [Wait(timing.delay), SetReplies(0)];
    RunTwo(Start(2), Ask(0), SetArrives(0), [Wait(timing.delay), SetReplies(0)], timing);
    assert [Wait(timing.delay), SetReplies(0)] == [Wait(timing.delay), SetReplies(0)] + [];
    RunTwo(taken, Wait(timing.delay), SetReplies(0), [], timing);
  }

  lemma SecondTakes(t: int, due: int, out: seq<Renewal>, expires: int, timing: Timing)
    requires expires <= t
    ensures var w := Run(Stalled(t, due, out, expires), TAKEOVER, timing); Held(w, 0) && Held(w, 1)
  {
    var w := Stalled(t, due, out, expires);
    var asked := w.(phases := [Holding(due, out), Asking(t, Travelling)]);
    var taken := asked.(phases := [Holding(due, out), Asking(t, Taken)], key := Some(Key(1, t + timing.ttl)));
    assert Next(w, Ask(1), timing) == asked;
    assert Next(asked, SetArrives(1), timing) == taken;
    var both := Next(taken, SetReplies(1), timing);
    assert both.phases == [Holding(due, out), Holding(t + timing.period, [])];
    hide Next;
    assert TAKEOVER == [Ask(1), SetArrives(1)] + [SetReplies(1)];
    RunTwo(w, Ask(1), SetArrives(1), [SetReplies(1)], timing);
    assert [SetReplies(1)][1..] == [];
  }

  /** The bound is exact: where the interval and two exchanges do not fit into the expiry, some run has two holders at once. */
  lemma TwoHoldersOtherwise(timing: Timing) returns (actions: seq<Action>)
    requires !FitsExpiry(timing) && timing.period > 0 && timing.ttl > 0
    ensures var w := Run(Start(2), actions, timing); Held(w, 0) && Held(w, 1)
  {
    hide *;
    var start := Stalled(timing.delay, timing.delay + timing.period, [], timing.ttl);
    var first := TAKE + [Wait(timing.delay), SetReplies(0)];
    Misfits(timing);
    FirstTakes(timing);
    var later := SecondFollows(timing);
    actions := first + later;
    RunJoins(Start(2), first, later, timing);
  }

  lemma Misfits(timing: Timing)
    requires !FitsExpiry(timing)
    ensures timing.ttl <= timing.period + 2 * timing.delay
  {
  }

  lemma SecondFollows(timing: Timing) returns (later: seq<Action>)
    requires timing.period > 0 && timing.ttl <= timing.period + 2 * timing.delay
    ensures var w := Run(Stalled(timing.delay, timing.delay + timing.period, [], timing.ttl), later, timing); Held(w, 0) && Held(w, 1)
  {
    hide *;
    var t := timing.period + 2 * timing.delay;
    var fire := FireUntil(timing.delay + timing.period, t, timing);
    var due, out := FireReaches(timing.delay, timing.delay + timing.period, [], timing.ttl, t, timing);
    SecondTakes(t, due, out, timing.ttl, timing);
    later := fire + TAKEOVER;
    RunJoins(Stalled(timing.delay, timing.delay + timing.period, [], timing.ttl), fire, TAKEOVER, timing);
  }

  /** What the code's interval makes of that: no expiry of a second or less is ever safe, and the deployed ten seconds bear exchanges of a third. */
  lemma WhichExpiriesFit(ttl: nat, delay: nat)
    ensures ttl <= 1_000 ==> !FitsExpiry(Timing(ttl, Interval(ttl), delay))
    ensures ttl >= 3_000 && 3 * delay <= ttl - 3 ==> FitsExpiry(Timing(ttl, Interval(ttl), delay))
    ensures FitsExpiry(Timing(10_000, Interval(10_000), delay)) <==> delay <= 3_333
  {
  }

  // ---------------------------------------------------------------------
  // Stopping
  // ---------------------------------------------------------------------

  /** Whoever holds the lease after its signal fired had its `SET` under way when it did. */
  ghost predicate AbortedWhileAsking(w: World) {
    forall i: nat | i in w.aborted && i < |w.phases| && (w.phases[i].Holding? || w.phases[i].Asking?) :: w.aborted[i].Asking?
  }

  ghost predicate Active(p: Phase) {
    p.Holding? || p.Asking?
  }

  lemma OthersKeepPhase(w: World, i: nat, action: Action, timing: Timing)
    requires HasPhase(w, i)
    ensures var v := PhaseStep(w, i, action, timing);
            |v.phases| == |w.phases| && (forall j | 0 <= j < |w.phases| && j != i :: v.phases[j] == w.phases[j])
  {
    hide Live, OwnedBy, SetKey, RenewKey, StrayRenewals, Without;
  }

  lemma OwnPhaseAborted(w: World, i: nat, action: Action, timing: Timing)
    requires HasPhase(w, i)
    ensures var v := PhaseStep(w, i, action, timing);
            && i < |v.phases|
            && (i in w.aborted ==> v.aborted == w.aborted && (Active(v.phases[i]) ==> Active(w.phases[i])))
            && (i !in w.aborted ==>
                  || v.aborted == w.aborted
                  || (v.aborted == w.aborted[i := w.phases[i]] && (v.phases[i] == Lost || (v.phases[i] == w.phases[i] && !w.phases[i].Holding?))))
  {
    hide Live, OwnedBy, SetKey, RenewKey, StrayRenewals, Without;
  }

  lemma PhaseStepAborted(w: World, i: nat, action: Action, timing: Timing)
    requires HasPhase(w, i)
    ensures var v := PhaseStep(w, i, action, timing);
            && |v.phases| == |w.phases| && (forall j | 0 <= j < |w.phases| && j != i :: v.phases[j] == w.phases[j])
            && (i in w.aborted ==> v.aborted == w.aborted && (Active(v.phases[i]) ==> Active(w.phases[i])))
            && (i !in w.aborted ==>
                  || v.aborted == w.aborted
                  || (v.aborted == w.aborted[i := w.phases[i]] && (v.phases[i] == Lost || (v.phases[i] == w.phases[i] && !w.phases[i].Holding?))))
  {
    hide PhaseStep;
    OthersKeepPhase(w, i, action, timing);
    OwnPhaseAborted(w, i, action, timing);
  }

  lemma NextAborted(w: World, action: Action, timing: Timing)
    requires AbortedWhileAsking(w)
    ensures AbortedWhileAsking(Next(w, action, timing))
  {
    hide PhaseStep, ClockAllows;
    if !action.Wait? && !action.StrayArrives? && HasPhase(w, action.i) {
      PhaseStepAborted(w, action.i, action, timing);
    }
  }

  lemma {:induction false} RunAborted(w: World, actions: seq<Action>, timing: Timing)
    requires AbortedWhileAsking(w)
    ensures AbortedWhileAsking(Run(w, actions, timing))
    decreases |actions|
  {
    hide Next, AbortedWhileAsking;
    if actions != [] {
      NextAborted(w, actions[0], timing);
      RunAborted(Next(w, actions[0], timing), actions[1..], timing);
    }
  }

  /**
   A stopped instance holds the lease only where the signal fired between its `SET` and
   the answer: in any other phase it never does again.
  */
  lemma HeldAfterAbortOnly(holders: nat, actions: seq<Action>, timing: Timing, i: nat)
    ensures var w := Run(Start(holders), actions, timing);
            Held(w, i) && i in w.aborted ==> w.aborted[i].Asking?
  {
    RunAborted(Start(holders), actions, timing);
    hide Run;
  }

  /** And there it can: the answer to a `SET` under way makes a stopped instance the holder. */
  lemma AbortWhileAskingHolds(timing: Timing)
    requires timing.ttl > 0
    ensures var w := Run(Start(1), [Ask(0), Abort(0), SetArrives(0), SetReplies(0)], timing); Held(w, 0) && 0 in w.aborted
  {
    var idle := Start(1);
    var asked := idle.(phases := [Asking(0, Travelling)]);
    var stopped := asked.(aborted := map[0 := Asking(0, Travelling)]);
    var taken := stopped.(phases := [Asking(0, Taken)], key := Some(Key(0, timing.ttl)));
    assert Next(idle, Ask(0), timing) == asked;
    assert Next(asked, Abort(0), timing) == stopped;
    assert Next(stopped, SetArrives(0), timing) == taken;
    var held := Next(taken, SetReplies(0), timing);
    assert held.phases == [Holding(timing.period, [])] && held.aborted == taken.aborted;
    hide Next;
    assert [Ask(0), Abort(0), SetArrives(0), SetReplies(0)] == [Ask(0), Abort(0)] + [SetArrives(0), SetReplies(0)];
    RunTwo(idle, Ask(0), Abort(0), [SetArrives(0), SetReplies(0)], timing);
    assert [SetArrives(0), SetReplies(0)] == [SetArrives(0), SetReplies(0)] + [];
    RunTwo(stopped, SetArrives(0), SetReplies(0), [], timing);
  }

  lemma Released(w: World, i: nat, timing: Timing)
    requires HasPhase(w, i) && w.phases[i].Holding? && OwnedBy(w.key, w.now, i)
    ensures var freed := Next(Next(w, Release(i), timing), StrayArrives(StrayRelease(i)), timing);
            freed.key.None? && freed.now == w.now && freed.phases == w.phases[i := Lost]
  {
    var given := Next(w, Release(i), timing);
    assert StrayRelease(i) in given.strays;
    hide StrayRenewals;
  }

  lemma FreeIsTaken(w: World, j: nat, timing: Timing)
    requires HasPhase(w, j) && w.phases[j] == Asking(w.now, Travelling) && w.key.None?
    ensures var taken := Next(w, SetArrives(j), timing);
            taken.key == Some(Key(j, w.now + timing.ttl)) && Held(Next(taken, SetReplies(j), timing), j)
  {
    hide RenewStep, RenewReplyStep, Give;
  }

  /** A lease given up is free at once: when the release arrives the key is gone, and any other holder's `SET` takes it. */
  lemma ReleaseFrees(w: World, i: nat, j: nat, timing: Timing)
    requires HasPhase(w, i) && w.phases[i].Holding? && OwnedBy(w.key, w.now, i)
    requires HasPhase(w, j) && i != j && w.phases[j] == Asking(w.now, Travelling)
    ensures var freed := Next(Next(w, Release(i), timing), StrayArrives(StrayRelease(i)), timing);
            && freed.key.None? && freed.phases[i] == Lost
            && Next(freed, SetArrives(j), timing).key == Some(Key(j, w.now + timing.ttl))
            && Held(Next(Next(freed, SetArrives(j), timing), SetReplies(j), timing), j)
  {
    hide Next;
    Released(w, i, timing);
    FreeIsTaken(Next(Next(w, Release(i), timing), StrayArrives(StrayRelease(i)), timing), j, timing);
  }
}

/**
 Sequenced events and how a client follows them: packages/realtime/src/envelope.ts
 and packages/realtime/src/receiver.ts.
 */
module Realtime {
  import opened Wrappers

  const PROTOCOL_VERSION: int := 1

  type Channel = string

  datatype Envelope<+P> = Envelope(
    event: string, version: int, sequence: int, emittedAt: int, channel: Channel, payload: P)

  // ---------------------------------------------------------------------
  // Numbering
  // ---------------------------------------------------------------------

  /** The next number of each channel that has one. */
  type Sequencer = map<Channel, nat>

  function NextNumber(s: Sequencer, channel: Channel): nat {
    if channel in s then s[channel] else 0
  }

  function Emit<P>(s: Sequencer, event: string, channel: Channel, at: int, payload: P): (Sequencer, Envelope<P>) {
    var sequence := NextNumber(s, channel);
    (s[channel := sequence + 1], Envelope(event, PROTOCOL_VERSION, sequence, at, channel, payload))
  }

  /** Records a number another publisher gave out; never moves a channel backwards. */
  function NoteSequence(s: Sequencer, channel: Channel, sequence: int): Sequencer {
    if sequence + 1 > NextNumber(s, channel) then s[channel := sequence + 1] else s
  }

  /** The last number given out, `-1` before the first. */
  function CurrentSequence(s: Sequencer, channel: Channel): int {
    NextNumber(s, channel) - 1
  }

  ghost function NotedAll(s: Sequencer, channel: Channel, heard: seq<nat>): Sequencer
    decreases |heard|
  {
    if heard == [] then s else NotedAll(NoteSequence(s, channel, heard[0]), channel, heard[1..])
  }

  lemma {:induction false} NotedAllIsMax(s: Sequencer, channel: Channel, heard: seq<nat>)
    ensures NextNumber(NotedAll(s, channel, heard), channel) >= NextNumber(s, channel)
    ensures forall n | n in heard :: n < NextNumber(NotedAll(s, channel, heard), channel)
    ensures NextNumber(NotedAll(s, channel, heard), channel) == NextNumber(s, channel)
            || exists n | n in heard :: NextNumber(NotedAll(s, channel, heard), channel) == n + 1
    decreases |heard|
  {
    if heard != [] {
      assert heard == [heard[0]] + heard[1..];
      var noted := NoteSequence(s, channel, heard[0]);
      NotedAllIsMax(noted, channel, heard[1..]);
      var next := NextNumber(NotedAll(noted, channel, heard[1..]), channel);
      assert heard[0] in heard && heard[0] < next;
      if next == NextNumber(noted, channel) {
        assert next == NextNumber(s, channel) || next == heard[0] + 1;
      } else {
        var n :| n in heard[1..] && next == n + 1;
        assert n in heard;
      }
    }
  }

  /**
   An instance that takes over publishing goes on exactly where `count` events
   left off if and only if it heard the last of them, whatever order, repeats or
   losses it heard the others in. Otherwise it gives out a number again.
   */
  lemma TakeoverContinuesIff(channel: Channel, heard: seq<nat>, count: nat)
    requires count > 0 && forall n | n in heard :: n < count
    ensures NextNumber(NotedAll(map[], channel, heard), channel) == count <==> count - 1 in heard
    ensures NextNumber(NotedAll(map[], channel, heard), channel) <= count
  {
    NotedAllIsMax(map[], channel, heard);
  }

  // ---------------------------------------------------------------------
  // Receiving
  // ---------------------------------------------------------------------

  datatype Receiver = Receiver(lastSequence: map<Channel, nat>, awaitingSnapshot: seq<Channel>)

  const EMPTY_RECEIVER := Receiver(map[], [])

  datatype Outcome =
    | Apply
    | Duplicate(seen: nat)
    | Gap(expected: nat, received: nat, missing: int)
    | AwaitingSnapshot
    | Rejected(reason: string)

  function Receive<P>(state: Receiver, e: Envelope<P>): (Receiver, Outcome) {
    if e.version != PROTOCOL_VERSION then (state, Rejected("unsupported protocol version"))
    else if e.sequence < 0 then (state, Rejected("sequence must be a non-negative integer"))
    else if e.channel in state.awaitingSnapshot then (state, AwaitingSnapshot)
    else
      var known := e.channel in state.lastSequence;
      var expected := if known then state.lastSequence[e.channel] + 1 else e.sequence;
      if known && e.sequence <= state.lastSequence[e.channel] then (state, Duplicate(state.lastSequence[e.channel]))
      else if e.sequence != expected then
        (state.(awaitingSnapshot := state.awaitingSnapshot + [e.channel]),
         Gap(expected, e.sequence, e.sequence - expected))
      else (state.(lastSequence := state.lastSequence[e.channel := e.sequence]), Apply)
  }

  function Others(waiting: seq<Channel>, channel: Channel): seq<Channel> {
    if waiting == [] then []
    else (if waiting[0] == channel then [] else [waiting[0]]) + Others(waiting[1..], channel)
  }

  function ApplySnapshot(state: Receiver, channel: Channel, sequence: int): Result<Receiver, string> {
    if sequence < 0 then Err("Snapshot sequence must be a non-negative integer")
    else Ok(Receiver(state.lastSequence[channel := sequence], Others(state.awaitingSnapshot, channel)))
  }

  lemma {:induction false} OthersHold(waiting: seq<Channel>, channel: Channel, x: Channel)
    ensures x in Others(waiting, channel) <==> x in waiting && x != channel
  {
    if waiting != [] {
      OthersHold(waiting[1..], channel, x);
    }
  }

  /** A snapshot of a channel names a sequence the client accepts exactly when something was published on it. */
  lemma SnapshotAcceptedIff(state: Receiver, s: Sequencer, channel: Channel)
    ensures ApplySnapshot(state, channel, CurrentSequence(s, channel)).Ok? <==> NextNumber(s, channel) > 0
  {
  }

  // ---------------------------------------------------------------------
  // A client behind a network that loses, repeats and reorders
  // ---------------------------------------------------------------------

  /** How an event changes what a client shows, and what it shows before any. */
  datatype Show<!P, !V> = Show(step: (V, P) -> V, start: V) {
    ghost function After(events: seq<P>, n: nat): V
      requires n <= |events|
    {
      if n == 0 then start else step(After(events, n - 1), events[n - 1])
    }

    lemma {:induction false} AfterPrefix(events: seq<P>, more: seq<P>, n: nat)
      requires n <= |events|
      ensures After(events + more, n) == After(events, n)
      decreases n
    {
      if n > 0 {
        AfterPrefix(events, more, n - 1);
      }
    }
  }

  /** What one channel has published: its events in order, which fixes the numbers they carry. */
  type History<P> = map<Channel, seq<P>>

  ghost function Published<P>(history: History<P>, channel: Channel): seq<P> {
    if channel in history then history[channel] else []
  }

  /**
   The server's sequencer and history, every envelope and snapshot it ever let
   out, and a client: its receiver, what it shows, and the numbers it applied
   since the last snapshot of each channel.
   */
  datatype World<P(==), V(==)> = World(
    sequencer: Sequencer,
    history: History<P>,
    sent: set<Envelope<P>>,
    snapshots: set<(Channel, int, V)>,
    receiver: Receiver,
    view: map<Channel, V>,
    applied: map<Channel, seq<nat>>)

  datatype Action<P(==), V(==)> =
    | Announce(event: string, channel: Channel, at: int, payload: P)
    /** The network hands over anything ever sent, again or not at all, in any order. */
    | Deliver(envelope: Envelope<P>)
    /** Something that is not one of this server's envelopes. */
    | Junk(garbage: Envelope<P>)
    | TakeSnapshot(of: Channel)
    /** Any snapshot ever taken may arrive, however late. */
    | Resync(snapshot: (Channel, int, V))

  ghost predicate Enabled<P, V>(w: World<P, V>, a: Action<P, V>) {
    match a
    case Announce(_, _, _, _) => true
    case Deliver(e) => e in w.sent
    case Junk(e) => e.version != PROTOCOL_VERSION || e.sequence < 0
    case TakeSnapshot(_) => true
    case Resync(s) => s in w.snapshots
  }

  ghost function Do<P, V>(show: Show<P, V>, w: World<P, V>, a: Action<P, V>): World<P, V> {
    match a
    case Announce(event, channel, at, payload) =>
      var (sequencer, envelope) := Emit(w.sequencer, event, channel, at, payload);
      w.(sequencer := sequencer,
         history := w.history[channel := Published(w.history, channel) + [payload]],
         sent := w.sent + {envelope})
    case Deliver(e) => Accept(show, w, e)
    case Junk(e) => Accept(show, w, e)
    case TakeSnapshot(channel) =>
      var events := Published(w.history, channel);
      w.(snapshots := w.snapshots + {(channel, CurrentSequence(w.sequencer, channel), show.After(events, |events|))})
    case Resync(s) =>
      match ApplySnapshot(w.receiver, s.0, s.1)
      case Err(_) => w
      case Ok(receiver) =>
        w.(receiver := receiver, view := w.view[s.0 := s.2], applied := w.applied[s.0 := []])
  }

  ghost function Accept<P, V>(show: Show<P, V>, w: World<P, V>, e: Envelope<P>): World<P, V> {
    var (receiver, outcome) := Receive(w.receiver, e);
    if outcome.Apply? then
      var before := if e.channel in w.view then w.view[e.channel] else show.start;
      var since := if e.channel in w.applied then w.applied[e.channel] else [];
      w.(receiver := receiver,
         view := w.view[e.channel := show.step(before, e.payload)],
         applied := w.applied[e.channel := since + [if e.sequence >= 0 then e.sequence else 0]])
    else w.(receiver := receiver)
  }

  /** Every envelope out there is the event its number says, and every number below the next was given out. */
  ghost predicate ServerTrue<P, V>(show: Show<P, V>, w: World<P, V>) {
    && (forall c: Channel :: NextNumber(w.sequencer, c) == |Published(w.history, c)|)
    && (forall e | e in w.sent ::
          && e.version == PROTOCOL_VERSION
          && 0 <= e.sequence < |Published(w.history, e.channel)|
          && e.payload == Published(w.history, e.channel)[e.sequence])
    && (forall s | s in w.snapshots ::
          && -1 <= s.1 < |Published(w.history, s.0)|
          && s.2 == show.After(Published(w.history, s.0), s.1 + 1))
  }

  /** Numbers in a row, ending at `last`. */
  ghost predicate Consecutive(ns: seq<nat>, last: nat) {
    |ns| <= last + 1 && forall i | 0 <= i < |ns| :: ns[i] == last + 1 - |ns| + i
  }

  /** The channel has been given a snapshot. */
  ghost predicate Synced<P, V>(w: World<P, V>, snapped: set<Channel>) {
    forall c | c in snapped :: c in w.receiver.lastSequence && c in w.view && c in w.applied
  }

  /** On a channel that had its first snapshot, the client shows exactly the server's state after its last number. */
  ghost predicate ClientTrue<P, V>(show: Show<P, V>, w: World<P, V>, snapped: set<Channel>) {
    && Synced(w, snapped)
    && (forall c | c in snapped ::
          var last := w.receiver.lastSequence[c];
          && last < |Published(w.history, c)|
          && w.view[c] == show.After(Published(w.history, c), last + 1)
          && Consecutive(w.applied[c], last))
  }

  ghost function StartWorld<P, V>(): World<P, V> {
    World(map[], map[], {}, {}, EMPTY_RECEIVER, map[], map[])
  }

  /** The world after a run, and the channels that have had a snapshot applied. */
  ghost function Run<P, V>(show: Show<P, V>, actions: seq<Action<P, V>>): (World<P, V>, set<Channel>)
    decreases |actions|
  {
    if actions == [] then (StartWorld(), {})
    else
      var before := Run(show, actions[..|actions| - 1]);
      var a := actions[|actions| - 1];
      (Do(show, before.0, a), SnappedBy(a, before.1))
  }

  ghost predicate IsRun<P, V>(show: Show<P, V>, actions: seq<Action<P, V>>) {
    forall i | 0 <= i < |actions| :: Enabled(Run(show, actions[..i]).0, actions[i])
  }

  // ---------------------------------------------------------------------
  // Every step keeps it
  // ---------------------------------------------------------------------

  lemma ShowGrows<P, V>(show: Show<P, V>, history: History<P>, channel: Channel, payload: P, c: Channel, n: nat)
    requires n <= |Published(history, c)|
    ensures var grown := history[channel := Published(history, channel) + [payload]];
            && n <= |Published(grown, c)|
            && show.After(Published(grown, c), n) == show.After(Published(history, c), n)
  {
    if c == channel {
      show.AfterPrefix(Published(history, c), [payload], n);
    }
  }

  lemma AnnounceKeepsServer<P, V>(show: Show<P, V>, w: World<P, V>, a: Action<P, V>)
    requires ServerTrue(show, w) && a.Announce?
    ensures ServerTrue(show, Do(show, w, a))
  {
    var after := Do(show, w, a);
    forall c: Channel
      ensures NextNumber(after.sequencer, c) == |Published(after.history, c)|
    {
      assert NextNumber(w.sequencer, c) == |Published(w.history, c)|;
    }
    forall s | s in w.snapshots
      ensures -1 <= s.1 < |Published(after.history, s.0)|
      ensures s.2 == show.After(Published(after.history, s.0), s.1 + 1)
    {
      ShowGrows(show, w.history, a.channel, a.payload, s.0, s.1 + 1);
    }
  }

  lemma AnnounceKeepsClient<P, V>(show: Show<P, V>, w: World<P, V>, a: Action<P, V>, snapped: set<Channel>)
    requires ClientTrue(show, w, snapped) && a.Announce?
    ensures ClientTrue(show, Do(show, w, a), snapped)
  {
    var after := Do(show, w, a);
    forall c | c in snapped
      ensures w.receiver.lastSequence[c] < |Published(after.history, c)|
      ensures w.view[c] == show.After(Published(after.history, c), w.receiver.lastSequence[c] + 1)
    {
      ShowGrows(show, w.history, a.channel, a.payload, c, w.receiver.lastSequence[c] + 1);
    }
  }

  /** Only the event right after the last number is ever applied. */
  lemma DeliverKeepsClient<P, V>(show: Show<P, V>, w: World<P, V>, e: Envelope<P>, snapped: set<Channel>)
    requires ServerTrue(show, w) && ClientTrue(show, w, snapped)
    requires e in w.sent || e.version != PROTOCOL_VERSION || e.sequence < 0
    ensures ClientTrue(show, Accept(show, w, e), snapped)
    ensures ServerTrue(show, Accept(show, w, e))
  {
    var (receiver, outcome) := Receive(w.receiver, e);
    if outcome.Apply? && e.channel in snapped {
      var last := w.receiver.lastSequence[e.channel];
      assert e.sequence == last + 1;
      var events := Published(w.history, e.channel);
      assert show.After(events, last + 2) == show.step(show.After(events, last + 1), events[last + 1]);
    }
  }

  lemma ResyncKeepsClient<P, V>(show: Show<P, V>, w: World<P, V>, a: Action<P, V>, snapped: set<Channel>)
    requires ServerTrue(show, w) && ClientTrue(show, w, snapped) && a.Resync? && Enabled(w, a)
    ensures ServerTrue(show, Do(show, w, a))
    ensures ClientTrue(show, Do(show, w, a), SnappedBy(a, snapped))
  {
    hide Others;
  }

  lemma TakeSnapshotKeeps<P, V>(show: Show<P, V>, w: World<P, V>, a: Action<P, V>, snapped: set<Channel>)
    requires ServerTrue(show, w) && ClientTrue(show, w, snapped) && a.TakeSnapshot?
    ensures ServerTrue(show, Do(show, w, a)) && ClientTrue(show, Do(show, w, a), snapped)
  {
  }

  /** What a step does to the channels that have had a snapshot. */
  ghost function SnappedBy<P, V>(a: Action<P, V>, snapped: set<Channel>): set<Channel> {
    if a.Resync? && a.snapshot.1 >= 0 then snapped + {a.snapshot.0} else snapped
  }

  lemma StepKeeps<P, V>(show: Show<P, V>, w: World<P, V>, a: Action<P, V>, snapped: set<Channel>)
    requires ServerTrue(show, w) && ClientTrue(show, w, snapped) && Enabled(w, a)
    ensures ServerTrue(show, Do(show, w, a)) && ClientTrue(show, Do(show, w, a), SnappedBy(a, snapped))
  {
    hide ServerTrue, ClientTrue, Accept;
    match a {
      case Announce(_, _, _, _) =>
        AnnounceKeepsServer(show, w, a);
        AnnounceKeepsClient(show, w, a, snapped);
      case Deliver(e) => DeliverKeepsClient(show, w, e, snapped);
      case Junk(e) => DeliverKeepsClient(show, w, e, snapped);
      case TakeSnapshot(_) => TakeSnapshotKeeps(show, w, a, snapped);
      case Resync(_) => ResyncKeepsClient(show, w, a, snapped);
    }
  }

  lemma RunPrefix<P, V>(show: Show<P, V>, actions: seq<Action<P, V>>)
    requires IsRun(show, actions) && actions != []
    ensures IsRun(show, actions[..|actions| - 1])
    ensures Enabled(Run(show, actions[..|actions| - 1]).0, actions[|actions| - 1])
  {
    var before := actions[..|actions| - 1];
    hide Enabled, Run;
    forall i | 0 <= i < |before|
      ensures Enabled(Run(show, before[..i]).0, before[i])
    {
      assert before[..i] == actions[..i];
    }
  }

  /**
   Over every run, under any loss, repetition and reordering: on a channel that
   had its first snapshot the client always shows the server's state after the
   number it holds, and what it applied since its last snapshot is consecutive.
   */
  lemma {:induction false} ClientIsNeverWrong<P, V>(show: Show<P, V>, actions: seq<Action<P, V>>)
    requires IsRun(show, actions)
    ensures ServerTrue(show, Run(show, actions).0)
    ensures ClientTrue(show, Run(show, actions).0, Run(show, actions).1)
    decreases |actions|
  {
    hide IsRun, ServerTrue, ClientTrue, Do, Enabled;
    if actions == [] {
      StartIsTrue(show);
    } else {
      RunPrefix(show, actions);
      var before := Run(show, actions[..|actions| - 1]);
      ClientIsNeverWrong(show, actions[..|actions| - 1]);
      StepKeeps(show, before.0, actions[|actions| - 1], before.1);
    }
  }

  lemma StartIsTrue<P, V>(show: Show<P, V>)
    ensures ServerTrue(show, StartWorld()) && ClientTrue(show, StartWorld(), {})
  {
  }

  // ---------------------------------------------------------------------
  // Nothing is held up
  // ---------------------------------------------------------------------

  /** What becomes of an envelope, exactly: applied when it is the next of its channel or the first heard on it. */
  lemma ReceiveIff<P>(state: Receiver, e: Envelope<P>)
    ensures var (after, outcome) := Receive(state, e);
            var readable := e.version == PROTOCOL_VERSION && e.sequence >= 0;
            var waits, known := e.channel in state.awaitingSnapshot, e.channel in state.lastSequence;
            && (outcome.Rejected? <==> !readable)
            && (outcome.AwaitingSnapshot? <==> readable && waits)
            && (outcome.Apply? <==> readable && !waits && (known ==> e.sequence == state.lastSequence[e.channel] + 1))
            && (outcome.Duplicate? <==> readable && !waits && known && e.sequence <= state.lastSequence[e.channel])
            && (outcome.Gap? <==> readable && !waits && known && e.sequence > state.lastSequence[e.channel] + 1)
            && (outcome.Apply? ==> after == state.(lastSequence := state.lastSequence[e.channel := e.sequence]))
            && (outcome.Gap? ==>
                  && e.channel in after.awaitingSnapshot && after.lastSequence == state.lastSequence
                  && outcome.missing == e.sequence - state.lastSequence[e.channel] - 1 > 0)
            && (!outcome.Apply? && !outcome.Gap? ==> after == state)
  {
  }

  /** A snapshot ends its channel's wait and no other, and the event after it is applied. */
  lemma SnapshotEndsWait<P>(state: Receiver, channel: Channel, sequence: nat, e: Envelope<P>, other: Channel)
    requires e.version == PROTOCOL_VERSION && e.channel == channel && e.sequence == sequence + 1 && other != channel
    ensures var r := ApplySnapshot(state, channel, sequence);
            && r.Ok? && channel !in r.value.awaitingSnapshot && Receive(r.value, e).1.Apply?
            && (other in r.value.awaitingSnapshot <==> other in state.awaitingSnapshot)
            && (other in r.value.lastSequence <==> other in state.lastSequence)
            && (other in state.lastSequence ==> r.value.lastSequence[other] == state.lastSequence[other])
  {
    OthersHold(state.awaitingSnapshot, channel, channel);
    OthersHold(state.awaitingSnapshot, channel, other);
  }

  /** The client has everything the channel published, and waits for nothing on it. */
  ghost predicate InStep<P, V>(show: Show<P, V>, w: World<P, V>, c: Channel) {
    var events := Published(w.history, c);
    && c !in w.receiver.awaitingSnapshot && c in w.receiver.lastSequence && w.receiver.lastSequence[c] == |events| - 1
    && c in w.view && w.view[c] == show.After(events, |events|)
  }

  /** Whatever came before, a snapshot taken now brings the client into step, if anything was published at all. */
  lemma SnapshotCatchesUp<P, V>(show: Show<P, V>, w: World<P, V>, c: Channel)
    requires ServerTrue(show, w) && Published(w.history, c) != []
    ensures var events := Published(w.history, c);
            var snapshot := (c, |events| - 1, show.After(events, |events|));
            var taken := Do(show, w, TakeSnapshot(c));
            Enabled(taken, Resync(snapshot)) && InStep(show, Do(show, taken, Resync(snapshot)), c)
  {
    OthersHold(w.receiver.awaitingSnapshot, c, c);
    assert NextNumber(w.sequencer, c) == |Published(w.history, c)|;
  }

  /** A client in step stays in step with every event that is announced and delivered. */
  lemma DeliveryKeepsStep<P, V>(show: Show<P, V>, w: World<P, V>, c: Channel, event: string, at: int, payload: P)
    requires ServerTrue(show, w) && InStep(show, w, c)
    ensures var announced := Do(show, w, Announce(event, c, at, payload));
            var e := Envelope(event, PROTOCOL_VERSION, |Published(w.history, c)|, at, c, payload);
            Enabled(announced, Deliver(e)) && InStep(show, Do(show, announced, Deliver(e)), c)
  {
    var events := Published(w.history, c);
    assert NextNumber(w.sequencer, c) == |events|;
    show.AfterPrefix(events, [payload], |events|);
  }
}

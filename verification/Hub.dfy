/**
 Who listens to what, and who may: packages/realtime/src/hub.ts, with
 `maySubscribe` of packages/realtime/src/envelope.ts.
 */
module Hub {
  import opened Realtime
  import opened Wrappers

  type Wallet = string

  type ConnectionId = string

  const WALLET_PREFIX := "wallet:"

  function WalletChannel(wallet: Wallet): Channel {
    WALLET_PREFIX + wallet
  }

  predicate IsPrivate(channel: Channel) {
    WALLET_PREFIX <= channel
  }

  predicate MaySubscribe(channel: Channel, wallet: Option<Wallet>) {
    if !IsPrivate(channel) then true
    else wallet.Some? && channel == WalletChannel(wallet.value)
  }

  datatype Connection = Connection(wallet: Option<Wallet>, channels: seq<Channel>)

  datatype HubState = HubState(connections: map<ConnectionId, Connection>, sequencer: Sequencer)

  const EMPTY_HUB := HubState(map[], map[])

  function Connect(h: HubState, id: ConnectionId, wallet: Option<Wallet>): HubState {
    h.(connections := h.connections[id := Connection(wallet, [])])
  }

  function Permitted(channels: seq<Channel>, wallet: Option<Wallet>): seq<Channel> {
    if channels == [] then []
    else (if MaySubscribe(channels[0], wallet) then [channels[0]] else []) + Permitted(channels[1..], wallet)
  }

  function Identify(h: HubState, id: ConnectionId, wallet: Option<Wallet>): HubState {
    if id !in h.connections then h
    else h.(connections := h.connections[id := Connection(wallet, Permitted(h.connections[id].channels, wallet))])
  }

  function Disconnect(h: HubState, id: ConnectionId): HubState {
    h.(connections := h.connections - {id})
  }

  datatype SubscribeOutcome = Subscribed | AlreadySubscribed | Denied | UnknownConnection

  function Subscribe(h: HubState, id: ConnectionId, channel: Channel): (HubState, SubscribeOutcome) {
    if id !in h.connections then (h, UnknownConnection)
    else
      var c := h.connections[id];
      if !MaySubscribe(channel, c.wallet) then (h, Denied)
      else if channel in c.channels then (h, AlreadySubscribed)
      else (h.(connections := h.connections[id := c.(channels := c.channels + [channel])]), Subscribed)
  }

  function Unsubscribe(h: HubState, id: ConnectionId, channel: Channel): HubState {
    if id !in h.connections then h
    else
      var c := h.connections[id];
      h.(connections := h.connections[id := c.(channels := Others(c.channels, channel))])
  }

  function RecipientsOf(h: HubState, channel: Channel): set<ConnectionId> {
    set id | id in h.connections && channel in h.connections[id].channels
  }

  function Publish<P>(h: HubState, event: string, channel: Channel, at: int, payload: P)
    : (HubState, Envelope<P>, set<ConnectionId>)
  {
    var (sequencer, envelope) := Emit(h.sequencer, event, channel, at, payload);
    (h.(sequencer := sequencer), envelope, RecipientsOf(h, channel))
  }

  function Note(h: HubState, channel: Channel, sequence: int): HubState {
    h.(sequencer := NoteSequence(h.sequencer, channel, sequence))
  }

  // ---------------------------------------------------------------------
  // What every reducer keeps
  // ---------------------------------------------------------------------

  ghost predicate NoRepeats(channels: seq<Channel>) {
    forall i, j | 0 <= i < j < |channels| :: channels[i] != channels[j]
  }

  /** No connection follows a channel twice, nor a private one it has not proven. */
  ghost predicate Guarded(h: HubState) {
    forall id | id in h.connections ::
      && NoRepeats(h.connections[id].channels)
      && forall c | c in h.connections[id].channels :: MaySubscribe(c, h.connections[id].wallet)
  }

  lemma {:induction false} PermittedHolds(channels: seq<Channel>, wallet: Option<Wallet>, c: Channel)
    ensures c in Permitted(channels, wallet) <==> c in channels && MaySubscribe(c, wallet)
    ensures NoRepeats(channels) ==> NoRepeats(Permitted(channels, wallet))
    ensures |Permitted(channels, wallet)| <= |channels|
  {
    if channels != [] {
      PermittedHolds(channels[1..], wallet, c);
      PermittedHolds(channels[1..], wallet, channels[0]);
    }
  }

  lemma {:induction false} OthersShrink(channels: seq<Channel>, channel: Channel)
    ensures NoRepeats(channels) ==> NoRepeats(Others(channels, channel))
    ensures |Others(channels, channel)| <= |channels|
  {
    if channels != [] {
      OthersShrink(channels[1..], channel);
      OthersHold(channels[1..], channel, channels[0]);
    }
  }

  lemma IdentifyKeeps(h: HubState, id: ConnectionId, wallet: Option<Wallet>)
    requires Guarded(h)
    ensures Guarded(Identify(h, id, wallet))
  {
    if id in h.connections {
      var channels := h.connections[id].channels;
      forall c
        ensures c in Permitted(channels, wallet) ==> MaySubscribe(c, wallet)
        ensures NoRepeats(Permitted(channels, wallet))
      {
        PermittedHolds(channels, wallet, c);
      }
    }
  }

  lemma UnsubscribeKeeps(h: HubState, id: ConnectionId, channel: Channel)
    requires Guarded(h)
    ensures Guarded(Unsubscribe(h, id, channel))
  {
    if id in h.connections {
      var channels := h.connections[id].channels;
      OthersShrink(channels, channel);
      forall c
        ensures c in Others(channels, channel) ==> c in channels
      {
        OthersHold(channels, channel, c);
      }
    }
  }

  lemma SubscribeKeeps(h: HubState, id: ConnectionId, channel: Channel)
    requires Guarded(h)
    ensures Guarded(Subscribe(h, id, channel).0)
  {
  }

  /** A private event reaches only connections whose proven wallet owns it. */
  lemma PrivateStaysPrivate(h: HubState, channel: Channel, id: ConnectionId)
    requires Guarded(h) && IsPrivate(channel) && id in RecipientsOf(h, channel)
    ensures h.connections[id].wallet.Some? && channel == WalletChannel(h.connections[id].wallet.value)
  {
  }

  // ---------------------------------------------------------------------
  // Who is reached
  // ---------------------------------------------------------------------

  datatype Change =
    | Arrives(id: ConnectionId, wallet: Option<Wallet>)
    | Proves(id: ConnectionId, wallet: Option<Wallet>)
    | Leaves(id: ConnectionId)
    | Follows(id: ConnectionId, channel: Channel)
    | Unfollows(id: ConnectionId, channel: Channel)
    | Publishes(event: string, channel: Channel, at: int)
    | Hears(channel: Channel, sequence: int)

  function Changed(h: HubState, c: Change): HubState {
    match c
    case Arrives(id, wallet) => Connect(h, id, wallet)
    case Proves(id, wallet) => Identify(h, id, wallet)
    case Leaves(id) => Disconnect(h, id)
    case Follows(id, channel) => Subscribe(h, id, channel).0
    case Unfollows(id, channel) => Unsubscribe(h, id, channel)
    case Publishes(event, channel, at) => Publish(h, event, channel, at, ()).0
    case Hears(channel, sequence) => Note(h, channel, sequence)
  }

  function ChangedBy(h: HubState, changes: seq<Change>): HubState
    decreases |changes|
  {
    if changes == [] then h else ChangedBy(Changed(h, changes[0]), changes[1..])
  }

  /** Everyone may hear a channel that is no wallet's, and a wallet's own only who has proven it. */
  ghost predicate MayHear(channel: Channel, wallet: Option<Wallet>) {
    (exists w: Wallet :: channel == "wallet:" + w) ==> wallet.Some? && channel == "wallet:" + wallet.value
  }

  lemma MayHearIs(channel: Channel, wallet: Option<Wallet>)
    ensures MaySubscribe(channel, wallet) <==> MayHear(channel, wallet)
  {
    if IsPrivate(channel) {
      assert channel == "wallet:" + channel[7..];
    }
  }

  /** The change ends the connection's following of the channel. */
  ghost predicate Ends(c: Change, id: ConnectionId, channel: Channel) {
    match c
    case Arrives(x, _) => x == id
    case Leaves(x) => x == id
    case Proves(x, wallet) => x == id && !MayHear(channel, wallet)
    case Unfollows(x, of) => x == id && of == channel
    case _ => false
  }

  /** Who an event reaches after a change: whoever it reached before and was not ended by it, and whoever now follows and may. */
  lemma ReachedIff(h: HubState, c: Change, id: ConnectionId, channel: Channel)
    ensures id in RecipientsOf(Changed(h, c), channel) <==>
              || (id in RecipientsOf(h, channel) && !Ends(c, id, channel))
              || (c == Follows(id, channel) && id in h.connections && MayHear(channel, h.connections[id].wallet))
  {
    MayHearIs(channel, if id in h.connections then h.connections[id].wallet else None);
    match c
    case Proves(x, wallet) =>
      MayHearIs(channel, wallet);
      if x in h.connections {
        PermittedHolds(h.connections[x].channels, wallet, channel);
      }
    case Unfollows(x, of) =>
      if x in h.connections {
        OthersHold(h.connections[x].channels, of, channel);
      }
    case _ =>
    hide MaySubscribe, MayHear;
  }

  /** Whose wallet a connection speaks for after a change: the one it arrived with or last proved. */
  lemma SpeaksFor(h: HubState, c: Change, id: ConnectionId)
    ensures var after := Changed(h, c).connections;
            && (id in after <==> (id in h.connections && c != Leaves(id)) || (c.Arrives? && c.id == id))
            && (id in after ==>
                  after[id].wallet == if (c.Arrives? || c.Proves?) && c.id == id then c.wallet else h.connections[id].wallet)
            && (c.Arrives? && c.id == id ==> after[id].channels == [])
  {
  }

  /** Once followed, a channel reaches the connection through anything that does not end it. */
  lemma {:induction false} FollowersAreReached(h: HubState, changes: seq<Change>, id: ConnectionId, channel: Channel)
    requires id in RecipientsOf(h, channel)
    requires forall c | c in changes :: !Ends(c, id, channel)
    ensures id in RecipientsOf(ChangedBy(h, changes), channel)
    decreases |changes|
  {
    hide Changed, RecipientsOf, Ends;
    if changes != [] {
      ReachedIff(h, changes[0], id, channel);
      assert forall c | c in changes[1..] :: c in changes;
      FollowersAreReached(Changed(h, changes[0]), changes[1..], id, channel);
    }
  }
}

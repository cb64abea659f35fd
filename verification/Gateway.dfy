/** The gateway, minus the sockets: apps/gateway/src/gateway.ts. */
module GatewayServer {
  import opened Hub
  import opened Realtime
  import opened Wrappers

  const MAX_SUBSCRIPTIONS: nat := 32

  /** A parsed frame from a client, or why it could not be parsed. */
  datatype ClientMessage =
    | BadFrame(error: string)
    | SubscribeTo(channel: Channel)
    | UnsubscribeFrom(channel: Channel)
    | Ping(sentAt: int)

  datatype Frame<+P> =
    | Event(envelope: Envelope<P>)
    | SubscribedFrame(channel: Channel, sequence: int)
    | UnsubscribedFrame(channel: Channel)
    | Pong(sentAt: int, serverTime: int)
    | Authenticated(wallet: Option<Wallet>)
    | Error(code: string)

  /** A hub whose connections are guarded and follow at most the maximum. */
  ghost predicate Sound(h: HubState) {
    Guarded(h) && forall id | id in h.connections :: |h.connections[id].channels| <= MAX_SUBSCRIPTIONS
  }

  /** One copy of a frame for each of `ids`. */
  ghost function Fan<P>(ids: set<ConnectionId>, frame: Frame<P>): multiset<(ConnectionId, Frame<P>)> {
    multiset(set id | id in ids :: (id, frame))
  }

  /** What the gateway answers a message with, and the hub it leaves. */
  ghost function Answer<P>(h: HubState, id: ConnectionId, message: ClientMessage, now: int): (HubState, Frame<P>) {
    match message
    case BadFrame(_) => (h, Error("BAD_FRAME"))
    case Ping(sentAt) => (h, Pong(sentAt, now))
    case UnsubscribeFrom(channel) => (Unsubscribe(h, id, channel), UnsubscribedFrame(channel))
    case SubscribeTo(channel) =>
      var channels := if id in h.connections then h.connections[id].channels else [];
      if channel !in channels && |channels| >= MAX_SUBSCRIPTIONS then (h, Error("TOO_MANY_SUBSCRIPTIONS"))
      else
        var (next, outcome) := Subscribe(h, id, channel);
        (next, match outcome
               case Subscribed => SubscribedFrame(channel, CurrentSequence(next.sequencer, channel))
               case AlreadySubscribed => SubscribedFrame(channel, CurrentSequence(next.sequencer, channel))
               case Denied => Error("FORBIDDEN_CHANNEL")
               case UnknownConnection => Error("UNKNOWN_CONNECTION"))
  }

  lemma AnswerKeepsSound<P>(h: HubState, id: ConnectionId, message: ClientMessage, now: int)
    requires Sound(h)
    ensures Sound(Answer<P>(h, id, message, now).0)
  {
    match message
    case BadFrame(_) =>
    case Ping(_) =>
    case UnsubscribeFrom(channel) =>
      UnsubscribeKeeps(h, id, channel);
      if id in h.connections {
        OthersShrink(h.connections[id].channels, channel);
      }
    case SubscribeTo(channel) =>
      SubscribeKeeps(h, id, channel);
  }

  /**
   A subscription is answered with the number of the last event published, so the next
   one carries the number after it, and then the connection is among those it reaches. It
   is refused to a stranger, past the maximum, and where the channel is not the wallet's.
  */
  lemma SubscriptionIs<P>(h: HubState, id: ConnectionId, channel: Channel, now: int, event: string, at: int, payload: P)
    ensures var (next, frame) := Answer<P>(h, id, SubscribeTo(channel), now);
            var known := id in h.connections;
            var full := known && channel !in h.connections[id].channels && |h.connections[id].channels| >= MAX_SUBSCRIPTIONS;
            && (frame == Error("TOO_MANY_SUBSCRIPTIONS") <==> full)
            && (frame == Error("UNKNOWN_CONNECTION") <==> !known)
            && (frame == Error("FORBIDDEN_CHANNEL") <==> known && !full && !MayHear(channel, h.connections[id].wallet))
            && (frame.SubscribedFrame? <==> known && !full && MayHear(channel, h.connections[id].wallet))
            && (frame.SubscribedFrame? ==>
                  var (_, envelope, reached) := Publish(next, event, channel, at, payload);
                  frame.channel == channel && envelope.sequence == frame.sequence + 1 && id in reached)
            && (!frame.SubscribedFrame? ==> next == h)
  {
    MayHearIs(channel, if id in h.connections then h.connections[id].wallet else None);
    hide MaySubscribe, MayHear;
  }

  class Gateway<P(==)> {
    var hub: HubState
    /** Every frame handed to a socket. */
    ghost var sent: multiset<(ConnectionId, Frame<P>)>

    constructor ()
      ensures hub == EMPTY_HUB && sent == multiset{} && Sound(hub)
    {
      hub := EMPTY_HUB;
      sent := multiset{};
    }

    method Send(id: ConnectionId, frame: Frame<P>)
      modifies `sent
      ensures sent == old(sent) + multiset{(id, frame)}
    {
      sent := sent + multiset{(id, frame)};
    }

    method Open(id: ConnectionId, wallet: Option<Wallet>)
      requires Sound(hub)
      modifies this
      ensures Sound(hub) && hub == Connect(old(hub), id, wallet) && sent == old(sent)
    {
      hub := Connect(hub, id, wallet);
    }

    method Close(id: ConnectionId)
      requires Sound(hub)
      modifies this
      ensures Sound(hub) && hub == Disconnect(old(hub), id) && sent == old(sent)
    {
      hub := Disconnect(hub, id);
    }

    /** A wallet proven or signed out; what it may no longer see is dropped. */
    method Identified(id: ConnectionId, wallet: Option<Wallet>)
      requires Sound(hub)
      modifies this
      ensures Sound(hub) && hub == Identify(old(hub), id, wallet)
      ensures sent == old(sent) + multiset{(id, Authenticated(wallet))}
    {
      IdentifyKeeps(hub, id, wallet);
      if id in hub.connections {
        PermittedHolds(hub.connections[id].channels, wallet, "");
      }
      hub := Identify(hub, id, wallet);
      Send(id, Authenticated(wallet));
    }

    /** Every frame is answered, once, to the connection it came from. */
    method Receive(id: ConnectionId, message: ClientMessage, now: int)
      requires Sound(hub)
      modifies this
      ensures Sound(hub)
      ensures hub == Answer<P>(old(hub), id, message, now).0
      ensures sent == old(sent) + multiset{(id, Answer<P>(old(hub), id, message, now).1)}
    {
      AnswerKeepsSound<P>(hub, id, message, now);
      match message {
        case BadFrame(_) =>
          Send(id, Error("BAD_FRAME"));
        case SubscribeTo(channel) =>
          var channels := if id in hub.connections then hub.connections[id].channels else [];
          if channel !in channels && |channels| >= MAX_SUBSCRIPTIONS {
            Send(id, Error("TOO_MANY_SUBSCRIPTIONS"));
            return;
          }
          var result := Subscribe(hub, id, channel);
          hub := result.0;
          match result.1 {
            case Subscribed => Send(id, SubscribedFrame(channel, CurrentSequence(hub.sequencer, channel)));
            case AlreadySubscribed => Send(id, SubscribedFrame(channel, CurrentSequence(hub.sequencer, channel)));
            case Denied => Send(id, Error("FORBIDDEN_CHANNEL"));
            case UnknownConnection => Send(id, Error("UNKNOWN_CONNECTION"));
          }
        case UnsubscribeFrom(channel) =>
          hub := Unsubscribe(hub, id, channel);
          Send(id, UnsubscribedFrame(channel));
        case Ping(sentAt) =>
          Send(id, Pong(sentAt, now));
      }
    }

    method FanOut(ids: set<ConnectionId>, frame: Frame<P>)
      modifies `sent
      ensures sent == old(sent) + Fan(ids, frame)
    {
      var left := ids;
      while left != {}
        invariant left <= ids
        invariant sent == old(sent) + Fan(ids - left, frame)
        decreases left
      {
        var id :| id in left;
        assert ids - (left - {id}) == (ids - left) + {id};
        FanGrows(ids - left, id, frame);
        Send(id, frame);
        left := left - {id};
      }
      assert ids - {} == ids;
    }

    /** Hands on an envelope another publisher numbered, without numbering it again. */
    method Deliver(envelope: Envelope<P>)
      requires Sound(hub)
      modifies this
      ensures Sound(hub) && hub == Note(old(hub), envelope.channel, envelope.sequence)
      ensures sent == old(sent) + Fan(RecipientsOf(hub, envelope.channel), Event(envelope))
      ensures OnlyOwners(hub, envelope.channel, RecipientsOf(hub, envelope.channel))
    {
      hub := Note(hub, envelope.channel, envelope.sequence);
      OwnersOnly(hub, envelope.channel);
      FanOut(RecipientsOf(hub, envelope.channel), Event(envelope));
    }

    /** Numbers an event and sends it once to each connection that follows its channel. */
    method PublishEvent(event: string, channel: Channel, at: int, payload: P)
      requires Sound(hub)
      modifies this
      ensures Sound(hub) && hub == Publish(old(hub), event, channel, at, payload).0
      ensures sent == old(sent) + Fan(RecipientsOf(hub, channel), Event(Publish(old(hub), event, channel, at, payload).1))
      ensures OnlyOwners(hub, channel, RecipientsOf(hub, channel))
    {
      var delivery := Publish(hub, event, channel, at, payload);
      hub := delivery.0;
      OwnersOnly(hub, channel);
      FanOut(delivery.2, Event(delivery.1));
    }
  }

  lemma FanGrows<P>(ids: set<ConnectionId>, id: ConnectionId, frame: Frame<P>)
    requires id !in ids
    ensures Fan(ids + {id}, frame) == Fan(ids, frame) + multiset{(id, frame)}
  {
    var a := set x | x in ids :: (x, frame);
    var b := set x | x in ids + {id} :: (x, frame);
    assert b == a + {(id, frame)};
    assert (id, frame) !in a;
  }

  /** A private channel's recipients have all proven the wallet it belongs to. */
  ghost predicate OnlyOwners(h: HubState, channel: Channel, ids: set<ConnectionId>) {
    IsPrivate(channel) ==> forall id | id in ids ::
      id in h.connections && h.connections[id].wallet.Some? && channel == WalletChannel(h.connections[id].wallet.value)
  }

  lemma OwnersOnly(h: HubState, channel: Channel)
    requires Sound(h)
    ensures OnlyOwners(h, channel, RecipientsOf(h, channel))
  {
    if IsPrivate(channel) {
      forall id | id in RecipientsOf(h, channel)
        ensures h.connections[id].wallet.Some? && channel == WalletChannel(h.connections[id].wallet.value)
      {
        PrivateStaysPrivate(h, channel, id);
      }
    }
  }
}

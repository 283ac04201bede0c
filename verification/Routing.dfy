/** How protocol messages travel: every outgoing message is wrapped, flooded on gossip, and filtered and
    relabelled by each receiver; and the direct channels of the mock coordinator, which say what should arrive. */
module Routing {
  import opened Basics

  datatype Protocol = AuxProtocol | KeygenProtocol | SigningProtocol

  type Payload = Bytes

  datatype Destination = AllParties | OneParty(index: u16)
  datatype Outgoing = Outgoing(recipient: Destination, msg: Payload)

  datatype MessageType = Broadcast | P2P
  datatype Incoming = Incoming(id: nat, sender: u16, msgType: MessageType, msg: Payload)

  /** The wire format, with the topic it is published on. */
  datatype Wire = Wire(protocol: Protocol, from: PeerId, to: Option<u16>, msgType: string, payload: Payload)

  const BROADCAST := "broadcast"
  const POINT_TO_POINT := "p2p"

  /** The wrapping arms of the event loop. */
  function Wrap(me: PeerId, protocol: Protocol, o: Outgoing): Wire {
    match o.recipient
    case AllParties => Wire(protocol, me, None, BROADCAST, o.msg)
    case OneParty(index) => Wire(protocol, me, Some(index), POINT_TO_POINT, o.msg)
  }

  /** The routing arms of the event loop: what node `me` hands to its task, if anything. */
  function Unwrap(me: PeerId, assignments: map<PeerId, u16>, w: Wire): Option<Incoming> {
    if w.to.Some? && (me !in assignments || assignments[me] != w.to.value) then None
    else if w.from !in assignments then None
    else Some(Incoming(0, assignments[w.from], if w.msgType == BROADCAST then Broadcast else P2P, w.payload))
  }

  /** The sink of a mock party: what its messages look like to the others. */
  function Label(sender: u16, o: Outgoing): Incoming {
    Incoming(0, sender, if o.recipient.AllParties? then Broadcast else P2P, o.msg)
  }

  /** Some participant has the party index `i`. */
  predicate IsParty(assignments: map<PeerId, u16>, i: u16) {
    exists q :: q in assignments && assignments[q] == i
  }

  predicate DistinctParties(assignments: map<PeerId, u16>) {
    forall p, q :: p in assignments && q in assignments && assignments[p] == assignments[q] ==> p == q
  }

  // ---------------------------------------------------------------------------
  // The mock coordinator
  // ---------------------------------------------------------------------------

  type Channels = map<u16, seq<Incoming>>

  /** Pushing to every registered channel but the sender's. */
  function PushAll(channels: Channels, from: u16, m: Incoming): Channels {
    map i | i in channels :: if i != from then channels[i] + [m] else channels[i]
  }

  /** Sending as the mock sink does; sending to a party that is not registered panics. */
  function Send(channels: Channels, sender: u16, o: Outgoing): Option<Channels> {
    match o.recipient
    case AllParties => Some(PushAll(channels, sender, Label(sender, o)))
    case OneParty(i) => if i in channels then Some(channels[i := channels[i] + [Label(sender, o)]]) else None
  }

  class NetworkCoordinator {
    var channels: Channels

    constructor ()
      ensures channels == map[]
    {
      channels := map[];
    }

    method RegisterParty(party: u16)
      modifies this
      ensures channels == old(channels)[party := []]
    {
      channels := channels[party := []];
    }

    method BroadcastMessage(from: u16, message: Incoming)
      modifies this
      ensures channels == PushAll(old(channels), from, message)
      ensures channels.Keys == old(channels).Keys
      ensures forall i :: i in channels ==>
                channels[i] == if i == from then old(channels)[i] else old(channels)[i] + [message]
    {
      var rest := channels.Keys;
      while rest != {}
        invariant rest <= channels.Keys == old(channels).Keys
        invariant forall i :: i in channels ==>
                    channels[i] == if i in rest || i == from then old(channels)[i] else old(channels)[i] + [message]
        decreases rest
      {
        var party :| party in rest;
        if party != from {
          channels := channels[party := channels[party] + [message]];
        }
        rest := rest - {party};
      }
    }

    /** False is the error "party not registered". */
    method SendToParty(to: u16, message: Incoming) returns (ok: bool)
      modifies this
      ensures ok <==> to in old(channels)
      ensures channels == if ok then old(channels)[to := old(channels)[to] + [message]] else old(channels)
    {
      if to in channels {
        channels := channels[to := channels[to] + [message]];
        return true;
      }
      return false;
    }

    /** The outgoing sink of party `sender`; false stands for its panic. */
    method Sink(sender: u16, o: Outgoing) returns (ok: bool)
      modifies this
      ensures ok <==> Send(old(channels), sender, o).Some?
      ensures channels == if ok then Send(old(channels), sender, o).value else old(channels)
      ensures ok <==> o.recipient.AllParties? || o.recipient.index in old(channels)
      ensures o.recipient.AllParties? ==>
                && channels.Keys == old(channels).Keys
                && forall i :: i in channels ==>
                     channels[i] == if i == sender then old(channels)[i]
                                    else old(channels)[i] + [Incoming(0, sender, Broadcast, o.msg)]
      ensures o.recipient.OneParty? ==>
                channels == if o.recipient.index in old(channels)
                            then old(channels)[o.recipient.index := old(channels)[o.recipient.index]
                                                                    + [Incoming(0, sender, P2P, o.msg)]]
                            else old(channels)
    {
      match o.recipient {
        case AllParties =>
          BroadcastMessage(sender, Label(sender, o));
          ok := true;
        case OneParty(i) =>
          ok := SendToParty(i, Label(sender, o));
      }
    }
  }

  // ---------------------------------------------------------------------------
  // One message
  // ---------------------------------------------------------------------------

  /** Gossip never gives a node its own message. */
  function Reaches(me: PeerId, assignments: map<PeerId, u16>, w: Wire): Option<Incoming> {
    if w.from == me then None else Unwrap(me, assignments, w)
  }

  /** A point-to-point message reaches exactly the other node with that index, a broadcast every other
      participant, each labelled with the sender's index and the kind of message. */
  lemma RoutedExactly(p: PeerId, q: PeerId, assignments: map<PeerId, u16>, protocol: Protocol, o: Outgoing)
    requires p in assignments && q in assignments && DistinctParties(assignments)
    ensures Reaches(q, assignments, Wrap(p, protocol, o)) ==
              if q != p && (o.recipient.AllParties? || o.recipient.index == assignments[q])
              then Some(Incoming(0, assignments[p], if o.recipient.AllParties? then Broadcast else P2P, o.msg))
              else None
  {
    assert BROADCAST[0] != POINT_TO_POINT[0];
  }

  /** What goes over the wire, and what a receiver makes of any wire: its text "broadcast" and no other means a
      broadcast. */
  lemma WireFormat(p: PeerId, protocol: Protocol, o: Outgoing)
    ensures var w := Wrap(p, protocol, o);
            && w.protocol == protocol && w.from == p && w.payload == o.msg
            && (o.recipient.AllParties? ==> w.to == None && w.msgType == "broadcast")
            && (o.recipient.OneParty? ==> w.to == Some(o.recipient.index) && w.msgType == "p2p")
  {
  }

  lemma ReceivedAs(me: PeerId, assignments: map<PeerId, u16>, w: Wire)
    ensures Unwrap(me, assignments, w) ==
              if w.from in assignments && (w.to.None? || (me in assignments && Some(assignments[me]) == w.to))
              then Some(Incoming(0, assignments[w.from], if w.msgType == "broadcast" then Broadcast else P2P, w.payload))
              else None
  {
  }

  /** Nobody outside the session gets a point-to-point message. */
  lemma OutsidersGetNoPrivateMessage(p: PeerId, q: PeerId, assignments: map<PeerId, u16>, protocol: Protocol,
                                     o: Outgoing)
    requires q !in assignments && o.recipient.OneParty?
    ensures Reaches(q, assignments, Wrap(p, protocol, o)).None?
  {
  }
}

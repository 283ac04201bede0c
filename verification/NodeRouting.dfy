/** Where a protocol message goes that a node's event loop routes: to the running task of its protocol in the current
    orchestrator, if it is for this node and from a participant, and nowhere else. */
module NodeRouting {
  import opened Basics
  import opened Orchestration
  import opened OrchestrationProof
  import opened NodeRuntime
  import opened NodeRuntimeProof
  import opened Routing

  predicate RunsProtocol(job: Job, protocol: Protocol) {
    match protocol
    case AuxProtocol => job.AuxJob?
    case KeygenProtocol => job.KeygenJob?
    case SigningProtocol => job.SigningJob?
  }

  /** Task `i` is running the protocol. */
  predicate Listens(o: Orch, protocol: Protocol, i: nat) {
    i < |o.tasks| && o.tasks[i].pc.Running? && RunsProtocol(o.tasks[i].job, protocol)
  }

  /** The message is from a participant, and for everybody or for this node's index. */
  predicate Addressed(me: PeerId, assignments: map<PeerId, u16>, wire: Wire) {
    wire.from in assignments && (wire.to.None? || (me in assignments && assignments[me] == wire.to.value))
  }

  predicate Deliverable(n: Node, wire: Wire) {
    && n.gens != [] && Addressed(n.me, n.Current().partyAssignments, wire)
    && exists i :: 0 <= i < |n.Current().tasks| && Listens(n.Current(), wire.protocol, i)
  }

  lemma SenderFeeds(o: Orch, protocol: Protocol, i: nat)
    requires Inv(o) && i < |o.tasks| && RunsProtocol(o.tasks[i].job, protocol)
    ensures ChannelFor(o, protocol) == Some(i)
  {
    assert o.tasks[i].ThePhase() == PhaseAt(i);
  }

  lemma FedBySender(o: Orch, protocol: Protocol)
    requires Inv(o) && ChannelFor(o, protocol).Some?
    ensures ChannelFor(o, protocol).value < |o.tasks|
    ensures RunsProtocol(o.tasks[ChannelFor(o, protocol).value].job, protocol)
  {
    var i := ChannelFor(o, protocol).value;
    assert o.tasks[i].ThePhase() == PhaseAt(i);
  }

  lemma RouteDecided(n: Node, wire: Wire)
    requires n.gens != [] ==> Inv(n.Current())
    ensures !Deliverable(n, wire) ==> Route(n, wire) == n
    ensures forall i :: n.gens != [] && Listens(n.Current(), wire.protocol, i) && Deliverable(n, wire) ==>
              Route(n, wire) == n.(routed := n.routed + [
                Routed(|n.gens| - 1, i, Incoming(0, n.Current().partyAssignments[wire.from],
                                                 if wire.msgType == "broadcast" then Broadcast else P2P,
                                                 wire.payload))])
  {
    if n.gens != [] {
      var o := n.Current();
      if ChannelFor(o, wire.protocol).Some? {
        FedBySender(o, wire.protocol);
        var k := ChannelFor(o, wire.protocol).value;
        assert o.tasks[k].pc.Running? ==> Listens(o, wire.protocol, k);
      }
      forall i: nat | Listens(o, wire.protocol, i)
        ensures ChannelFor(o, wire.protocol) == Some(i)
      {
        SenderFeeds(o, wire.protocol, i);
      }
    }
  }

  /** The event loop has the outer lock to route a message. If the message is from a participant, and for everybody or
      for this node's index, and a task `i` of the current orchestrator runs its protocol, exactly that task gets
      it, labelled with the sender's index and the kind of message; otherwise nobody gets anything. Nothing else
      about orchestrators and calls changes. */
  lemma RoutedToItsTask(n: Node)
    requires NodeReachable(n) && n.loop.LoopHas? && n.loop.job.RouteJob?
    ensures NodeEnabled(n, LoopActs)
    ensures var n', wire := NodeApply(n, LoopActs), n.loop.job.wire;
            && n'.gens == n.gens && n'.rpcs == n.rpcs && n'.broadcast == n.broadcast && n'.loop.LoopFree?
            && (!Deliverable(n, wire) ==> n'.routed == n.routed)
            && (forall i :: Deliverable(n, wire) && Listens(n.Current(), wire.protocol, i) ==>
                  n'.routed == n.routed + [
                    Routed(|n.gens| - 1, i, Incoming(0, n.Current().partyAssignments[wire.from],
                                                     if wire.msgType == "broadcast" then Broadcast else P2P,
                                                     wire.payload))])
  {
    NodeReachableInv(n);
    RouteDecided(n, n.loop.job.wire);
  }
}

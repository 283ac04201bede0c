/** The node object of the assignment handshake: the state that event loop and RPC server share, overwritten in
    place. Each method is one handler run from beginning to end; `View` ties it to the functions the N-node
    handshake is built from. */
module NodeObject {
  import opened Basics
  import opened Roster
  import opened Assignment
  import opened PeerHistory
  import opened OrchestratorObject

  class AssignmentNode {
    const id: PeerId
    var peerList: seq<PeerId>
    var peerCount: nat
    var sessions: map<SessionId, SessionInfo>
    var currentSessionId: Option<SessionId>
    var orchestrator: MPCOrchestrator?
    ghost var installed: seq<Install>

    ghost function View(): Local
      reads this
    {
      Local(id, peerList, peerCount, sessions, currentSessionId, None, installed)
    }

    ghost predicate Valid()
      reads this
    {
      SessionsSound(View()) && PeersSound(View())
    }

    constructor (id: PeerId)
      ensures Valid() && View() == NewLocal(id) && orchestrator == null
    {
      this.id := id;
      peerList := [];
      peerCount := 0;
      sessions := map[];
      currentSessionId := None;
      orchestrator := null;
      installed := [];
    }

    /** An identify event. */
    method PeerIdentified(peer: PeerId)
      requires Valid()
      modifies this`peerList, this`peerCount
      ensures Valid() && View() == OnIdentify(old(View()), peer)
      ensures peerList == if peer == id || peer in old(peerList) then old(peerList) else old(peerList) + [peer]
      ensures peerCount == old(peerCount) + |peerList| - |old(peerList)|
    {
      if peer == id {
        return;
      }
      if peer !in peerList {
        peerCount := peerCount + 1;
        peerList := peerList + [peer];
      }
    }

    /** A closed connection. */
    method ConnectionClosed(peer: PeerId)
      requires Valid()
      modifies this`peerList, this`peerCount
      ensures Valid() && View() == OnClosed(old(View()), peer)
      ensures forall p :: p in peerList <==> p in old(peerList) && p != peer
      ensures forall a, b :: a != peer && b != peer ==> (Before(peerList, a, b) <==> Before(old(peerList), a, b))
      ensures peer !in old(peerList) ==> peerList == old(peerList)
      ensures peerCount == if old(peerCount) == 0 then 0 else old(peerCount) - 1
    {
      CloseKeepsAll(peerList, peer);
      ghost var before := View();
      EventKeepsSound(before, Closed(peer));
      var kept: seq<PeerId> := [];
      for k := 0 to |peerList|
        invariant kept + Without(peerList[k..], peer) == Without(peerList, peer)
      {
        assert peerList[k..][1..] == peerList[k + 1..];
        if peerList[k] != peer {
          kept := kept + [peerList[k]];
        }
      }
      assert kept == Without(peerList, peer);
      peerList := kept;
      if peerCount > 0 {
        peerCount := peerCount - 1;
      }
    }

    /** The `assign_peer_indices` call: returns the request it broadcasts. */
    method AssignPeerIndices(now: nat) returns (request: AssignmentMessage)
      requires Valid()
      modifies this`sessions, this`currentSessionId
      ensures Valid() && (View(), request) == OnAssign(old(View()), now)
      ensures request.Request? && Dense(id, request.assignments)
      ensures request.coordinator == id && request.session == SessionId(id, now)
      ensures currentSessionId == Some(request.session)
      ensures forall p :: p in request.assignments <==> p == id || p in peerList
    {
      var assignments := AssignIndices(id, peerList);
      IndicesDense(id, peerList);
      var session := SessionId(id, now);
      sessions := sessions[session := SessionInfo(session, id, assignments, map[], |assignments|)];
      currentSessionId := Some(session);
      request := Request(id, assignments, session);
    }

    /** A message on the assignment topic. `publishOk` is the outcome of publishing the acceptance. */
    method HandleAssignmentMessage(msg: AssignmentMessage, publishOk: bool)
      returns (published: Option<AssignmentMessage>)
      requires Valid()
      modifies this`sessions, this`currentSessionId, this`orchestrator, this`installed
      ensures Valid()
      ensures msg.Request? ==>
                && View() == FinishInstall(OnRequest(old(View()), msg, publishOk).0)
                && published == OnRequest(old(View()), msg, publishOk).1
      ensures msg.Acceptance? ==> View() == FinishInstall(OnAcceptance(old(View()), msg)) && published == None
      ensures OrchestratorFollows(old(installed), old(orchestrator))
      ensures installed != old(installed) ==> fresh(orchestrator)
    {
      match msg {
        case Request(coordinator, assignments, session) =>
          published := HandleRequest(coordinator, assignments, session, publishOk);
        case Acceptance(peer, index, session) =>
          HandleAcceptance(peer, index, session);
          published := None;
      }
    }

    /** The orchestrator is replaced exactly when an installation is recorded, by a new one for its roster. */
    ghost predicate OrchestratorFollows(was: seq<Install>, before: MPCOrchestrator?)
      reads this, orchestrator
    {
      if installed == was then orchestrator == before
      else
        && |installed| == |was| + 1 && orchestrator != null && orchestrator.Valid()
        && var party := installed[|was|].party;
           orchestrator.View() == Orchestration.New(id, party.participants, party.assignments)
    }

    method HandleRequest(coordinator: PeerId, assignments: map<PeerId, nat>, session: SessionId, publishOk: bool)
      returns (published: Option<AssignmentMessage>)
      requires Valid()
      modifies this`sessions, this`currentSessionId, this`orchestrator, this`installed
      ensures Valid()
      ensures View() == FinishInstall(OnRequest(old(View()), Request(coordinator, assignments, session), publishOk).0)
      ensures published == OnRequest(old(View()), Request(coordinator, assignments, session), publishOk).1
      ensures currentSessionId == if id in assignments then Some(session) else old(currentSessionId)
      ensures OrchestratorFollows(old(installed), old(orchestrator))
      ensures installed != old(installed) ==> fresh(orchestrator)
    {
      published := None;
      if id in assignments {
        currentSessionId := Some(session);
        if session !in sessions {
          assert assignments.Keys != {};
          sessions := sessions[session := NewSession(session, coordinator, assignments)];
        }
        if coordinator == id {
          return;
        }
        if publishOk {
          published := Some(Acceptance(id, assignments[id], session));
          InstallOrchestrator(session, assignments);
        }
      }
    }

    method HandleAcceptance(peer: PeerId, index: nat, session: SessionId)
      requires Valid()
      modifies this`sessions, this`orchestrator, this`installed
      ensures Valid()
      ensures View() == FinishInstall(OnAcceptance(old(View()), Acceptance(peer, index, session)))
      ensures OrchestratorFollows(old(installed), old(orchestrator))
      ensures installed != old(installed) ==> fresh(orchestrator)
    {
      ghost var before := View();
      if session in sessions {
        var info := sessions[session];
        info := info.(acceptances := info.acceptances[peer := true]);
        sessions := sessions[session := info];
        assert info.Sound() && info == Accept(before.sessions[session], peer);
        if info.AllAccepted() {
          InstallOrchestrator(session, info.assignments);
        }
      }
    }

    method InstallOrchestrator(session: SessionId, assignments: map<PeerId, nat>)
      modifies this`orchestrator, this`installed
      ensures installed == old(installed) + [Install(session, RosterOf(assignments))]
      ensures orchestrator != null && fresh(orchestrator) && orchestrator.Valid()
      ensures orchestrator.View() ==
                Orchestration.New(id, RosterOf(assignments).participants, RosterOf(assignments).assignments)
    {
      var party := BuildRoster(assignments);
      RosterUnique(party, RosterOf(assignments), assignments);
      orchestrator := new MPCOrchestrator(id, party.participants, party.assignments);
      installed := installed + [Install(session, party)];
    }
  }
}

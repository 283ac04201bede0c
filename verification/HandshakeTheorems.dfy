/** What the assignment handshake guarantees in every reachable state of N nodes, and what it does not. */
module HandshakeTheorems {
  import opened Basics
  import opened Roster
  import opened Assignment
  import opened Handshake
  import opened HandshakeProof

  // ---------------------------------------------------------------------------
  // Readiness barrier
  // ---------------------------------------------------------------------------

  lemma JoinedCoordinatorComplete(s: System, id: SessionId)
    requires Inv(s) && id in s.requests && id.coordinator in s.nodes
    requires Joined(s.nodes[id.coordinator].local, id)
    ensures Complete(s.nodes[id.coordinator].local, id)
  {
    var c := id.coordinator;
    var n := s.nodes[c].local;
    InvOfNode(s, c);
    if HasInstalled(n, id) {
      var i :| 0 <= i < |n.installed| && n.installed[i].session == id;
      assert InstallSound(s, c, n.installed[i]);
    } else {
      assert InstallSound(s, c, n.installing.value);
    }
  }

  /** Once the coordinator has decided to install its orchestrator, every other assigned node has published its
      acceptance and installed its own orchestrator. */
  lemma ReadinessBarrier(s: System, id: SessionId, q: PeerId)
    requires Reachable(s) && id in s.requests && id.coordinator in s.nodes
    requires Joined(s.nodes[id.coordinator].local, id)
    requires q in s.requests[id] && q != id.coordinator
    ensures q in s.nodes && AcceptanceOf(s, q, id) in s.nodes[q].published
    ensures HasInstalled(s.nodes[q].local, id)
  {
    ReachableInv(s);
    var c := id.coordinator;
    JoinedCoordinatorComplete(s, id);
    InvOfNode(s, c);
    assert SessionSound(s, c, id);
    CompleteMeansEverybody(s, c, s.nodes[c].seen, id, s.nodes[c].local.sessions[id]);
    assert q in s.nodes[c].local.sessions[id].acceptances.Keys;
    assert SentSound(s, AcceptanceOf(s, q, id));
  }

  // ---------------------------------------------------------------------------
  // Who completes a session, and when
  // ---------------------------------------------------------------------------

  /** At a node other than the coordinator the recorded acceptances never reach the required number. */
  lemma OnlyCoordinatorCompletes(s: System, p: PeerId, id: SessionId)
    requires Reachable(s) && p in s.nodes && id in s.nodes[p].local.sessions && p != id.coordinator
    ensures id in s.requests
    ensures var info := s.nodes[p].local.sessions[id];
            && info.acceptances.Keys <= s.requests[id].Keys - {id.coordinator, p}
            && info.totalNodes >= 1 && !info.AllAccepted()
  {
    ReachableInv(s);
    InvOfNode(s, p);
    assert SessionSound(s, p, id);
    NeverCompleteElsewhere(s, p, s.nodes[p].seen, id, s.nodes[p].local.sessions[id]);
  }

  /** The coordinator knows every session it receives an acceptance for, and its record is exactly the set of
      peers whose acceptance has been delivered to it. */
  lemma AcceptancesExact(s: System, id: SessionId, k: PeerId)
    requires Reachable(s) && id in s.requests
    ensures id.coordinator in s.nodes && id in s.nodes[id.coordinator].local.sessions
    ensures var c := s.nodes[id.coordinator];
            k in c.local.sessions[id].acceptances <==>
              k in s.requests[id] && AcceptanceOf(s, k, id) in c.seen
  {
    ReachableInv(s);
    assert RequestSound(s, id);
    InvOfNode(s, id.coordinator);
    assert SessionSound(s, id.coordinator, id);
  }

  /** The coordinator's acceptances are from sessions it created, so its lookup never misses. */
  lemma NoUnknownSession(s: System, a: Step)
    requires Reachable(s) && Enabled(s, a) && a.Deliver? && a.e.msg.Acceptance?
    requires a.p == a.e.msg.session.coordinator
    ensures a.e.msg.session in s.nodes[a.p].local.sessions
  {
    ReachableInv(s);
    SentIsSound(s, a.e);
    assert RequestSound(s, a.e.msg.session);
  }

  /** The session arithmetic a handler relies on holds at every node, so whatever has been published can be
      delivered to every other node whose event loop is free and that has not taken it before. */
  lemma DeliveryNeverBlocked(s: System, p: PeerId, e: Envelope, publishOk: bool)
    requires Reachable(s) && p in s.nodes
    ensures SessionsSound(s.nodes[p].local)
    ensures Enabled(s, Deliver(p, e, publishOk)) <==>
              LoopFree(s, p) && e in s.sent && e !in s.nodes[p].seen && e.source != p
  {
    ReachableInv(s);
    InvSessionsSound(s, p);
  }

  lemma CompleteMeansSeen(s: System, id: SessionId)
    requires id.coordinator in s.nodes && SessionSound(s, id.coordinator, id)
    ensures s.nodes[id.coordinator].local.sessions[id].Sound()
    ensures s.nodes[id.coordinator].local.sessions[id].AllAccepted() <==>
              forall q :: q in s.requests[id] && q != id.coordinator ==>
                AcceptanceOf(s, q, id) in s.nodes[id.coordinator].seen
  {
    var c := id.coordinator;
    var info := s.nodes[c].local.sessions[id];
    CompleteMeansEverybody(s, c, s.nodes[c].seen, id, info);
    if forall q :: q in s.requests[id] && q != c ==> AcceptanceOf(s, q, id) in s.nodes[c].seen {
      assert info.acceptances.Keys == s.requests[id].Keys - {c};
    } else {
      var q :| q in s.requests[id] && q != c && AcceptanceOf(s, q, id) !in s.nodes[c].seen;
      assert q !in info.acceptances.Keys && q in s.requests[id].Keys - {c};
    }
  }

  /** The coordinator installs its orchestrator if and only if somebody else is assigned and everybody else's
      acceptance has been delivered. A coordinator without peers never does. */
  lemma CoordinatorInstallsExactlyWhenAllAccepted(s: System, id: SessionId)
    requires Reachable(s) && id in s.requests
    ensures id.coordinator in s.nodes
    ensures Joined(s.nodes[id.coordinator].local, id) <==>
              && |s.requests[id]| >= 2
              && forall q :: q in s.requests[id] && q != id.coordinator ==>
                   AcceptanceOf(s, q, id) in s.nodes[id.coordinator].seen
  {
    ReachableInv(s);
    assert RequestSound(s, id);
    InvOfNode(s, id.coordinator);
    assert SessionSound(s, id.coordinator, id);
    CompleteMeansSeen(s, id);
    if Joined(s.nodes[id.coordinator].local, id) {
      JoinedCoordinatorComplete(s, id);
    }
  }

  /** No node installs an orchestrator twice for one session. */
  lemma InstallsAtMostOnce(s: System, p: PeerId, i: nat, j: nat)
    requires Reachable(s) && p in s.nodes && i < j < |s.nodes[p].local.installed|
    ensures s.nodes[p].local.installed[i].session != s.nodes[p].local.installed[j].session
  {
    ReachableInv(s);
    InvOfNode(s, p);
  }

  /** A request never comes back to its coordinator. */
  lemma CoordinatorConfirmationIsDead(s: System, a: Step)
    requires Reachable(s) && Enabled(s, a) && a.Deliver? && a.e.msg.Request?
    ensures a.e.msg.coordinator != a.p
  {
    ReachableInv(s);
    SentIsSound(s, a.e);
  }

  // ---------------------------------------------------------------------------
  // Agreement and dense indices
  // ---------------------------------------------------------------------------

  /** Any two nodes that install an orchestrator for a session give it the same party map and the same
      participant sequence. */
  lemma Agreement(s: System, p: PeerId, i: nat, q: PeerId, j: nat)
    requires Reachable(s) && p in s.nodes && q in s.nodes
    requires i < |s.nodes[p].local.installed| && j < |s.nodes[q].local.installed|
    requires s.nodes[p].local.installed[i].session == s.nodes[q].local.installed[j].session
    ensures s.nodes[p].local.installed[i].party == s.nodes[q].local.installed[j].party
  {
    ReachableInv(s);
    InvOfNode(s, p);
    InvOfNode(s, q);
    var x, y := s.nodes[p].local.installed[i], s.nodes[q].local.installed[j];
    assert InstallSound(s, p, x) && InstallSound(s, q, y);
    RosterUnique(x.party, y.party, s.requests[x.session]);
  }

  /** The roster of every installed orchestrator is that of a densely numbered assignment which contains the
      node itself. */
  lemma InstalledRosterDense(s: System, p: PeerId, i: nat)
    requires Reachable(s) && p in s.nodes && i < |s.nodes[p].local.installed|
    ensures var x := s.nodes[p].local.installed[i];
            && x.session in s.requests && IsRoster(x.party, s.requests[x.session])
            && Dense(x.session.coordinator, s.requests[x.session]) && p in x.party.assignments
  {
    ReachableInv(s);
    InvOfNode(s, p);
    var x := s.nodes[p].local.installed[i];
    assert InstallSound(s, p, x) && RequestSound(s, x.session);
  }

  // ---------------------------------------------------------------------------
  // Composition of runs
  // ---------------------------------------------------------------------------

  lemma {:induction false} RunExtends(s: System, steps: seq<Step>, a: Step)
    requires Runs(s, steps) && Enabled(After(s, steps), a)
    ensures Runs(s, steps + [a]) && After(s, steps + [a]) == Apply(After(s, steps), a)
    decreases |steps|
  {
    if steps == [] {
      assert steps + [a] == [a] && [a][1..] == [];
    } else {
      assert (steps + [a])[1..] == steps[1..] + [a];
      RunExtends(Apply(s, steps[0]), steps[1..], a);
    }
  }

  lemma ReachableStep(s: System, a: Step)
    requires Reachable(s) && Enabled(s, a)
    ensures Reachable(Apply(s, a))
  {
    var s0, steps :| IsInitial(s0) && Runs(s0, steps) && s == After(s0, steps);
    RunExtends(s0, steps, a);
  }
}

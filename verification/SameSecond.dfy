/** Two assign calls of one node within a second. The session id is made of the node and the second, so the later
    call reuses the id of the earlier one. Exactly what that overwrites, and what is lost by it. */
module SameSecond {
  import opened Basics
  import opened Assignment
  import opened Handshake
  import opened HandshakeProof

  // ---------------------------------------------------------------------------
  // When a stored session is overwritten
  // ---------------------------------------------------------------------------

  /** An assign call changes a session the node has stored. */
  predicate Overwrites(n: Local, now: nat) {
    var n' := OnAssign(n, now).0;
    exists k :: k in n.sessions && (k !in n'.sessions || n'.sessions[k] != n.sessions[k])
  }

  /** What a node has stored for a session of its own. */
  lemma OwnSession(s: System, p: PeerId, id: SessionId)
    requires Reachable(s) && p in s.nodes && id.coordinator == p
    ensures s.nodes[p].local.id == p
    ensures id in s.nodes[p].local.sessions <==> id in s.requests
    ensures id in s.requests ==>
              var info := s.nodes[p].local.sessions[id];
              info == SessionInfo(id, p, s.requests[id], info.acceptances, |s.requests[id]|)
  {
    ReachableInv(s);
    InvOfNode(s, p);
    assert id in s.requests ==> RequestSound(s, id);
    assert id in s.nodes[p].local.sessions ==> SessionSound(s, p, id);
  }

  /** A node overwrites a stored session exactly if it has made an assign call in the same second before, and
      since then an acceptance has come in or the numbering has changed. */
  lemma OverwritesExactly(s: System, p: PeerId, now: nat)
    requires Reachable(s) && p in s.nodes
    ensures var id, n := SessionId(p, now), s.nodes[p].local;
            && (id in n.sessions <==> id in s.requests)
            && (Overwrites(n, now) <==>
                  && id in s.requests
                  && (n.sessions[id].acceptances != map[] || Indices(p, n.peers) != s.requests[id]))
  {
    OwnSession(s, p, SessionId(p, now));
    OnlyOwnIdChanges(s.nodes[p].local, now);
  }

  lemma OnlyOwnIdChanges(n: Local, now: nat)
    ensures var id := SessionId(n.id, now);
            Overwrites(n, now) <==>
              id in n.sessions && n.sessions[id] != NewSession(id, n.id, Indices(n.id, n.peers))
  {
    var id, n' := SessionId(n.id, now), OnAssign(n, now).0;
    if id in n.sessions && n.sessions[id] != NewSession(id, n.id, Indices(n.id, n.peers)) {
      assert id in n.sessions && n'.sessions[id] != n.sessions[id];
    }
  }

  // ---------------------------------------------------------------------------
  // What is lost
  // ---------------------------------------------------------------------------

  /** The repeated call: its request is a new copy, which everybody may take again. */
  function Repeat(s: System, p: PeerId, now: nat): System
    requires p in s.nodes
  {
    var (local, request) := OnAssign(s.nodes[p].local, now);
    System(s.nodes[p := Peer(local, s.nodes[p].seen, s.nodes[p].published + {Envelope(p, request, 1)}, now)],
           s.sent,
           s.requests[request.session := request.assignments])
  }

  /** The acceptance of `k` has been taken from gossip by the coordinator, is not in its record, and will not come
      again. */
  ghost predicate Lost(s: System, id: SessionId, a: map<PeerId, nat>, k: PeerId) {
    && id.coordinator in s.nodes && k in s.nodes && k != id.coordinator
    && (forall q :: q in s.nodes ==> s.nodes[q].local.id == q)
    && id.seconds <= s.nodes[id.coordinator].lastAssign
    && Short(s.nodes[id.coordinator].local, id, a, k) && !Joined(s.nodes[id.coordinator].local, id)
    && Envelope(k, Acceptance(k, a[k], id)) in s.nodes[id.coordinator].seen
    && (forall q :: q in s.nodes ==> NothingNew(s, q, id, a, k))
    && (forall e :: e in s.sent ==> e.source in s.nodes && e in s.nodes[e.source].published)
  }

  /** The coordinator's record lacks `k`. */
  predicate Short(n: Local, id: SessionId, a: map<PeerId, nat>, k: PeerId) {
    && id in n.sessions && n.sessions[id].assignments == a && n.sessions[id].totalNodes == |a|
    && id.coordinator in a && k in a
    && n.sessions[id].acceptances.Keys <= a.Keys - {id.coordinator, k}
  }

  /** Of the session, node `q` has published the request if it is the coordinator, its own acceptance otherwise,
      and the coordinator has taken what `k` published and all it can publish. */
  predicate NothingNew(s: System, q: PeerId, id: SessionId, a: map<PeerId, nat>, k: PeerId)
    requires q in s.nodes && k in s.nodes && id.coordinator in s.nodes
  {
    forall e :: e in s.nodes[q].published ==>
      && e.source == q
      && (e.msg.session == id ==>
            match e.msg
            case Request(_, b, _) => q == id.coordinator && b == a
            case Acceptance(j, _, _) =>
              j == q && q in a && q != id.coordinator && (q == k ==> e in s.nodes[id.coordinator].seen))
  }

  lemma ShortIsIncomplete(n: Local, id: SessionId, a: map<PeerId, nat>, k: PeerId)
    requires Short(n, id, a, k) && k != id.coordinator
    ensures n.sessions[id].totalNodes >= 1 && !n.sessions[id].AllAccepted()
  {
    var keys := n.sessions[id].acceptances.Keys;
    SubsetCardinality(keys, a.Keys - {id.coordinator, k});
    assert |a.Keys - {id.coordinator, k}| == |a.Keys| - 2 by {
      assert a.Keys == (a.Keys - {id.coordinator, k}) + {id.coordinator, k};
    }
    assert |a.Keys| == |a|;
  }

  /** What a step of node `x` has to keep. */
  ghost predicate KeepsLost(s: System, s': System, x: PeerId, id: SessionId, a: map<PeerId, nat>, k: PeerId) {
    && OnlyChanges(s, s', x) && s'.nodes[x].local.id == x
    && s.nodes[x].seen <= s'.nodes[x].seen && s.nodes[x].lastAssign <= s'.nodes[x].lastAssign
    && (x == id.coordinator ==> Short(s'.nodes[x].local, id, a, k) && !Joined(s'.nodes[x].local, id))
  }

  lemma LostIfKept(s: System, s': System, x: PeerId, id: SessionId, a: map<PeerId, nat>, k: PeerId)
    requires Lost(s, id, a, k) && KeepsLost(s, s', x, id, a, k) && NothingNew(s', x, id, a, k)
    requires forall e :: e in s'.sent ==> e.source in s'.nodes && e in s'.nodes[e.source].published
    ensures Lost(s', id, a, k)
  {
    forall q | q in s'.nodes
      ensures NothingNew(s', q, id, a, k)
    {
      assert NothingNew(s, q, id, a, k);
    }
  }

  lemma OldNews(s: System, s': System, x: PeerId, id: SessionId, a: map<PeerId, nat>, k: PeerId)
    requires Lost(s, id, a, k) && KeepsLost(s, s', x, id, a, k) && s'.nodes[x].published == s.nodes[x].published
    ensures NothingNew(s', x, id, a, k)
  {
    assert NothingNew(s, x, id, a, k);
  }

  lemma QuietStep(s: System, st: Step, id: SessionId, a: map<PeerId, nat>, k: PeerId)
    requires Lost(s, id, a, k) && Enabled(s, st) && (st.PeerUp? || st.PeerDown? || st.TakeLock? || st.Emit?)
    ensures Lost(Apply(s, st), id, a, k)
  {
    var s', x := Apply(s, st), st.p;
    var n, n' := s.nodes[x].local, s'.nodes[x].local;
    if x == id.coordinator {
      forall i | 0 <= i < |n'.installed|
        ensures n'.installed[i].session != id
      {
        assert i < |n.installed| ==> n'.installed[i] == n.installed[i];
      }
    }
    OldNews(s, s', x, id, a, k);
    LostIfKept(s, s', x, id, a, k);
  }

  lemma AssignStepKeepsLost(s: System, st: Step, id: SessionId, a: map<PeerId, nat>, k: PeerId)
    requires Lost(s, id, a, k) && Enabled(s, st) && st.Assign?
    ensures Lost(Apply(s, st), id, a, k)
  {
    var s', x := Apply(s, st), st.p;
    assert SessionId(x, st.now) != id;
    assert forall i :: HasInstalled(s'.nodes[x].local, i) == HasInstalled(s.nodes[x].local, i);
    assert NothingNew(s, x, id, a, k);
    LostIfKept(s, s', x, id, a, k);
  }

  lemma RequestKeepsLost(s: System, s': System, x: PeerId, e: Envelope, id: SessionId, a: map<PeerId, nat>, k: PeerId)
    requires Lost(s, id, a, k) && RequestDone(s, s', x, e) && e in s.sent && e !in s.nodes[x].seen && e.source != x
    ensures Lost(s', id, a, k)
  {
    assert NothingNew(s, e.source, id, a, k);
    assert NothingNew(s, x, id, a, k);
    assert forall i :: HasInstalled(s'.nodes[x].local, i) == HasInstalled(s.nodes[x].local, i);
    LostIfKept(s, s', x, id, a, k);
  }

  lemma AcceptanceKeepsLost(s: System, s': System, x: PeerId, e: Envelope, id: SessionId, a: map<PeerId, nat>,
                            k: PeerId)
    requires Lost(s, id, a, k) && AcceptanceDone(s, s', x, e) && e in s.sent && e !in s.nodes[x].seen
    ensures Lost(s', id, a, k)
  {
    assert NothingNew(s, e.source, id, a, k);
    if x == id.coordinator {
      assert id in s.nodes[x].local.sessions.Keys;
      assert Short(s'.nodes[x].local, id, a, k);
      ShortIsIncomplete(s'.nodes[x].local, id, a, k);
      assert forall i :: HasInstalled(s'.nodes[x].local, i) == HasInstalled(s.nodes[x].local, i);
    }
    OldNews(s, s', x, id, a, k);
    LostIfKept(s, s', x, id, a, k);
  }

  lemma StepKeepsLost(s: System, st: Step, id: SessionId, a: map<PeerId, nat>, k: PeerId)
    requires Lost(s, id, a, k) && Enabled(s, st)
    ensures Lost(Apply(s, st), id, a, k)
  {
    match st
    case Assign(_, _) => AssignStepKeepsLost(s, st, id, a, k);
    case Deliver(x, e, _) =>
      if e.msg.Request? {
        RequestEffect(s, st);
        RequestKeepsLost(s, Apply(s, st), x, e, id, a, k);
      } else {
        AcceptanceEffect(s, st);
        AcceptanceKeepsLost(s, Apply(s, st), x, e, id, a, k);
      }
    case _ => QuietStep(s, st, id, a, k);
  }

  lemma {:induction false} RunKeepsLost(s: System, steps: seq<Step>, id: SessionId, a: map<PeerId, nat>, k: PeerId)
    requires Lost(s, id, a, k) && Runs(s, steps)
    ensures Lost(After(s, steps), id, a, k)
    decreases |steps|
  {
    if steps != [] {
      StepKeepsLost(s, steps[0], id, a, k);
      RunKeepsLost(Apply(s, steps[0]), steps[1..], id, a, k);
    }
  }

  /** A peer whose acceptance the coordinator has recorded: the coordinator has taken it. */
  lemma RecordedPeer(s: System, id: SessionId, k: PeerId)
    requires Reachable(s) && id in s.requests && id.coordinator in s.nodes
    requires id in s.nodes[id.coordinator].local.sessions && k in s.nodes[id.coordinator].local.sessions[id].acceptances
    ensures k in s.requests[id] && k != id.coordinator && AcceptanceOf(s, k, id) in s.nodes[id.coordinator].seen
    ensures k in s.nodes
  {
    ReachableInv(s);
    InvOfNode(s, id.coordinator);
    assert SessionSound(s, id.coordinator, id);
    SentIsSound(s, AcceptanceOf(s, k, id));
  }

  lemma PublishedBefore(s: System, id: SessionId, k: PeerId, q: PeerId)
    requires Reachable(s) && id in s.requests && id.coordinator in s.nodes && q in s.nodes && k in s.nodes
    requires k in s.requests[id] && AcceptanceOf(s, k, id) in s.nodes[id.coordinator].seen
    ensures NothingNew(s, q, id, s.requests[id], k) && s.nodes[q].local.id == q
  {
    ReachableInv(s);
    InvOfNode(s, q);
    forall e | e in s.nodes[q].published
      ensures e.source == q && EnvelopeSound(s, e)
    {
    }
  }

  lemma SentBefore(s: System)
    requires Reachable(s)
    ensures forall e :: e in s.sent ==> e.source in s.nodes && e in s.nodes[e.source].published
  {
    ReachableInv(s);
    forall e | e in s.sent
      ensures e.source in s.nodes && e in s.nodes[e.source].published
    {
      assert SentSound(s, e);
    }
  }

  lemma LostAtOnce(s: System, p: PeerId, now: nat, k: PeerId)
    requires Reachable(s) && p in s.nodes && SessionId(p, now) in s.requests
    requires SessionId(p, now) in s.nodes[p].local.sessions && !Joined(s.nodes[p].local, SessionId(p, now))
    requires Indices(p, s.nodes[p].local.peers) == s.requests[SessionId(p, now)]
    requires k in s.nodes[p].local.sessions[SessionId(p, now)].acceptances
    ensures Lost(Repeat(s, p, now), SessionId(p, now), s.requests[SessionId(p, now)], k)
  {
    var id, s' := SessionId(p, now), Repeat(s, p, now);
    var a := s.requests[id];
    OwnSession(s, p, id);
    RecordedPeer(s, id, k);
    SentBefore(s);
    IndicesContainCoordinator(p, s.nodes[p].local.peers);
    forall q | q in s'.nodes
      ensures NothingNew(s', q, id, a, k) && s'.nodes[q].local.id == q
    {
      PublishedBefore(s, id, k, q);
    }
    assert forall i :: HasInstalled(s'.nodes[p].local, i) == HasInstalled(s.nodes[p].local, i);
  }

  /** Repeating an assign call within the second, with the same peers, loses every acceptance recorded so far for
      good: whoever takes the repeated request again can only publish the acceptance that the coordinator has taken
      already, and a session that was not complete by then never will be. */
  lemma RepeatLosesAcceptances(s: System, p: PeerId, now: nat, k: PeerId, steps: seq<Step>)
    requires Reachable(s) && p in s.nodes && SessionId(p, now) in s.requests
    requires SessionId(p, now) in s.nodes[p].local.sessions && !Joined(s.nodes[p].local, SessionId(p, now))
    requires Indices(p, s.nodes[p].local.peers) == s.requests[SessionId(p, now)]
    requires k in s.nodes[p].local.sessions[SessionId(p, now)].acceptances
    requires Runs(Repeat(s, p, now), steps)
    ensures var id, s' := SessionId(p, now), After(Repeat(s, p, now), steps);
            && p in s'.nodes && id in s'.nodes[p].local.sessions
            && k !in s'.nodes[p].local.sessions[id].acceptances && !Joined(s'.nodes[p].local, id)
  {
    LostAtOnce(s, p, now, k);
    RunKeepsLost(Repeat(s, p, now), steps, SessionId(p, now), s.requests[SessionId(p, now)], k);
    var n := After(Repeat(s, p, now), steps).nodes[p].local;
    assert Short(n, SessionId(p, now), s.requests[SessionId(p, now)], k);
    assert k !in n.sessions[SessionId(p, now)].acceptances.Keys;
  }

  /** With another peer in between, the second session overwrites the first under its id, and an acceptance of the
      first request is recorded for the second, whose numbering its sender has never seen. */
  lemma RepeatMixesSessions(n: Local, now: nat, q: PeerId, k: PeerId, i: nat)
    requires SessionsSound(n) && PeersSound(n) && q != n.id && q !in n.peers && k in n.peers
    ensures var (n1, first) := OnAssign(n, now);
            var (n2, second) := OnAssign(OnIdentify(n1, q), now);
            && first.session == second.session && first.assignments != second.assignments && k in first.assignments
            && SessionsSound(n2)
            && n2.sessions[first.session] == NewSession(first.session, n.id, second.assignments)
            && OnAcceptance(n2, Acceptance(k, i, first.session)).sessions[second.session].acceptances == map[k := true]
  {
    IndicesDense(n.id, n.peers);
    IndicesDense(n.id, n.peers + [q]);
    assert q in Indices(n.id, n.peers + [q]) && q !in Indices(n.id, n.peers);
    AssignedAgain(n, now, q);
  }

  lemma AssignedAgain(n: Local, now: nat, q: PeerId)
    requires SessionsSound(n) && PeersSound(n) && q != n.id && q !in n.peers
    ensures SessionsSound(OnAssign(OnIdentify(OnAssign(n, now).0, q), now).0)
  {
    EventKeepsSound(n, AssignCall(now));
    EventKeepsSound(OnAssign(n, now).0, Identify(q));
    EventKeepsSound(OnIdentify(OnAssign(n, now).0, q), AssignCall(now));
  }
}

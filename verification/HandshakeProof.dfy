/** The invariant of the assignment handshake. */
module HandshakeProof {
  import opened Basics
  import opened Roster
  import opened Assignment
  import opened Handshake

  predicate EnvelopeSound(s: System, e: Envelope) {
    e.copy == 0 &&
    match e.msg
    case Request(c, a, id) => e.source == c == id.coordinator && id in s.requests && s.requests[id] == a
    case Acceptance(p, i, id) =>
      && e.source == p && id in s.requests && p in s.requests[id] && s.requests[id][p] == i
      && p != id.coordinator && p in s.nodes && Joined(s.nodes[p].local, id)
  }

  /** What has been sent has been published by its source, an acceptance only after its source had installed. */
  predicate SentSound(s: System, e: Envelope) {
    && e.source in s.nodes && e in s.nodes[e.source].published
    && (e.msg.Acceptance? ==> HasInstalled(s.nodes[e.source].local, e.msg.session))
  }

  predicate RequestSound(s: System, id: SessionId) {
    && id in s.requests && Dense(id.coordinator, s.requests[id])
    && id.coordinator in s.nodes && RequestOf(s, id) in s.nodes[id.coordinator].published
    && id.seconds <= s.nodes[id.coordinator].lastAssign
    && id in s.nodes[id.coordinator].local.sessions
  }

  /** `info` is what node `p`, having seen `seen`, should have stored for session `id`. */
  ghost predicate InfoSound(s: System, p: PeerId, seen: set<Envelope>, id: SessionId, info: SessionInfo) {
    && id in s.requests && p in s.requests[id] && id.coordinator in s.requests[id]
    && info.session == id && info.coordinator == id.coordinator
    && info.assignments == s.requests[id] && info.totalNodes == |s.requests[id]| && |s.requests[id]| >= 1
    && (forall k :: k in info.acceptances ==>
          k in s.requests[id] && k != id.coordinator && info.acceptances[k] && AcceptanceOf(s, k, id) in seen)
    && (p == id.coordinator ==>
          forall k :: k in s.requests[id] && AcceptanceOf(s, k, id) in seen ==> k in info.acceptances)
  }

  ghost predicate SessionSound(s: System, p: PeerId, id: SessionId) {
    && p in s.nodes && id in s.nodes[p].local.sessions
    && InfoSound(s, p, s.nodes[p].seen, id, s.nodes[p].local.sessions[id])
  }

  /** All peers of the session but its coordinator have accepted at `p`. */
  predicate Complete(n: Local, id: SessionId) {
    id in n.sessions && n.sessions[id].totalNodes >= 2 && n.sessions[id].AllAccepted()
  }

  predicate InstallSound(s: System, p: PeerId, x: Install) {
    && p in s.nodes && x.session in s.requests && p in s.requests[x.session]
    && IsRoster(x.party, s.requests[x.session])
    && (if x.session.coordinator == p then Complete(s.nodes[p].local, x.session)
        else RequestOf(s, x.session) in s.nodes[p].seen)
  }

  predicate InstallsOnce(n: Local) {
    && (forall i, j :: 0 <= i < j < |n.installed| ==> n.installed[i].session != n.installed[j].session)
    && (n.installing.Some? ==> !HasInstalled(n, n.installing.value.session))
  }

  predicate BasicSound(s: System, p: PeerId) {
    && p in s.nodes && s.nodes[p].local.id == p && PeersSound(s.nodes[p].local)
    && s.nodes[p].seen <= s.sent && (forall e :: e in s.nodes[p].seen ==> e.source != p)
  }

  predicate InstallsSound(s: System, p: PeerId) {
    && p in s.nodes
    && (forall i :: 0 <= i < |s.nodes[p].local.installed| ==> InstallSound(s, p, s.nodes[p].local.installed[i]))
    && (s.nodes[p].local.installing.Some? ==> InstallSound(s, p, s.nodes[p].local.installing.value))
    && InstallsOnce(s.nodes[p].local)
  }

  /** A coordinator that has everybody's acceptance has joined. */
  ghost predicate CompleteJoined(s: System, p: PeerId) {
    && p in s.nodes
    && forall id: SessionId :: id.coordinator == p && Complete(s.nodes[p].local, id) ==> Joined(s.nodes[p].local, id)
  }

  ghost predicate PublishedSound(s: System, p: PeerId) {
    p in s.nodes && forall e :: e in s.nodes[p].published ==> e.source == p && EnvelopeSound(s, e)
  }

  ghost predicate NodeSound(s: System, p: PeerId) {
    BasicSound(s, p) && InstallsSound(s, p) && CompleteJoined(s, p)
  }

  ghost predicate SessionsOf(s: System, p: PeerId) {
    p in s.nodes && forall id :: id in s.nodes[p].local.sessions ==> SessionSound(s, p, id)
  }

  ghost predicate Inv(s: System) {
    && (forall e :: e in s.sent ==> SentSound(s, e))
    && (forall id :: id in s.requests ==> RequestSound(s, id))
    && (forall p :: p in s.nodes ==> NodeSound(s, p) && SessionsOf(s, p) && PublishedSound(s, p))
  }

  lemma InvInitial(s: System)
    requires IsInitial(s)
    ensures Inv(s)
  {
  }

  // ---------------------------------------------------------------------------
  // Counting
  // ---------------------------------------------------------------------------

  lemma SubsetCardinality(a: set<PeerId>, b: set<PeerId>)
    requires a <= b
    ensures |a| <= |b| && (|a| == |b| ==> a == b)
  {
    assert |b| == |a| + |b - a| by { assert b == a + (b - a); }
    if |a| == |b| {
      assert b - a == {};
    }
  }

  /** Acceptances complete a session exactly if they are from everybody but the coordinator. */
  lemma CompleteMeansEverybody(s: System, p: PeerId, seen: set<Envelope>, id: SessionId, info: SessionInfo)
    requires InfoSound(s, p, seen, id, info)
    ensures info.Sound()
    ensures info.AllAccepted() <==> info.acceptances.Keys == s.requests[id].Keys - {id.coordinator}
  {
    var others := s.requests[id].Keys - {id.coordinator};
    assert |others| == |s.requests[id]| - 1;
    SubsetCardinality(info.acceptances.Keys, others);
    assert |info.acceptances.Keys| == |info.acceptances|;
  }

  /** At any other node its own acceptance is missing forever. */
  lemma NeverCompleteElsewhere(s: System, p: PeerId, seen: set<Envelope>, id: SessionId, info: SessionInfo)
    requires InfoSound(s, p, seen, id, info) && p != id.coordinator
    requires forall e :: e in seen ==> e.source != p
    ensures info.acceptances.Keys <= s.requests[id].Keys - {id.coordinator, p}
    ensures info.Sound() && !info.AllAccepted()
  {
    CompleteMeansEverybody(s, p, seen, id, info);
    forall k | k in info.acceptances
      ensures k != p
    {
      assert AcceptanceOf(s, k, id).source != p;
    }
    assert p in s.requests[id].Keys - {id.coordinator};
  }

  lemma InvSessionsSound(s: System, p: PeerId)
    requires SessionsOf(s, p)
    ensures SessionsSound(s.nodes[p].local)
  {
    forall id | id in s.nodes[p].local.sessions
      ensures s.nodes[p].local.sessions[id].Sound()
    {
      assert SessionSound(s, p, id);
      CompleteMeansEverybody(s, p, s.nodes[p].seen, id, s.nodes[p].local.sessions[id]);
    }
  }

  // ---------------------------------------------------------------------------
  // Growth: what a step of node `a` leaves alone
  // ---------------------------------------------------------------------------

  predicate RequestsGrow(s: System, s': System) {
    forall id :: id in s.requests ==> id in s'.requests && s'.requests[id] == s.requests[id]
  }

  ghost predicate JoinsGrow(n: Local, n': Local) {
    && (forall id :: Joined(n, id) ==> Joined(n', id))
    && (forall id :: HasInstalled(n, id) ==> HasInstalled(n', id))
  }

  /** Only node `a` changed; messages, sessions and its own joins have only been added to. */
  ghost predicate Grows(s: System, s': System, a: PeerId) {
    && s'.nodes.Keys == s.nodes.Keys && a in s.nodes
    && s.sent <= s'.sent && RequestsGrow(s, s')
    && (forall p :: p in s.nodes && p != a ==> s'.nodes[p] == s.nodes[p])
    && s.nodes[a].seen <= s'.nodes[a].seen && s.nodes[a].published <= s'.nodes[a].published
    && s.nodes[a].lastAssign <= s'.nodes[a].lastAssign
    && s.nodes[a].local.sessions.Keys <= s'.nodes[a].local.sessions.Keys
    && JoinsGrow(s.nodes[a].local, s'.nodes[a].local)
  }

  lemma GrowthKeepsEnvelope(s: System, s': System, a: PeerId, e: Envelope)
    requires Grows(s, s', a) && EnvelopeSound(s, e)
    ensures EnvelopeSound(s', e)
  {
    if e.msg.Acceptance? && e.msg.peer == a {
      assert Joined(s'.nodes[a].local, e.msg.session);
    }
  }

  lemma GrowthKeepsSent(s: System, s': System, a: PeerId, e: Envelope)
    requires Grows(s, s', a) && SentSound(s, e)
    ensures SentSound(s', e)
  {
    if e.source == a && e.msg.Acceptance? {
      assert HasInstalled(s'.nodes[a].local, e.msg.session);
    }
  }

  lemma GrowthKeepsRequest(s: System, s': System, a: PeerId, id: SessionId)
    requires Grows(s, s', a) && RequestSound(s, id)
    ensures RequestSound(s', id)
  {
    assert id.coordinator == a ==> id in s.nodes[a].local.sessions.Keys;
  }

  lemma InstallSoundKept(s: System, s': System, p: PeerId, x: Install)
    requires InstallSound(s, p, x) && p in s'.nodes && RequestsGrow(s, s')
    requires s.nodes[p].seen <= s'.nodes[p].seen
    requires x.session.coordinator == p && Complete(s.nodes[p].local, x.session) ==>
               Complete(s'.nodes[p].local, x.session)
    ensures InstallSound(s', p, x)
  {
  }

  lemma SessionSoundKept(s: System, s': System, p: PeerId, id: SessionId)
    requires SessionSound(s, p, id) && p in s'.nodes && RequestsGrow(s, s')
    requires id in s'.nodes[p].local.sessions && s'.nodes[p].local.sessions[id] == s.nodes[p].local.sessions[id]
    requires s'.nodes[p].seen == s.nodes[p].seen
    ensures SessionSound(s', p, id)
  {
  }

  /** A node whose own part is unchanged stays in order while the rest of the system grows. */
  lemma UnchangedNodeKept(s: System, s': System, p: PeerId)
    requires NodeSound(s, p) && SessionsOf(s, p)
    requires p in s'.nodes && s'.nodes[p] == s.nodes[p] && s.sent <= s'.sent && RequestsGrow(s, s')
    ensures NodeSound(s', p) && SessionsOf(s', p)
  {
    var n := s.nodes[p].local;
    forall i | 0 <= i < |n.installed|
      ensures InstallSound(s', p, n.installed[i])
    {
      InstallSoundKept(s, s', p, n.installed[i]);
    }
    if n.installing.Some? {
      InstallSoundKept(s, s', p, n.installing.value);
    }
    forall id | id in n.sessions
      ensures SessionSound(s', p, id)
    {
      SessionSoundKept(s, s', p, id);
    }
  }

  /** The new messages and sessions of a step are in order. */
  ghost predicate NewSound(s: System, s': System) {
    && (forall e :: e in s'.sent && e !in s.sent ==> SentSound(s', e))
    && (forall id :: id in s'.requests && id !in s.requests ==> RequestSound(s', id))
  }

  /** Everything a step of node `a` has to get right. */
  ghost predicate StepSound(s: System, s': System, a: PeerId) {
    Grows(s, s', a) && NodeSound(s', a) && SessionsOf(s', a) && NewSound(s, s') && PublishesSound(s, s', a)
  }

  /** The messages a step of node `a` publishes are in order. */
  ghost predicate PublishesSound(s: System, s': System, a: PeerId) {
    && a in s.nodes && a in s'.nodes
    && forall e :: e in s'.nodes[a].published && e !in s.nodes[a].published ==> e.source == a && EnvelopeSound(s', e)
  }

  /** A step keeps the invariant if its new messages, new sessions and the acting node are in order. */
  lemma StepByGrowth(s: System, s': System, a: PeerId)
    requires Inv(s) && StepSound(s, s', a)
    ensures Inv(s')
  {
    forall e | e in s'.sent
      ensures SentSound(s', e)
    {
      if e in s.sent { GrowthKeepsSent(s, s', a, e); }
    }
    forall id | id in s'.requests
      ensures RequestSound(s', id)
    {
      if id in s.requests { GrowthKeepsRequest(s, s', a, id); }
    }
    forall p | p in s'.nodes
      ensures NodeSound(s', p) && SessionsOf(s', p) && PublishedSound(s', p)
    {
      if p != a { UnchangedNodeKept(s, s', p); }
      GrowthKeepsPublished(s, s', a, p);
    }
  }

  lemma GrowthKeepsPublished(s: System, s': System, a: PeerId, p: PeerId)
    requires Grows(s, s', a) && PublishesSound(s, s', a) && PublishedSound(s, p)
    ensures PublishedSound(s', p)
  {
    forall e | e in s'.nodes[p].published
      ensures e.source == p && EnvelopeSound(s', e)
    {
      if e in s.nodes[p].published { GrowthKeepsEnvelope(s, s', a, e); }
    }
  }

  // ---------------------------------------------------------------------------
  // Peers come and go
  // ---------------------------------------------------------------------------

  /** The parts of a node the handshake depends on are unchanged. */
  predicate SameHandshake(s: System, s': System, p: PeerId) {
    && p in s.nodes && p in s'.nodes && s'.nodes.Keys == s.nodes.Keys
    && (forall q :: q in s.nodes && q != p ==> s'.nodes[q] == s.nodes[q])
    && s'.sent == s.sent && s'.requests == s.requests
    && s'.nodes[p].seen == s.nodes[p].seen && s'.nodes[p].published == s.nodes[p].published
    && s'.nodes[p].lastAssign == s.nodes[p].lastAssign
    && s'.nodes[p].local.sessions == s.nodes[p].local.sessions
  }

  lemma SameSessionsKept(s: System, s': System, p: PeerId)
    requires SameHandshake(s, s', p) && SessionsOf(s, p)
    ensures SessionsOf(s', p)
  {
    forall id | id in s'.nodes[p].local.sessions
      ensures SessionSound(s', p, id)
    {
      SessionSoundKept(s, s', p, id);
    }
  }

  lemma SameInstallsKept(s: System, s': System, p: PeerId)
    requires SameHandshake(s, s', p) && InstallsSound(s, p) && CompleteJoined(s, p)
    requires s'.nodes[p].local.installed == s.nodes[p].local.installed
    requires s'.nodes[p].local.installing == s.nodes[p].local.installing
    ensures InstallsSound(s', p) && CompleteJoined(s', p)
    ensures JoinsGrow(s.nodes[p].local, s'.nodes[p].local)
  {
    var n, n' := s.nodes[p].local, s'.nodes[p].local;
    forall i | 0 <= i < |n.installed|
      ensures InstallSound(s', p, n.installed[i])
    {
      InstallSoundKept(s, s', p, n.installed[i]);
    }
    if n.installing.Some? {
      InstallSoundKept(s, s', p, n.installing.value);
    }
    forall id
      ensures Joined(n, id) == Joined(n', id) && Complete(n, id) == Complete(n', id)
    {
      assert HasInstalled(n, id) == HasInstalled(n', id);
    }
  }

  lemma PeersKeepBasic(s: System, a: Step)
    requires Enabled(s, a) && (a.PeerUp? || a.PeerDown?) && BasicSound(s, a.p)
    ensures BasicSound(Apply(s, a), a.p)
  {
    if a.PeerDown? {
      WithoutSound(s.nodes[a.p].local.peers, a.q);
    }
  }

  lemma PeersStep(s: System, a: Step)
    requires Enabled(s, a) && (a.PeerUp? || a.PeerDown?) && NodeSound(s, a.p) && SessionsOf(s, a.p)
    ensures StepSound(s, Apply(s, a), a.p)
  {
    PeersKeepBasic(s, a);
    SameSessionsKept(s, Apply(s, a), a.p);
    SameInstallsKept(s, Apply(s, a), a.p);
  }

  // ---------------------------------------------------------------------------
  // An installation is finished
  // ---------------------------------------------------------------------------

  lemma FinishKeepsJoins(n: Local)
    requires n.installing.Some? && InstallsOnce(n)
    ensures InstallsOnce(FinishInstall(n)) && JoinsGrow(n, FinishInstall(n))
  {
    var n' := FinishInstall(n);
    forall id | Joined(n, id)
      ensures Joined(n', id)
    {
      if HasInstalled(n, id) {
        var i :| 0 <= i < |n.installed| && n.installed[i].session == id;
        assert n'.installed[i].session == id;
      } else {
        assert n'.installed[|n.installed|].session == id;
      }
    }
    forall id | HasInstalled(n, id)
      ensures HasInstalled(n', id)
    {
      var i :| 0 <= i < |n.installed| && n.installed[i].session == id;
      assert n'.installed[i].session == id;
    }
  }

  lemma FinishKeepsInstalls(s: System, a: Step)
    requires Enabled(s, a) && a.TakeLock? && InstallsSound(s, a.p) && CompleteJoined(s, a.p)
    ensures InstallsSound(Apply(s, a), a.p) && CompleteJoined(Apply(s, a), a.p)
    ensures JoinsGrow(s.nodes[a.p].local, Apply(s, a).nodes[a.p].local)
  {
    var s' := Apply(s, a);
    var n, n' := s.nodes[a.p].local, s'.nodes[a.p].local;
    FinishKeepsJoins(n);
    forall i | 0 <= i < |n'.installed|
      ensures InstallSound(s', a.p, n'.installed[i])
    {
      InstallSoundKept(s, s', a.p, n'.installed[i]);
    }
    forall id: SessionId | id.coordinator == a.p && Complete(n', id)
      ensures Joined(n', id)
    {
      assert Complete(n, id) && Joined(n, id);
    }
  }

  lemma InstallStep(s: System, a: Step)
    requires Enabled(s, a) && a.TakeLock? && NodeSound(s, a.p) && SessionsOf(s, a.p)
    ensures StepSound(s, Apply(s, a), a.p)
  {
    SameSessionsKept(s, Apply(s, a), a.p);
    FinishKeepsInstalls(s, a);
  }

  // ---------------------------------------------------------------------------
  // A session is created
  // ---------------------------------------------------------------------------

  /** The clock has advanced, so the session id is new. */
  lemma NewSessionId(s: System, p: PeerId, now: nat)
    requires Inv(s) && p in s.nodes && now > s.nodes[p].lastAssign
    ensures SessionId(p, now) !in s.requests && SessionId(p, now) !in s.nodes[p].local.sessions
  {
    var id := SessionId(p, now);
    assert id in s.requests ==> RequestSound(s, id);
    assert SessionsOf(s, p);
    assert id in s.nodes[p].local.sessions ==> SessionSound(s, p, id);
  }

  /** Nothing has been heard of a session that does not exist yet. */
  lemma NothingSeenYet(s: System, p: PeerId, id: SessionId)
    requires Inv(s) && p in s.nodes && id !in s.requests
    ensures forall e :: e in s.nodes[p].seen ==> e.msg.session != id
  {
    assert NodeSound(s, p);
    forall e | e in s.nodes[p].seen
      ensures e.msg.session != id
    {
      SentIsSound(s, e);
    }
  }

  lemma AssignKeepsSessions(s: System, p: PeerId, now: nat)
    requires p in s.nodes && s.nodes[p].local.id == p && PeersSound(s.nodes[p].local) && SessionsOf(s, p)
    requires SessionId(p, now) !in s.requests && SessionId(p, now) !in s.nodes[p].local.sessions
    requires forall e :: e in s.nodes[p].seen ==> e.msg.session != SessionId(p, now)
    ensures SessionsOf(DoAssign(s, p, now), p)
  {
    var id := SessionId(p, now);
    var s' := DoAssign(s, p, now);
    IndicesDense(p, s.nodes[p].local.peers);
    forall k | k in s'.nodes[p].local.sessions
      ensures SessionSound(s', p, k)
    {
      if k == id {
        assert forall q :: q in s'.requests[id] ==> AcceptanceOf(s', q, id).msg.session == id;
      } else {
        assert SessionSound(s, p, k);
        SessionSoundKept(s, s', p, k);
      }
    }
  }

  lemma AssignKeepsInstalls(s: System, p: PeerId, now: nat)
    requires p in s.nodes && s.nodes[p].local.id == p
    requires InstallsSound(s, p) && CompleteJoined(s, p)
    requires SessionId(p, now) !in s.requests && SessionId(p, now) !in s.nodes[p].local.sessions
    ensures InstallsSound(DoAssign(s, p, now), p)
    ensures JoinsGrow(s.nodes[p].local, DoAssign(s, p, now).nodes[p].local)
  {
    var s' := DoAssign(s, p, now);
    var n, n' := s.nodes[p].local, s'.nodes[p].local;
    forall i | 0 <= i < |n.installed|
      ensures InstallSound(s', p, n.installed[i])
    {
      InstallSoundKept(s, s', p, n.installed[i]);
    }
    if n.installing.Some? {
      InstallSoundKept(s, s', p, n.installing.value);
    }
    forall k
      ensures Joined(n, k) == Joined(n', k)
    {
      assert HasInstalled(n, k) == HasInstalled(n', k);
    }
  }

  lemma AssignKeepsComplete(s: System, p: PeerId, now: nat)
    requires p in s.nodes && s.nodes[p].local.id == p && CompleteJoined(s, p)
    requires SessionId(p, now) !in s.nodes[p].local.sessions
    ensures CompleteJoined(DoAssign(s, p, now), p)
  {
    var n, n' := s.nodes[p].local, DoAssign(s, p, now).nodes[p].local;
    forall k: SessionId | k.coordinator == p && Complete(n', k)
      ensures Joined(n', k)
    {
      assert k != SessionId(p, now);
      assert Complete(n, k) && Joined(n, k);
      assert HasInstalled(n, k) == HasInstalled(n', k);
    }
  }

  lemma AssignNewSound(s: System, p: PeerId, now: nat)
    requires p in s.nodes && s.nodes[p].local.id == p && PeersSound(s.nodes[p].local)
    ensures NewSound(s, DoAssign(s, p, now)) && PublishesSound(s, DoAssign(s, p, now), p)
  {
    IndicesDense(p, s.nodes[p].local.peers);
  }

  lemma AssignStep(s: System, a: Step)
    requires Enabled(s, a) && a.Assign? && NodeSound(s, a.p) && SessionsOf(s, a.p)
    requires SessionId(a.p, a.now) !in s.requests && SessionId(a.p, a.now) !in s.nodes[a.p].local.sessions
    requires forall e :: e in s.nodes[a.p].seen ==> e.msg.session != SessionId(a.p, a.now)
    ensures StepSound(s, Apply(s, a), a.p)
  {
    AssignKeepsSessions(s, a.p, a.now);
    AssignKeepsInstalls(s, a.p, a.now);
    AssignKeepsComplete(s, a.p, a.now);
    AssignNewSound(s, a.p, a.now);
  }

  // ---------------------------------------------------------------------------
  // A request is taken from gossip
  // ---------------------------------------------------------------------------

  predicate OnlyChanges(s: System, s': System, p: PeerId) {
    p in s.nodes && p in s'.nodes && s'.nodes == s.nodes[p := s'.nodes[p]]
  }

  /** What the handler of request `e` changes at node `p`. */
  ghost predicate RequestDone(s: System, s': System, p: PeerId, e: Envelope) {
    && e.msg.Request? && OnlyChanges(s, s', p)
    && s'.sent == s.sent && s'.requests == s.requests
    && s'.nodes[p].seen == s.nodes[p].seen + {e} && s'.nodes[p].lastAssign == s.nodes[p].lastAssign
    && var n, n' := s.nodes[p].local, s'.nodes[p].local;
       && n'.id == n.id && n'.peers == n.peers && n'.peerCount == n.peerCount && n'.installed == n.installed
       && (|| n'.sessions == n.sessions
           || (e.msg.session !in n.sessions && p in e.msg.assignments
               && n'.sessions == n.sessions[e.msg.session := NewSession(e.msg.session, e.msg.coordinator,
                                                                         e.msg.assignments)]))
       && (if n'.installing.None? then s'.nodes[p].published == s.nodes[p].published
           else
             && p in e.msg.assignments && e.msg.coordinator != p
             && n'.installing == Some(Install(e.msg.session, RosterOf(e.msg.assignments)))
             && s'.nodes[p].published == s.nodes[p].published
                + {Envelope(p, Acceptance(p, e.msg.assignments[p], e.msg.session))})
  }

  lemma RequestEffect(s: System, a: Step)
    requires Enabled(s, a) && a.Deliver? && a.e.msg.Request? && s.nodes[a.p].local.id == a.p
    ensures RequestDone(s, Apply(s, a), a.p, a.e)
  {
  }

  /** Node `p` has taken a request that it had not seen. */
  ghost predicate TakesRequest(s: System, s': System, p: PeerId, e: Envelope) {
    && RequestDone(s, s', p, e) && LoopFree(s, p) && e !in s.nodes[p].seen && e.source != p
    && NodeSound(s, p) && SessionsOf(s, p) && e in s.sent && EnvelopeSound(s, e) && RequestSound(s, e.msg.session)
  }

  lemma RequestIsNews(s: System, s': System, p: PeerId, e: Envelope)
    requires TakesRequest(s, s', p, e)
    ensures p != e.msg.session.coordinator && e == RequestOf(s, e.msg.session)
    ensures !Joined(s.nodes[p].local, e.msg.session)
  {
    var n := s.nodes[p].local;
    forall i | 0 <= i < |n.installed|
      ensures n.installed[i].session != e.msg.session
    {
      assert InstallSound(s, p, n.installed[i]);
    }
  }

  lemma RequestKeepsSessions(s: System, s': System, p: PeerId, e: Envelope)
    requires TakesRequest(s, s', p, e)
    ensures SessionsOf(s', p)
  {
    RequestIsNews(s, s', p, e);
    forall k | k in s'.nodes[p].local.sessions
      ensures SessionSound(s', p, k)
    {
      if k in s.nodes[p].local.sessions {
        assert SessionSound(s, p, k);
        SeenRequestKept(s, s', p, k, e);
      } else {
        assert |s.requests[k].Keys| >= 1;
      }
    }
  }

  /** Seeing a request changes nothing about recorded acceptances. */
  lemma SeenRequestKept(s: System, s': System, p: PeerId, id: SessionId, e: Envelope)
    requires SessionSound(s, p, id) && p in s'.nodes && s'.requests == s.requests && e.msg.Request?
    requires id in s'.nodes[p].local.sessions && s'.nodes[p].local.sessions[id] == s.nodes[p].local.sessions[id]
    requires s'.nodes[p].seen == s.nodes[p].seen + {e}
    ensures SessionSound(s', p, id)
  {
    forall k | k in s.requests[id] && AcceptanceOf(s, k, id) in s'.nodes[p].seen
      ensures AcceptanceOf(s, k, id) in s.nodes[p].seen
    {
    }
  }

  /** The handler of a message leaves earlier installations in order, provided completed sessions stay so. */
  lemma EarlierInstallsKept(s: System, s': System, p: PeerId)
    requires InstallsSound(s, p) && p in s'.nodes && RequestsGrow(s, s') && s.nodes[p].seen <= s'.nodes[p].seen
    requires s'.nodes[p].local.installed == s.nodes[p].local.installed
    requires forall k: SessionId :: k.coordinator == p && HasInstalled(s.nodes[p].local, k) ==>
               (Complete(s.nodes[p].local, k) ==> Complete(s'.nodes[p].local, k))
    ensures forall i :: 0 <= i < |s'.nodes[p].local.installed| ==> InstallSound(s', p, s'.nodes[p].local.installed[i])
  {
    var n := s.nodes[p].local;
    forall i | 0 <= i < |n.installed|
      ensures InstallSound(s', p, n.installed[i])
    {
      assert HasInstalled(n, n.installed[i].session);
      InstallSoundKept(s, s', p, n.installed[i]);
    }
  }

  /** A free event loop has nothing pending, so whatever it has joined it has installed. */
  lemma FreeLoopJoins(n: Local, n': Local)
    requires n.installing.None? && n'.installed == n.installed
    ensures JoinsGrow(n, n') && forall k :: HasInstalled(n', k) == HasInstalled(n, k)
  {
    forall k
      ensures HasInstalled(n, k) == HasInstalled(n', k)
    {
    }
  }

  lemma RequestKeepsInstalls(s: System, s': System, p: PeerId, e: Envelope)
    requires TakesRequest(s, s', p, e)
    ensures InstallsSound(s', p) && CompleteJoined(s', p)
    ensures JoinsGrow(s.nodes[p].local, s'.nodes[p].local)
  {
    var n, n' := s.nodes[p].local, s'.nodes[p].local;
    RequestIsNews(s, s', p, e);
    FreeLoopJoins(n, n');
    RequestKeepsComplete(s, s', p, e);
    EarlierInstallsKept(s, s', p);
    if n'.installing.Some? {
      RequestInstall(s, s', p, e);
    }
    forall k: SessionId | k.coordinator == p && Complete(n', k)
      ensures Joined(n', k)
    {
      assert Complete(n, k) && Joined(n, k);
    }
  }

  lemma RequestKeepsComplete(s: System, s': System, p: PeerId, e: Envelope)
    requires TakesRequest(s, s', p, e)
    ensures forall k: SessionId :: k.coordinator == p ==>
              (Complete(s.nodes[p].local, k) <==> Complete(s'.nodes[p].local, k))
  {
    RequestIsNews(s, s', p, e);
  }

  lemma RequestInstall(s: System, s': System, p: PeerId, e: Envelope)
    requires TakesRequest(s, s', p, e) && s'.nodes[p].local.installing.Some?
    ensures InstallSound(s', p, s'.nodes[p].local.installing.value)
    ensures s'.nodes[p].local.installing.value.session == e.msg.session
  {
    RequestIsNews(s, s', p, e);
  }

  lemma RequestStep(s: System, s': System, p: PeerId, e: Envelope)
    requires TakesRequest(s, s', p, e)
    ensures StepSound(s, s', p)
  {
    RequestIsNews(s, s', p, e);
    RequestKeepsSessions(s, s', p, e);
    RequestKeepsInstalls(s, s', p, e);
  }

  // ---------------------------------------------------------------------------
  // An acceptance is taken from gossip
  // ---------------------------------------------------------------------------

  predicate FullyAccepted(info: SessionInfo) {
    info.totalNodes >= 1 && info.AllAccepted()
  }

  /** What the handler of acceptance `e` changes at node `p`. */
  ghost predicate AcceptanceDone(s: System, s': System, p: PeerId, e: Envelope) {
    && e.msg.Acceptance? && OnlyChanges(s, s', p)
    && s'.sent == s.sent && s'.requests == s.requests
    && s'.nodes[p].seen == s.nodes[p].seen + {e} && s'.nodes[p].published == s.nodes[p].published
    && s'.nodes[p].lastAssign == s.nodes[p].lastAssign
    && var n, n' := s.nodes[p].local, s'.nodes[p].local;
       && n'.id == n.id && n'.peers == n.peers && n'.peerCount == n.peerCount && n'.installed == n.installed
       && n'.sessions.Keys == n.sessions.Keys
       && (forall k :: k in n.sessions ==>
             n'.sessions[k] == if k == e.msg.session then Accept(n.sessions[k], e.msg.peer) else n.sessions[k])
       && (n'.installing.Some? <==> e.msg.session in n.sessions && FullyAccepted(n'.sessions[e.msg.session]))
       && (n'.installing.Some? ==>
             n'.installing == Some(Install(e.msg.session, RosterOf(n.sessions[e.msg.session].assignments))))
  }

  lemma AcceptanceEffect(s: System, a: Step)
    requires Enabled(s, a) && a.Deliver? && a.e.msg.Acceptance?
    ensures AcceptanceDone(s, Apply(s, a), a.p, a.e)
  {
  }

  /** Node `p` has taken an acceptance that it had not seen. */
  ghost predicate TakesAcceptance(s: System, s': System, p: PeerId, e: Envelope) {
    && AcceptanceDone(s, s', p, e) && LoopFree(s, p) && e !in s.nodes[p].seen && e.source != p
    && NodeSound(s, p) && SessionsOf(s, p) && e in s.sent && EnvelopeSound(s, e)
  }

  /** The updated session entry is in order once the acceptance counts as seen. */
  lemma AcceptKeepsInfo(s: System, p: PeerId, e: Envelope)
    requires e.msg.Acceptance? && EnvelopeSound(s, e) && SessionSound(s, p, e.msg.session)
    ensures var id := e.msg.session;
            InfoSound(s, p, s.nodes[p].seen + {e}, id, Accept(s.nodes[p].local.sessions[id], e.msg.peer))
  {
    var id := e.msg.session;
    assert e == AcceptanceOf(s, e.msg.peer, id);
    var info := s.nodes[p].local.sessions[id];
    forall k | k in s.requests[id] && AcceptanceOf(s, k, id) in s.nodes[p].seen + {e} && p == id.coordinator
      ensures k in Accept(info, e.msg.peer).acceptances
    {
      assert AcceptanceOf(s, k, id) in s.nodes[p].seen || k == e.msg.peer;
    }
  }

  /** An acceptance of another session changes nothing for this one. */
  lemma SeenElsewhereKept(s: System, s': System, p: PeerId, id: SessionId, e: Envelope)
    requires SessionSound(s, p, id) && p in s'.nodes && s'.requests == s.requests && e.msg.session != id
    requires id in s'.nodes[p].local.sessions && s'.nodes[p].local.sessions[id] == s.nodes[p].local.sessions[id]
    requires s'.nodes[p].seen == s.nodes[p].seen + {e}
    ensures SessionSound(s', p, id)
  {
    forall k | k in s.requests[id] && AcceptanceOf(s, k, id) in s'.nodes[p].seen
      ensures AcceptanceOf(s, k, id) in s.nodes[p].seen
    {
    }
  }

  lemma AcceptanceKeepsSessions(s: System, s': System, p: PeerId, e: Envelope)
    requires TakesAcceptance(s, s', p, e)
    ensures SessionsOf(s', p)
  {
    forall k | k in s'.nodes[p].local.sessions
      ensures SessionSound(s', p, k)
    {
      assert k in s.nodes[p].local.sessions.Keys && SessionSound(s, p, k);
      AcceptedSessionKept(s, s', p, e, k);
    }
  }

  lemma AcceptedSessionKept(s: System, s': System, p: PeerId, e: Envelope, k: SessionId)
    requires e.msg.Acceptance? && EnvelopeSound(s, e) && SessionSound(s, p, k)
    requires p in s'.nodes && s'.requests == s.requests && s'.nodes[p].seen == s.nodes[p].seen + {e}
    requires k in s'.nodes[p].local.sessions
    requires s'.nodes[p].local.sessions[k] ==
               (if k == e.msg.session then Accept(s.nodes[p].local.sessions[k], e.msg.peer)
                else s.nodes[p].local.sessions[k])
    ensures SessionSound(s', p, k)
  {
    if k == e.msg.session {
      AcceptKeepsInfo(s, p, e);
    } else {
      SeenElsewhereKept(s, s', p, k, e);
    }
  }

  /** A new acceptance finds its session incomplete. */
  lemma NewAcceptanceIncomplete(s: System, s': System, p: PeerId, e: Envelope)
    requires TakesAcceptance(s, s', p, e) && p == e.msg.session.coordinator
    ensures !Complete(s.nodes[p].local, e.msg.session)
  {
    var id := e.msg.session;
    var n := s.nodes[p].local;
    if id in n.sessions {
      assert SessionSound(s, p, id);
      assert e == AcceptanceOf(s, e.msg.peer, id);
      assert e.msg.peer !in n.sessions[id].acceptances.Keys;
      CompleteMeansEverybody(s, p, s.nodes[p].seen, id, n.sessions[id]);
      assert e.msg.peer in s.requests[id].Keys - {id.coordinator};
    }
  }

  lemma NewAcceptanceNotInstalled(s: System, s': System, p: PeerId, e: Envelope)
    requires TakesAcceptance(s, s', p, e) && p == e.msg.session.coordinator
    ensures !HasInstalled(s.nodes[p].local, e.msg.session)
  {
    var n := s.nodes[p].local;
    NewAcceptanceIncomplete(s, s', p, e);
    forall i | 0 <= i < |n.installed|
      ensures n.installed[i].session != e.msg.session
    {
      assert InstallSound(s, p, n.installed[i]);
    }
  }

  /** The session of an acceptance has at least two nodes. */
  lemma AcceptedSessionSize(s: System, e: Envelope)
    requires e.msg.Acceptance? && EnvelopeSound(s, e) && e.msg.session.coordinator in s.requests[e.msg.session]
    ensures |s.requests[e.msg.session]| >= 2
  {
    var id := e.msg.session;
    assert |{e.msg.peer, id.coordinator}| == 2;
    SubsetCardinality({e.msg.peer, id.coordinator}, s.requests[id].Keys);
  }

  /** Only the coordinator's session can be completed by an acceptance. */
  lemma AcceptanceCompletes(s: System, s': System, p: PeerId, e: Envelope)
    requires TakesAcceptance(s, s', p, e) && e.msg.session in s.nodes[p].local.sessions
    ensures var id := e.msg.session;
            var info := s'.nodes[p].local.sessions[id];
            info.Sound() && info.totalNodes >= 2 && info.assignments == s.requests[id] && p in s.requests[id]
            && (info.AllAccepted() ==> p == id.coordinator)
  {
    var id := e.msg.session;
    var info := Accept(s.nodes[p].local.sessions[id], e.msg.peer);
    assert SessionSound(s, p, id);
    AcceptKeepsInfo(s, p, e);
    CompleteMeansEverybody(s, p, s.nodes[p].seen + {e}, id, info);
    AcceptedSessionSize(s, e);
    if p != id.coordinator {
      NeverCompleteElsewhere(s, p, s.nodes[p].seen + {e}, id, info);
    }
  }

  lemma AcceptanceInstall(s: System, s': System, p: PeerId, e: Envelope)
    requires TakesAcceptance(s, s', p, e) && s'.nodes[p].local.installing.Some?
    ensures InstallSound(s', p, s'.nodes[p].local.installing.value)
    ensures s'.nodes[p].local.installing.value.session == e.msg.session && p == e.msg.session.coordinator
  {
    AcceptanceCompletes(s, s', p, e);
  }

  lemma OtherSessionsKept(n: Local, n': Local, id: SessionId, k: SessionId)
    requires n'.sessions.Keys == n.sessions.Keys && k != id
    requires forall j :: j in n.sessions && j != id ==> n'.sessions[j] == n.sessions[j]
    ensures Complete(n, k) <==> Complete(n', k)
  {
    assert k in n.sessions.Keys <==> k in n'.sessions.Keys;
  }

  lemma AcceptanceKeepsInstalls(s: System, s': System, p: PeerId, e: Envelope)
    requires TakesAcceptance(s, s', p, e)
    ensures InstallsSound(s', p)
    ensures JoinsGrow(s.nodes[p].local, s'.nodes[p].local)
  {
    var n, n' := s.nodes[p].local, s'.nodes[p].local;
    FreeLoopJoins(n, n');
    if p == e.msg.session.coordinator {
      NewAcceptanceNotInstalled(s, s', p, e);
    }
    forall k: SessionId | k.coordinator == p && HasInstalled(n, k)
      ensures Complete(n, k) ==> Complete(n', k)
    {
      OtherSessionsKept(n, n', e.msg.session, k);
    }
    EarlierInstallsKept(s, s', p);
    if n'.installing.Some? {
      AcceptanceInstall(s, s', p, e);
    }
  }

  lemma AcceptanceKeepsComplete(s: System, s': System, p: PeerId, e: Envelope)
    requires TakesAcceptance(s, s', p, e)
    ensures CompleteJoined(s', p)
  {
    var n, n' := s.nodes[p].local, s'.nodes[p].local;
    FreeLoopJoins(n, n');
    forall k: SessionId | k.coordinator == p && Complete(n', k)
      ensures Joined(n', k)
    {
      if k != e.msg.session {
        OtherSessionsKept(n, n', e.msg.session, k);
        assert Joined(n, k);
      }
    }
  }

  lemma AcceptanceStep(s: System, s': System, p: PeerId, e: Envelope)
    requires TakesAcceptance(s, s', p, e)
    ensures StepSound(s, s', p)
  {
    AcceptanceKeepsSessions(s, s', p, e);
    AcceptanceKeepsInstalls(s, s', p, e);
    AcceptanceKeepsComplete(s, s', p, e);
  }

  lemma InvOfNode(s: System, p: PeerId)
    requires Inv(s) && p in s.nodes
    ensures NodeSound(s, p) && SessionsOf(s, p) && PublishedSound(s, p)
  {
  }

  lemma SentIsSound(s: System, e: Envelope)
    requires Inv(s) && e in s.sent
    ensures EnvelopeSound(s, e) && SentSound(s, e)
  {
    assert PublishedSound(s, e.source);
  }

  /** A free event loop has installed whatever its node has joined, so what it lets go may be sent. */
  lemma EmitStep(s: System, a: Step)
    requires Enabled(s, a) && a.Emit? && NodeSound(s, a.p) && SessionsOf(s, a.p) && PublishedSound(s, a.p)
    ensures StepSound(s, Apply(s, a), a.p)
  {
    var s' := Apply(s, a);
    UnchangedNodeKept(s, s', a.p);
    assert EnvelopeSound(s, a.e);
  }

  lemma StepIsSound(s: System, a: Step)
    requires Inv(s) && Enabled(s, a)
    ensures StepSound(s, Apply(s, a), a.p)
  {
    InvOfNode(s, a.p);
    match a
    case PeerUp(_, _) => PeersStep(s, a);
    case PeerDown(_, _) => PeersStep(s, a);
    case Assign(p, now) =>
      NewSessionId(s, p, now);
      NothingSeenYet(s, p, SessionId(p, now));
      AssignStep(s, a);
    case TakeLock(_) => InstallStep(s, a);
    case Emit(_, _) => EmitStep(s, a);
    case Deliver(_, e, _) =>
      SentIsSound(s, e);
      if e.msg.Request? {
        assert RequestSound(s, e.msg.session);
        RequestEffect(s, a);
        RequestStep(s, Apply(s, a), a.p, e);
      } else {
        AcceptanceEffect(s, a);
        AcceptanceStep(s, Apply(s, a), a.p, e);
      }
  }

  lemma StepKeepsInv(s: System, a: Step)
    requires Inv(s) && Enabled(s, a)
    ensures Inv(Apply(s, a))
  {
    StepIsSound(s, a);
    StepByGrowth(s, Apply(s, a), a.p);
  }

  lemma {:induction false} RunKeepsInv(s: System, steps: seq<Step>)
    requires Inv(s) && Runs(s, steps)
    ensures Inv(After(s, steps))
    decreases |steps|
  {
    if steps != [] {
      StepKeepsInv(s, steps[0]);
      RunKeepsInv(Apply(s, steps[0]), steps[1..]);
    }
  }

  lemma ReachableInv(s: System)
    requires Reachable(s)
    ensures Inv(s)
  {
    var s0, steps :| IsInitial(s0) && Runs(s0, steps) && s == After(s0, steps);
    InvInitial(s0);
    RunKeepsInv(s0, steps);
  }
}

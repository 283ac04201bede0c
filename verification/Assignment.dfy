/** What one node does in the assignment handshake: the shared state of event loop and RPC server, the handlers
    that overwrite it, and the facts that hold whatever messages and events arrive. */
module Assignment {
  import opened Basics
  import opened Roster

  /** `"{peer}-{seconds}"`. */
  datatype SessionId = SessionId(coordinator: PeerId, seconds: nat)

  datatype AssignmentMessage =
    | Request(coordinator: PeerId, assignments: map<PeerId, nat>, session: SessionId)
    | Acceptance(peer: PeerId, index: nat, session: SessionId)

  // ---------------------------------------------------------------------------
  // Sessions
  // ---------------------------------------------------------------------------

  datatype SessionInfo = SessionInfo(session: SessionId, coordinator: PeerId, assignments: map<PeerId, nat>,
                                     acceptances: map<PeerId, bool>, totalNodes: nat)
  {
    function AcceptanceCount(): nat {
      |set p | p in acceptances && acceptances[p]|
    }

    /** The subtraction is on an unsigned machine integer, so it must not go below zero. */
    predicate AllAccepted()
      requires totalNodes >= 1
    {
      |acceptances| == totalNodes - 1 && forall p :: p in acceptances ==> acceptances[p]
    }

    predicate Sound() {
      totalNodes == |assignments| >= 1 && forall p :: p in acceptances ==> acceptances[p]
    }
  }

  function NewSession(session: SessionId, coordinator: PeerId, assignments: map<PeerId, nat>): SessionInfo {
    SessionInfo(session, coordinator, assignments, map[], |assignments|)
  }

  lemma SessionArithmetic(info: SessionInfo)
    requires info.Sound()
    ensures info.AcceptanceCount() == |info.acceptances|
    ensures info.AllAccepted() <==> info.AcceptanceCount() == info.totalNodes - 1
  {
    assert (set p | p in info.acceptances && info.acceptances[p]) == info.acceptances.Keys;
  }

  // ---------------------------------------------------------------------------
  // A node
  // ---------------------------------------------------------------------------

  /** An orchestrator installation: for which session, with which roster. */
  datatype Install = Install(session: SessionId, party: Party)

  /** `installing` is set between the moment a handler has decided to install an orchestrator and the moment it
      gets the orchestrator lock; the event loop handles nothing else meanwhile. `installed` lists every
      installation, the current one last. */
  datatype Local = Local(
    id: PeerId,
    peers: seq<PeerId>,
    peerCount: nat,
    sessions: map<SessionId, SessionInfo>,
    current: Option<SessionId>,
    installing: Option<Install>,
    installed: seq<Install>)

  function NewLocal(id: PeerId): Local {
    Local(id, [], 0, map[], None, None, [])
  }

  /** A peer identified itself. */
  function OnIdentify(n: Local, q: PeerId): Local {
    if q == n.id || q in n.peers then n
    else n.(peers := n.peers + [q], peerCount := n.peerCount + 1)
  }

  /** `Vec::retain`. */
  function Without(peers: seq<PeerId>, q: PeerId): seq<PeerId> {
    if peers == [] then []
    else if peers[0] == q then Without(peers[1..], q)
    else [peers[0]] + Without(peers[1..], q)
  }

  /** A connection closed; the counter is decremented with saturation. */
  function OnClosed(n: Local, q: PeerId): Local {
    n.(peers := Without(n.peers, q), peerCount := if n.peerCount == 0 then 0 else n.peerCount - 1)
  }

  /** The coordinator gets 0, the j-th of the first k listed peers gets j + 1. */
  function IndicesUpTo(coordinator: PeerId, peers: seq<PeerId>, k: nat): map<PeerId, nat>
    requires k <= |peers|
  {
    if k == 0 then map[coordinator := 0] else IndicesUpTo(coordinator, peers, k - 1)[peers[k - 1] := k]
  }

  function Indices(coordinator: PeerId, peers: seq<PeerId>): map<PeerId, nat> {
    IndicesUpTo(coordinator, peers, |peers|)
  }

  /** `assign_peer_indices`: numbers the listed peers, stores the session and broadcasts the request. */
  function OnAssign(n: Local, now: nat): (Local, AssignmentMessage) {
    var session := SessionId(n.id, now);
    var assignments := Indices(n.id, n.peers);
    (n.(sessions := n.sessions[session := NewSession(session, n.id, assignments)], current := Some(session)),
     Request(n.id, assignments, session))
  }

  /** A request arrives. `publishOk` says whether the gossip layer takes the acceptance; only then an
      orchestrator is installed. */
  ghost function OnRequest(n: Local, m: AssignmentMessage, publishOk: bool): (Local, Option<AssignmentMessage>)
    requires m.Request?
  {
    if n.id !in m.assignments then (n, None)
    else
      var n1 := n.(current := Some(m.session),
                   sessions := if m.session in n.sessions then n.sessions
                               else n.sessions[m.session := NewSession(m.session, m.coordinator, m.assignments)]);
      if m.coordinator == n.id || !publishOk then (n1, None)
      else (n1.(installing := Some(Install(m.session, RosterOf(m.assignments)))),
            Some(Acceptance(n.id, m.assignments[n.id], m.session)))
  }

  function Accept(info: SessionInfo, peer: PeerId): SessionInfo {
    info.(acceptances := info.acceptances[peer := true])
  }

  ghost predicate SessionsSound(n: Local) {
    forall id :: id in n.sessions ==> n.sessions[id].Sound()
  }

  /** An acceptance arrives; the one that completes a known session makes the node install an orchestrator. */
  ghost function OnAcceptance(n: Local, m: AssignmentMessage): Local
    requires m.Acceptance? && SessionsSound(n)
  {
    if m.session !in n.sessions then n
    else
      var info := Accept(n.sessions[m.session], m.peer);
      var n1 := n.(sessions := n.sessions[m.session := info]);
      if info.AllAccepted() then n1.(installing := Some(Install(m.session, RosterOf(info.assignments))))
      else n1
  }

  /** The handler gets the orchestrator lock and replaces the orchestrator. */
  function FinishInstall(n: Local): Local {
    if n.installing.None? then n
    else n.(installed := n.installed + [n.installing.value], installing := None)
  }

  // ---------------------------------------------------------------------------
  // Facts about one node under arbitrary events and messages
  // ---------------------------------------------------------------------------

  datatype Event =
    | Identify(peer: PeerId)
    | Closed(peer: PeerId)
    | AssignCall(now: nat)
    | Incoming(msg: AssignmentMessage, publishOk: bool)
    | Installed

  ghost function OnEvent(n: Local, e: Event): Local
    requires SessionsSound(n)
  {
    match e
    case Identify(q) => OnIdentify(n, q)
    case Closed(q) => OnClosed(n, q)
    case AssignCall(now) => OnAssign(n, now).0
    case Incoming(m, ok) => if m.Request? then OnRequest(n, m, ok).0 else OnAcceptance(n, m)
    case Installed => FinishInstall(n)
  }

  predicate NoDuplicates(peers: seq<PeerId>) {
    forall i, j :: 0 <= i < j < |peers| ==> peers[i] != peers[j]
  }

  predicate PeersSound(n: Local) {
    NoDuplicates(n.peers) && n.id !in n.peers && n.peerCount <= |n.peers|
  }

  lemma {:induction false} WithoutSound(peers: seq<PeerId>, q: PeerId)
    requires NoDuplicates(peers)
    ensures NoDuplicates(Without(peers, q))
    ensures forall p :: p in Without(peers, q) <==> p in peers && p != q
    ensures |Without(peers, q)| == |peers| - (if q in peers then 1 else 0)
  {
    if peers != [] {
      WithoutSound(peers[1..], q);
      assert forall p :: p in peers <==> p == peers[0] || p in peers[1..];
      assert peers[0] !in peers[1..];
      assert peers[0] !in Without(peers[1..], q);
    }
  }

  lemma EventKeepsSound(n: Local, e: Event)
    requires SessionsSound(n) && PeersSound(n)
    ensures SessionsSound(OnEvent(n, e)) && PeersSound(OnEvent(n, e)) && OnEvent(n, e).id == n.id
  {
    match e
    case Closed(q) => WithoutSound(n.peers, q);
    case AssignCall(now) => IndicesContainCoordinator(n.id, n.peers);
    case Incoming(m, _) =>
      if m.Request? && n.id in m.assignments {
        assert m.assignments.Keys != {};
      }
    case _ =>
  }

  lemma {:induction false} IndicesUpToContain(c: PeerId, peers: seq<PeerId>, k: nat)
    requires k <= |peers|
    ensures c in IndicesUpTo(c, peers, k)
  {
    if k > 0 {
      IndicesUpToContain(c, peers, k - 1);
    }
  }

  lemma IndicesContainCoordinator(c: PeerId, peers: seq<PeerId>)
    ensures c in Indices(c, peers) && |Indices(c, peers)| >= 1
  {
    IndicesUpToContain(c, peers, |peers|);
    assert Indices(c, peers).Keys != {};
  }

  ghost function AfterEvents(n: Local, events: seq<Event>): (n': Local)
    requires SessionsSound(n) && PeersSound(n)
    ensures SessionsSound(n') && PeersSound(n') && n'.id == n.id
    decreases |events|
  {
    if events == [] then n
    else EventKeepsSound(n, events[0]); AfterEvents(OnEvent(n, events[0]), events[1..])
  }

  /** Whatever assignment messages a node receives, honest or not, and whatever peers come and go: the session
      arithmetic never underflows and counts what it should, and the peer list stays free of duplicates and of
      the node itself, with the peer counter never ahead of it. */
  lemma NodeAlwaysSound(id: PeerId, events: seq<Event>, session: SessionId, target: nat)
    ensures var n := AfterEvents(NewLocal(id), events);
            && (session in n.sessions ==>
                  var info := n.sessions[session];
                  && info.totalNodes == |info.assignments| >= 1
                  && info.AcceptanceCount() == |info.acceptances|
                  && (info.AllAccepted() <==> info.AcceptanceCount() == info.totalNodes - 1))
            && NoDuplicates(n.peers) && id !in n.peers
            && (HaveSufficientPeers(n, target) ==> |n.peers| >= target)
  {
    var n := AfterEvents(NewLocal(id), events);
    if session in n.sessions {
      SessionArithmetic(n.sessions[session]);
    }
  }

  predicate HaveSufficientPeers(n: Local, target: nat) {
    n.peerCount >= target
  }

  /** The event closes a connection to a peer that is not listed although others are. */
  predicate Strays(n: Local, e: Event) {
    e.Closed? && e.peer !in n.peers && n.peers != []
  }

  ghost predicate NeverStrays(n: Local, events: seq<Event>)
    requires SessionsSound(n) && PeersSound(n)
    decreases |events|
  {
    events == [] || (!Strays(n, events[0])
                     && (EventKeepsSound(n, events[0]); NeverStrays(OnEvent(n, events[0]), events[1..])))
  }

  ghost predicate CounterExact(n: Local, events: seq<Event>)
    requires SessionsSound(n) && PeersSound(n)
    decreases |events|
  {
    n.peerCount == |n.peers|
    && (events == [] || (EventKeepsSound(n, events[0]); CounterExact(OnEvent(n, events[0]), events[1..])))
  }

  /** The peer counter equals the length of the peer list all along exactly if no close event strays. */
  lemma {:induction false} CounterExactIffNoStray(n: Local, events: seq<Event>)
    requires SessionsSound(n) && PeersSound(n) && n.peerCount == |n.peers|
    ensures CounterExact(n, events) <==> NeverStrays(n, events)
    decreases |events|
  {
    if events != [] {
      EventKeepsSound(n, events[0]);
      var n' := OnEvent(n, events[0]);
      if events[0].Closed? {
        WithoutSound(n.peers, events[0].peer);
      }
      assert n'.peerCount == |n'.peers| <==> !Strays(n, events[0]);
      if n'.peerCount == |n'.peers| {
        CounterExactIffNoStray(n', events[1..]);
      } else {
        assert !CounterExact(n', events[1..]);
      }
    }
  }

  // ---------------------------------------------------------------------------
  // Dense indices
  // ---------------------------------------------------------------------------

  /** A bijection onto 0..n-1 with the coordinator at 0. */
  predicate Dense(coordinator: PeerId, assignments: map<PeerId, nat>) {
    && coordinator in assignments && assignments[coordinator] == 0
    && (forall p :: p in assignments ==> assignments[p] < |assignments|)
    && (forall p, q :: p in assignments && q in assignments && assignments[p] == assignments[q] ==> p == q)
    && (forall i :: 0 <= i < |assignments| ==> Taken(assignments, i))
  }

  predicate Taken(assignments: map<PeerId, nat>, i: nat) {
    exists p :: p in assignments && assignments[p] == i
  }

  lemma DenseExtends(c: PeerId, before: map<PeerId, nat>, q: PeerId)
    requires Dense(c, before) && q !in before
    ensures Dense(c, before[q := |before|]) && |before[q := |before|]| == |before| + 1
  {
    var all := before[q := |before|];
    assert all.Keys == before.Keys + {q} && |all.Keys| == |before.Keys| + 1;
    forall i | 0 <= i < |all|
      ensures Taken(all, i)
    {
      if i < |before| {
        assert Taken(before, i);
        var p :| p in before && before[p] == i;
        assert p in all && all[p] == i;
      } else {
        assert q in all && all[q] == i;
      }
    }
  }

  lemma DenseAlone(c: PeerId)
    ensures Dense(c, map[c := 0]) && |map[c := 0]| == 1
  {
    var only := map[c := 0];
    assert only.Keys == {c} && |only.Keys| == 1 && only[c] == 0;
    assert Taken(only, 0);
  }

  lemma {:induction false} IndicesUpToPeers(c: PeerId, peers: seq<PeerId>, k: nat, p: PeerId)
    requires k <= |peers| && p in IndicesUpTo(c, peers, k)
    ensures p == c || exists j :: 0 <= j < k && peers[j] == p
  {
    if k > 0 && p != peers[k - 1] {
      IndicesUpToPeers(c, peers, k - 1, p);
    }
  }

  lemma NextPeerIsNew(c: PeerId, peers: seq<PeerId>, k: nat)
    requires NoDuplicates(peers) && c !in peers && k < |peers|
    ensures peers[k] !in IndicesUpTo(c, peers, k)
  {
    if peers[k] in IndicesUpTo(c, peers, k) {
      IndicesUpToPeers(c, peers, k, peers[k]);
    }
  }

  lemma {:induction false} IndicesUpToDense(c: PeerId, peers: seq<PeerId>, k: nat)
    requires NoDuplicates(peers) && c !in peers && k <= |peers|
    ensures Dense(c, IndicesUpTo(c, peers, k)) && |IndicesUpTo(c, peers, k)| == k + 1
  {
    if k == 0 {
      DenseAlone(c);
    } else {
      IndicesUpToDense(c, peers, k - 1);
      NextPeerIsNew(c, peers, k - 1);
      DenseExtends(c, IndicesUpTo(c, peers, k - 1), peers[k - 1]);
    }
  }

  lemma {:induction false} IndicesUpToValues(c: PeerId, peers: seq<PeerId>, k: nat, j: nat)
    requires NoDuplicates(peers) && j < k <= |peers|
    ensures peers[j] in IndicesUpTo(c, peers, k) && IndicesUpTo(c, peers, k)[peers[j]] == j + 1
  {
    if j < k - 1 {
      IndicesUpToValues(c, peers, k - 1, j);
    }
  }

  /** A list without duplicates and without the coordinator is numbered densely, and nobody else is. */
  lemma IndicesDense(c: PeerId, peers: seq<PeerId>)
    requires NoDuplicates(peers) && c !in peers
    ensures Dense(c, Indices(c, peers)) && |Indices(c, peers)| == |peers| + 1
    ensures forall p :: p in Indices(c, peers) <==> p == c || p in peers
  {
    IndicesUpToDense(c, peers, |peers|);
    forall p | p in Indices(c, peers)
      ensures p == c || p in peers
    {
      IndicesUpToPeers(c, peers, |peers|, p);
    }
    IndicesContainCoordinator(c, peers);
    forall p | p in peers
      ensures p in Indices(c, peers)
    {
      var j :| 0 <= j < |peers| && peers[j] == p;
      IndicesUpToValues(c, peers, |peers|, j);
    }
  }

  /** The numbering loop, in place on the map. */
  method AssignIndices(coordinator: PeerId, peers: seq<PeerId>) returns (assignments: map<PeerId, nat>)
    requires NoDuplicates(peers) && coordinator !in peers
    ensures assignments == Indices(coordinator, peers) && Dense(coordinator, assignments)
    ensures forall k :: 0 <= k < |peers| ==> peers[k] in assignments && assignments[peers[k]] == k + 1
  {
    assignments := map[coordinator := 0];
    for k := 0 to |peers|
      invariant assignments == IndicesUpTo(coordinator, peers, k)
    {
      assignments := assignments[peers[k] := k + 1];
    }
    IndicesDense(coordinator, peers);
    forall k | 0 <= k < |peers|
      ensures peers[k] in assignments && assignments[peers[k]] == k + 1
    {
      IndicesUpToValues(coordinator, peers, |peers|, k);
    }
  }
}

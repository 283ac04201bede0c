/** The assignment handshake of N nodes over gossip.

    Publishing only queues a message at its own node. The queue is emptied by the node's event loop, between two
    handlers; what it has sent may reach each node once, in any order, late or never, and never its own publisher.
    A peer handles a request in two steps: it publishes its acceptance, then it waits for the orchestrator lock
    and installs its orchestrator; its event loop does nothing else in between, but RPC calls, other nodes and the
    coordinator go on. */
module Handshake {
  import opened Basics
  import opened Assignment

  /** A message as gossip tells it from others, by its bytes. A request holds a hash map, whose entries come in any
      order, so repeating one may make other bytes: another copy. An acceptance has one form only. */
  datatype Envelope = Envelope(source: PeerId, msg: AssignmentMessage, copy: nat := 0)

  /** A node, the messages its event loop has taken from gossip, those it has ever published, and its last assign
      call's clock reading. */
  datatype Peer = Peer(local: Local, seen: set<Envelope>, published: set<Envelope>, lastAssign: int)

  /** `requests` records the assignment of every session ever created. */
  datatype System = System(
    nodes: map<PeerId, Peer>,
    sent: set<Envelope>,
    requests: map<SessionId, map<PeerId, nat>>)

  datatype Step =
    | PeerUp(p: PeerId, q: PeerId)
    | PeerDown(p: PeerId, q: PeerId)
    | Assign(p: PeerId, now: nat)
    | Deliver(p: PeerId, e: Envelope, publishOk: bool)
    | TakeLock(p: PeerId)
    | Emit(p: PeerId, e: Envelope)

  ghost predicate IsInitial(s: System) {
    && s.sent == {} && s.requests == map[]
    && forall p :: p in s.nodes ==> s.nodes[p] == Peer(NewLocal(p), {}, {}, -1)
  }

  /** The event loop of `p` is free to take its next event. */
  predicate LoopFree(s: System, p: PeerId) {
    p in s.nodes && s.nodes[p].local.installing.None?
  }

  ghost predicate Enabled(s: System, a: Step) {
    match a
    case PeerUp(p, _) => LoopFree(s, p)
    case PeerDown(p, _) => LoopFree(s, p)
    case Assign(p, now) => p in s.nodes && now > s.nodes[p].lastAssign
    case Deliver(p, e, _) =>
      LoopFree(s, p) && SessionsSound(s.nodes[p].local) && e in s.sent && e !in s.nodes[p].seen && e.source != p
    case TakeLock(p) => p in s.nodes && s.nodes[p].local.installing.Some?
    case Emit(p, e) => LoopFree(s, p) && e in s.nodes[p].published
  }

  function Put(s: System, p: PeerId, local: Local): System
    requires p in s.nodes
  {
    s.(nodes := s.nodes[p := s.nodes[p].(local := local)])
  }

  function Publish(s: System, p: PeerId, m: Option<AssignmentMessage>): System
    requires p in s.nodes
  {
    if m.None? then s
    else s.(nodes := s.nodes[p := s.nodes[p].(published := s.nodes[p].published + {Envelope(p, m.value)})])
  }

  function See(s: System, p: PeerId, e: Envelope): System
    requires p in s.nodes
  {
    s.(nodes := s.nodes[p := s.nodes[p].(seen := s.nodes[p].seen + {e})])
  }

  function DoAssign(s: System, p: PeerId, now: nat): System
    requires p in s.nodes
  {
    var (local, request) := OnAssign(s.nodes[p].local, now);
    System(s.nodes[p := Peer(local, s.nodes[p].seen, s.nodes[p].published + {Envelope(p, request)}, now)],
           s.sent,
           s.requests[request.session := request.assignments])
  }

  ghost function DoDeliver(s: System, p: PeerId, e: Envelope, publishOk: bool): System
    requires p in s.nodes && SessionsSound(s.nodes[p].local)
  {
    var n := s.nodes[p].local;
    match e.msg
    case Request(_, _, _) =>
      var (local, acceptance) := OnRequest(n, e.msg, publishOk);
      Publish(Put(See(s, p, e), p, local), p, acceptance)
    case Acceptance(_, _, _) => Put(See(s, p, e), p, OnAcceptance(n, e.msg))
  }

  ghost function Apply(s: System, a: Step): System
    requires Enabled(s, a)
  {
    match a
    case PeerUp(p, q) => Put(s, p, OnIdentify(s.nodes[p].local, q))
    case PeerDown(p, q) => Put(s, p, OnClosed(s.nodes[p].local, q))
    case Assign(p, now) => DoAssign(s, p, now)
    case Deliver(p, e, publishOk) => DoDeliver(s, p, e, publishOk)
    case TakeLock(p) => Put(s, p, FinishInstall(s.nodes[p].local))
    case Emit(_, e) => s.(sent := s.sent + {e})
  }

  ghost predicate Runs(s: System, steps: seq<Step>)
    decreases |steps|
  {
    steps == [] || (Enabled(s, steps[0]) && Runs(Apply(s, steps[0]), steps[1..]))
  }

  ghost function After(s: System, steps: seq<Step>): System
    requires Runs(s, steps)
    decreases |steps|
  {
    if steps == [] then s else After(Apply(s, steps[0]), steps[1..])
  }

  ghost predicate Reachable(s: System) {
    exists s0, steps :: IsInitial(s0) && Runs(s0, steps) && s == After(s0, steps)
  }

  // ---------------------------------------------------------------------------
  // Vocabulary of the theorems
  // ---------------------------------------------------------------------------

  predicate HasInstalled(n: Local, id: SessionId) {
    exists i :: 0 <= i < |n.installed| && n.installed[i].session == id
  }

  predicate IsInstalling(n: Local, id: SessionId) {
    n.installing.Some? && n.installing.value.session == id
  }

  /** The node has decided to install an orchestrator for the session, and has or is about to. */
  predicate Joined(n: Local, id: SessionId) {
    HasInstalled(n, id) || IsInstalling(n, id)
  }

  /** The only acceptance `p` ever publishes for the session. */
  function AcceptanceOf(s: System, p: PeerId, id: SessionId): Envelope
    requires id in s.requests && p in s.requests[id]
  {
    Envelope(p, Acceptance(p, s.requests[id][p], id))
  }

  function RequestOf(s: System, id: SessionId): Envelope
    requires id in s.requests
  {
    Envelope(id.coordinator, Request(id.coordinator, s.requests[id], id))
  }
}

/** A run in which two nodes hold different rosters for one session id: a node repeats its assign call within the
    second, after another peer has come. */
module TwoRosters {
  import opened Basics
  import opened Roster
  import opened Assignment
  import opened Handshake
  import opened HandshakeProof
  import opened HandshakeTheorems
  import opened SessionCompletion
  import opened SameSecond

  function Id(): SessionId {
    SessionId(0, 0)
  }

  function Three(): System {
    System(map q | q in {0, 1, 2} :: Peer(NewLocal(q), {}, {}, -1), {}, map[])
  }

  function OfTwo(): map<PeerId, nat> {
    map[0 := 0, 1 := 1]
  }

  function OfThree(): map<PeerId, nat> {
    map[0 := 0, 1 := 1, 2 := 2]
  }

  lemma Numberings()
    ensures Indices(0, [1]) == OfTwo() && Indices(0, [1, 2]) == OfThree()
  {
    assert IndicesUpTo(0, [1], 0) == map[0 := 0];
    assert IndicesUpTo(0, [1, 2], 0) == map[0 := 0];
    assert IndicesUpTo(0, [1, 2], 1) == IndicesUpTo(0, [1, 2], 0)[1 := 1];
  }

  /** Node 0 knows node 1. */
  lemma Acquainted() returns (s: System)
    ensures Reachable(s) && s.requests == map[] && s.nodes.Keys == {0, 1, 2}
    ensures forall q :: q in s.nodes ==> LoopFree(s, q)
    ensures s.nodes[0] == Peer(NewLocal(0).(peers := [1], peerCount := 1), {}, {}, -1)
    ensures s.nodes[2] == Peer(NewLocal(2), {}, {}, -1)
  {
    var s0 := Three();
    assert Runs(s0, []) && After(s0, []) == s0 && IsInitial(s0);
    ReachableStep(s0, PeerUp(0, 1));
    s := Apply(s0, PeerUp(0, 1));
    assert s.nodes[0].local.peers == [1];
  }

  /** Node 1 has accepted the first request and installed; node 0 has not heard of it yet, and node 2 has come. */
  ghost predicate FirstSession(s: System) {
    && Reachable(s) && s.nodes.Keys == {0, 1, 2} && Id() in s.requests && s.requests[Id()] == OfTwo()
    && (forall q :: q in s.nodes ==> LoopFree(s, q))
    && HasInstalled(s.nodes[1].local, Id())
    && Envelope(1, Acceptance(1, 1, Id())) in s.sent
    && s.nodes[0].local.id == 0 && s.nodes[0].local.peers == [1, 2] && s.nodes[0].local.installed == []
    && s.nodes[0].seen == {}
    && s.nodes[0].local.sessions.Keys == {Id()}
    && s.nodes[2] == Peer(NewLocal(2), {}, {}, -1)
  }

  lemma InstalledIfAccepted(s: System, id: SessionId, q: PeerId)
    requires Reachable(s) && id in s.requests && q in s.requests[id] && LoopFree(s, q)
    requires AcceptanceOf(s, q, id) in s.nodes[q].published
    ensures HasInstalled(s.nodes[q].local, id)
  {
    ReachableInv(s);
    InvOfNode(s, q);
    assert EnvelopeSound(s, AcceptanceOf(s, q, id));
  }

  /** Node 0 has numbered node 1. */
  predicate Numbered(s: System) {
    && s.nodes.Keys == {0, 1, 2} && s.requests == map[Id() := OfTwo()] && s.nodes[2] == Peer(NewLocal(2), {}, {}, -1)
    && s.nodes[0].seen == {}
    && var n := s.nodes[0].local;
       n.id == 0 && n.peers == [1] && n.installed == [] && n.installing.None? && n.sessions.Keys == {Id()}
  }

  lemma FirstNumbered() returns (s: System)
    ensures Reachable(s) && Numbered(s) && LoopFree(s, 1)
    ensures RequestOf(s, Id()) !in s.nodes[1].seen
  {
    var s0 := Acquainted();
    Numberings();
    FreshIsUnseen(s0, 0, 0);
    ReachableStep(s0, Assign(0, 0));
    s := DoAssign(s0, 0, 0);
  }

  lemma FirstAccepted() returns (s: System)
    ensures Reachable(s) && Numbered(s) && LoopFree(s, 1) && HasInstalled(s.nodes[1].local, Id())
    ensures AcceptanceOf(s, 1, Id()) in s.nodes[1].published
  {
    var s1 := FirstNumbered();
    var s2 := RequestAccepted(s1, Id(), 1);
    s := LockTaken(s2, 1);
    InstalledIfAccepted(s, Id(), 1);
  }

  lemma FirstSessionReached() returns (s: System)
    ensures FirstSession(s)
  {
    var s1 := FirstAccepted();
    var s2 := EmitTaken(s1, 1, AcceptanceOf(s1, 1, Id()));
    ReachableStep(s2, PeerUp(0, 2));
    s := Apply(s2, PeerUp(0, 2));
    assert s.nodes[0].local.peers == [1, 2];
  }

  // ---------------------------------------------------------------------------
  // The second session
  // ---------------------------------------------------------------------------

  function SecondRequest(): Envelope {
    Envelope(0, Request(0, OfThree(), Id()), 1)
  }

  function Accepts(q: PeerId, index: nat): Envelope {
    Envelope(q, Acceptance(q, index, Id()))
  }

  /** Node 2 has not heard of anything, and node 0 has published the second request. */
  predicate BeforeJoin(r: System) {
    && LoopFree(r, 0) && SecondRequest() in r.nodes[0].published
    && 2 in r.nodes && r.nodes[2] == Peer(NewLocal(2), {}, {}, -1)
  }

  /** Node 2 has taken the second request, installed and sent its acceptance; nothing else has happened. */
  ghost predicate Joined2(r: System, r': System) {
    && OnlyChanges(r, r', 2) && r.sent <= r'.sent && Accepts(2, 2) in r'.sent
    && LoopFree(r', 2) && r'.nodes[2].local.installed == [Install(Id(), RosterOf(OfThree()))]
  }

  lemma SecondJoins(r: System) returns (steps: seq<Step>, r': System)
    requires BeforeJoin(r)
    ensures Runs(r, steps) && After(r, steps) == r' && Joined2(r, r')
  {
    var first, r2 := SecondHeard(r);
    var second, r4 := SecondInstalls(r2);
    RunsConcatenate(r, first, second);
    steps, r' := first + second, r4;
  }

  /** Node 2 has taken the second request and published its acceptance. */
  ghost predicate Heard2(r: System, r': System) {
    && OnlyChanges(r, r', 2) && r.sent <= r'.sent
    && r'.nodes[2].local.installing == Some(Install(Id(), RosterOf(OfThree())))
    && r'.nodes[2].local.installed == [] && Accepts(2, 2) in r'.nodes[2].published
  }

  lemma SecondHeard(r: System) returns (steps: seq<Step>, r': System)
    requires BeforeJoin(r)
    ensures Runs(r, steps) && After(r, steps) == r' && Heard2(r, r')
  {
    var r1 := Apply(r, Emit(0, SecondRequest()));
    r' := JoinRequest(r1);
    steps := TwoSteps(r, Emit(0, SecondRequest()), r1, Deliver(2, SecondRequest(), true), r');
  }

  lemma SecondInstalls(r: System) returns (steps: seq<Step>, r': System)
    requires 2 in r.nodes && r.nodes[2].local.installing == Some(Install(Id(), RosterOf(OfThree())))
    requires r.nodes[2].local.installed == [] && Accepts(2, 2) in r.nodes[2].published
    ensures Runs(r, steps) && After(r, steps) == r' && Joined2(r, r')
  {
    var r1 := Installs(r, 2);
    r' := AcceptanceSent(r1);
    steps := TwoSteps(r, TakeLock(2), r1, Emit(2, Accepts(2, 2)), r');
  }

  lemma AcceptanceSent(r: System) returns (r': System)
    requires LoopFree(r, 2) && Accepts(2, 2) in r.nodes[2].published
    ensures Enabled(r, Emit(2, Accepts(2, 2))) && r' == Apply(r, Emit(2, Accepts(2, 2)))
    ensures r'.nodes == r.nodes && r.sent <= r'.sent && Accepts(2, 2) in r'.sent
  {
    r' := Apply(r, Emit(2, Accepts(2, 2)));
  }

  lemma TwoSteps(r: System, a: Step, r1: System, b: Step, r2: System) returns (steps: seq<Step>)
    requires Enabled(r, a) && r1 == Apply(r, a) && Enabled(r1, b) && r2 == Apply(r1, b)
    ensures Runs(r, steps) && After(r, steps) == r2
  {
    OneStep(r, a);
    RunExtends(r, [a], b);
    steps := [a] + [b];
  }

  lemma Installs(r: System, p: PeerId) returns (r': System)
    requires p in r.nodes && r.nodes[p].local.installed == []
    requires r.nodes[p].local.installing == Some(Install(Id(), RosterOf(OfThree())))
    ensures Enabled(r, TakeLock(p)) && r' == Apply(r, TakeLock(p))
    ensures OnlyChanges(r, r', p) && r'.sent == r.sent && r'.nodes[p].published == r.nodes[p].published
    ensures LoopFree(r', p) && r'.nodes[p].local.installed == [Install(Id(), RosterOf(OfThree()))]
  {
    r' := Apply(r, TakeLock(p));
  }

  lemma JoinRequest(r: System) returns (r': System)
    requires 2 in r.nodes && r.nodes[2] == Peer(NewLocal(2), {}, {}, -1) && SecondRequest() in r.sent
    ensures Enabled(r, Deliver(2, SecondRequest(), true)) && r' == Apply(r, Deliver(2, SecondRequest(), true))
    ensures OnlyChanges(r, r', 2) && r'.sent == r.sent
    ensures r'.nodes[2].local.installing == Some(Install(Id(), RosterOf(OfThree())))
    ensures r'.nodes[2].local.installed == [] && Accepts(2, 2) in r'.nodes[2].published
  {
    r' := Apply(r, Deliver(2, SecondRequest(), true));
    JoinAnswers();
  }

  lemma JoinAnswers()
    ensures var (n, m) := OnRequest(NewLocal(2), SecondRequest().msg, true);
            && n.installing == Some(Install(Id(), RosterOf(OfThree()))) && n.installed == []
            && m == Some(Accepts(2, 2).msg)
  {
  }

  // ---------------------------------------------------------------------------
  // The coordinator completes the second session with an answer to the first
  // ---------------------------------------------------------------------------

  /** Node 0 has stored the second session and both acceptances are under way to it. */
  predicate BeforeAnswers(r: System) {
    && LoopFree(r, 0) && r.nodes[0].seen == {} && r.nodes[0].local.installed == []
    && r.nodes[0].local.sessions == map[Id() := NewSession(Id(), 0, OfThree())]
    && Accepts(1, 1) in r.sent && Accepts(2, 2) in r.sent
  }

  function OneAnswer(): SessionInfo {
    Accept(NewSession(Id(), 0, OfThree()), 1)
  }

  lemma SizeOfThree()
    ensures |OfThree()| == 3 && NewSession(Id(), 0, OfThree()).Sound()
    ensures OneAnswer().Sound() && !OneAnswer().AllAccepted()
    ensures Accept(OneAnswer(), 2).Sound() && Accept(OneAnswer(), 2).AllAccepted()
  {
    assert OfThree().Keys == {0, 1, 2} && |OfThree().Keys| == |OfThree()|;
    assert OneAnswer().acceptances.Keys == {1} && |OneAnswer().acceptances.Keys| == |OneAnswer().acceptances|;
    var both := Accept(OneAnswer(), 2).acceptances;
    assert both.Keys == {1, 2} && |both.Keys| == |both|;
  }

  lemma FirstAnswer(r: System) returns (r': System)
    requires BeforeAnswers(r)
    ensures Enabled(r, Deliver(0, Accepts(1, 1), true)) && r' == Apply(r, Deliver(0, Accepts(1, 1), true))
    ensures OnlyChanges(r, r', 0) && r'.sent == r.sent && LoopFree(r', 0) && r'.nodes[0].seen == {Accepts(1, 1)}
    ensures r'.nodes[0].local.installed == [] && r'.nodes[0].local.sessions == map[Id() := OneAnswer()]
  {
    SizeOfThree();
    r' := Apply(r, Deliver(0, Accepts(1, 1), true));
  }

  lemma SecondAnswer(r: System) returns (r': System)
    requires LoopFree(r, 0) && r.nodes[0].seen == {Accepts(1, 1)} && Accepts(2, 2) in r.sent
    requires r.nodes[0].local.installed == [] && r.nodes[0].local.sessions == map[Id() := OneAnswer()]
    ensures Enabled(r, Deliver(0, Accepts(2, 2), true)) && r' == Apply(r, Deliver(0, Accepts(2, 2), true))
    ensures OnlyChanges(r, r', 0) && r'.nodes[0].local.installed == []
    ensures r'.nodes[0].local.installing == Some(Install(Id(), RosterOf(OfThree())))
  {
    SizeOfThree();
    r' := Apply(r, Deliver(0, Accepts(2, 2), true));
  }

  lemma Answers(r: System) returns (steps: seq<Step>, r': System)
    requires BeforeAnswers(r)
    ensures Runs(r, steps) && After(r, steps) == r' && OnlyChanges(r, r', 0)
    ensures r'.nodes[0].local.installed == [Install(Id(), RosterOf(OfThree()))]
  {
    var both, r2 := BothAnswers(r);
    r' := Installs(r2, 0);
    OneStep(r2, TakeLock(0));
    RunsConcatenate(r, both, [TakeLock(0)]);
    steps := both + [TakeLock(0)];
  }

  lemma BothAnswers(r: System) returns (steps: seq<Step>, r': System)
    requires BeforeAnswers(r)
    ensures Runs(r, steps) && After(r, steps) == r' && OnlyChanges(r, r', 0)
    ensures r'.nodes[0].local.installed == []
    ensures r'.nodes[0].local.installing == Some(Install(Id(), RosterOf(OfThree())))
  {
    var r1 := FirstAnswer(r);
    r' := SecondAnswer(r1);
    steps := TwoSteps(r, Deliver(0, Accepts(1, 1), true), r1, Deliver(0, Accepts(2, 2), true), r');
  }

  // ---------------------------------------------------------------------------
  // The whole run
  // ---------------------------------------------------------------------------

  lemma RepeatPrepares(s: System)
    requires FirstSession(s)
    ensures Repeated(Repeat(s, 0, 0)) && OnlyChanges(s, Repeat(s, 0, 0), 0)
  {
    Numberings();
  }

  /** Agreement needs the clock to advance between two assign calls. In this run it does not: node 1 has installed
      the roster of the first session, nodes 0 and 2 that of the second, all under one session id. */
  lemma RostersDiffer() returns (s: System, steps: seq<Step>)
    ensures Reachable(s) && {0, 1, 2} <= s.nodes.Keys && Runs(Repeat(s, 0, 0), steps)
    ensures var s' := After(Repeat(s, 0, 0), steps);
            && {0, 1, 2} <= s'.nodes.Keys
            && InstalledWith(s'.nodes[1].local, OfTwo())
            && InstalledWith(s'.nodes[0].local, OfThree()) && InstalledWith(s'.nodes[2].local, OfThree())
    ensures forall x: Party, y: Party :: IsRoster(x, OfTwo()) && IsRoster(y, OfThree()) ==> x != y
  {
    s := FirstSessionReached();
    RepeatPrepares(s);
    var s': System;
    steps, s' := SecondSession(Repeat(s, 0, 0));
    InstalledRoster(s);
    forall x: Party, y: Party | IsRoster(x, OfTwo()) && IsRoster(y, OfThree())
      ensures x != y
    {
      TwoIsNotThree(x, y);
    }
  }

  lemma TwoIsNotThree(x: Party, y: Party)
    requires IsRoster(x, OfTwo()) && IsRoster(y, OfThree())
    ensures x != y
  {
    assert 2 in OfThree() && 2 !in OfTwo();
    assert 2 in y.assignments && 2 !in x.assignments;
  }

  /** Node 0 has just stored the second session. */
  predicate Repeated(r: System) {
    && BeforeJoin(r) && r.nodes[0].seen == {} && r.nodes[0].local.installed == []
    && r.nodes[0].local.sessions == map[Id() := NewSession(Id(), 0, OfThree())]
    && Accepts(1, 1) in r.sent && 1 in r.nodes
  }

  lemma SecondSession(r: System) returns (steps: seq<Step>, r': System)
    requires Repeated(r)
    ensures Runs(r, steps) && After(r, steps) == r'
    ensures r'.nodes.Keys == r.nodes.Keys && r'.nodes[1] == r.nodes[1]
    ensures InstalledWith(r'.nodes[0].local, OfThree()) && InstalledWith(r'.nodes[2].local, OfThree())
  {
    var first, r1 := SecondJoins(r);
    JoinLeavesTheRest(r, r1);
    var second, r2 := Answers(r1);
    RunsConcatenate(r, first, second);
    steps, r' := first + second, r2;
    FirstInstalled(r1.nodes[2].local);
    FirstInstalled(r2.nodes[0].local);
  }

  lemma JoinLeavesTheRest(r: System, r1: System)
    requires Repeated(r) && Joined2(r, r1)
    ensures BeforeAnswers(r1) && r1.nodes[1] == r.nodes[1] && r1.nodes.Keys == r.nodes.Keys
  {
  }

  lemma FirstInstalled(n: Local)
    requires n.installed == [Install(Id(), RosterOf(OfThree()))]
    ensures InstalledWith(n, OfThree())
  {
    assert n.installed[0].session == Id() && IsRoster(n.installed[0].party, OfThree());
  }

  /** The node has installed an orchestrator for the session with the roster of `a`. */
  ghost predicate InstalledWith(n: Local, a: map<PeerId, nat>) {
    exists i :: 0 <= i < |n.installed| && n.installed[i].session == Id() && IsRoster(n.installed[i].party, a)
  }

  lemma InstalledRoster(s: System)
    requires FirstSession(s)
    ensures InstalledWith(s.nodes[1].local, OfTwo())
  {
    var n := s.nodes[1].local;
    var i :| 0 <= i < |n.installed| && n.installed[i].session == Id();
    InstalledRosterDense(s, 1, i);
  }
}

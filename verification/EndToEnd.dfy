/** From a delivered initiation to the task that works on it, across nodes: where every task comes from, which
    execution id it derives, and under which party index it runs, sends and receives. */
module EndToEnd {
  import opened Basics
  import opened Roster
  import opened Orchestration
  import opened OrchestrationProof
  import opened ExecutionIds
  import opened Uninterrupted
  import Assignment
  import Handshake
  import HandshakeTheorems
  import NodeRuntime
  import PartyIndices
  import Routing

  // ---------------------------------------------------------------------------
  // Where tasks come from
  // ---------------------------------------------------------------------------

  /** What the message asks of node `me`: the aux party index comes from the message, the others from the
      orchestrator's own map. */
  predicate JobFor(job: Job, me: PeerId, assignments: map<PeerId, u16>, msg: CoordinationMessage) {
    match msg
    case InitiateAux(_, _, given, time) => me in given && job == AuxJob(given[me], AUX_TOTAL_PARTIES, Positive(time))
    case InitiateKeygen(_, threshold, total, time) =>
      && me in assignments && job.KeygenJob? && job.partyId == assignments[me]
      && job.total == total && job.threshold == threshold && 0 < threshold <= total && job.timestamp == time
    case InitiateSigning(_, message, signers, time) =>
      && me in assignments && job.SigningJob? && job.partyId == assignments[me]
      && job.signers == signers && job.message == message && job.partyId in signers && job.timestamp == time
    case _ => false
  }

  function Positive(time: Seconds): u64 {
    if time < 0 then 0 else time
  }

  predicate ComesFrom(t: Task, me: PeerId, assignments: map<PeerId, u16>, a: Action) {
    && a.DoDeliver? && a.msg.Initiates() && a.msg.timestamp >= 0
    && t.initiator == a.from && t.executionId == a.msg.executionId && JobFor(t.job, me, assignments, a.msg)
  }

  ghost predicate HasSource(s: Orch, past: seq<Action>, i: nat)
    requires i < |s.tasks|
  {
    exists a :: a in past && ComesFrom(s.tasks[i], s.me, s.partyAssignments, a)
  }

  /** The running call has been delivered, and past the state write its parameters have been checked. */
  predicate CallSourced(s: Orch, past: seq<Action>) {
    s.handler.On? ==>
      && DoDeliver(s.handler.from, s.handler.msg) in past
      && (s.handler.Committed() && s.handler.msg.InitiateKeygen? ==>
            0 < s.handler.msg.threshold <= s.handler.msg.totalParties)
      && (s.handler.Committed() && s.handler.msg.InitiateSigning? ==>
            s.me in s.partyAssignments && s.partyAssignments[s.me] in s.handler.msg.signers)
  }

  ghost predicate Sourced(s: Orch, past: seq<Action>) {
    CallSourced(s, past) && forall i :: 0 <= i < |s.tasks| ==> HasSource(s, past, i)
  }

  lemma StepKeepsCall(s: Orch, past: seq<Action>, a: Action)
    requires CallSourced(s, past) && Enabled(s, a)
    ensures CallSourced(Apply(s, a), past + [a])
  {
  }

  predicate SameStart(t: Task, t': Task) {
    t'.job == t.job && t'.initiator == t.initiator && t'.executionId == t.executionId
  }

  lemma HandlerKeepsJobs(s: Orch)
    requires HandlerReady(s)
    ensures |s.tasks| <= |HandlerWork(s).tasks| <= |s.tasks| + 1
    ensures forall i :: 0 <= i < |s.tasks| ==> HandlerWork(s).tasks[i] == s.tasks[i]
    ensures HandlerWork(s).me == s.me && HandlerWork(s).partyAssignments == s.partyAssignments
  {
  }

  lemma TaskKeepsJobs(s: Orch, i: nat)
    requires i < |s.tasks| && TaskCanStep(s.tasks[i])
    ensures |TaskStep(s, i).tasks| == |s.tasks|
    ensures forall j :: 0 <= j < |s.tasks| ==> SameStart(s.tasks[j], TaskStep(s, i).tasks[j])
    ensures TaskStep(s, i).me == s.me && TaskStep(s, i).partyAssignments == s.partyAssignments
  {
  }

  /** A step leaves what the existing tasks were started for as it is, and only the handler spawns one. */
  lemma StepKeepsJobs(s: Orch, a: Action)
    requires Enabled(s, a)
    ensures |s.tasks| <= |Apply(s, a).tasks| <= |s.tasks| + (if a.DoHandler? then 1 else 0)
    ensures forall i :: 0 <= i < |s.tasks| ==> SameStart(s.tasks[i], Apply(s, a).tasks[i])
    ensures Apply(s, a).me == s.me && Apply(s, a).partyAssignments == s.partyAssignments
  {
    match a
    case DoHandler => HandlerKeepsJobs(s);
    case DoTask(i) => TaskKeepsJobs(s, i);
    case _ =>
  }

  lemma SpawnedFromCall(s: Orch, past: seq<Action>)
    requires CallSourced(s, past) && HandlerReady(s) && |HandlerWork(s).tasks| > |s.tasks|
    ensures |HandlerWork(s).tasks| == |s.tasks| + 1
    ensures ComesFrom(HandlerWork(s).tasks[|s.tasks|], s.me, s.partyAssignments,
                      DoDeliver(s.handler.from, s.handler.msg))
  {
  }

  lemma StepKeepsSourced(s: Orch, past: seq<Action>, a: Action)
    requires Sourced(s, past) && Enabled(s, a)
    ensures Sourced(Apply(s, a), past + [a])
  {
    StepKeepsCall(s, past, a);
    var s' := Apply(s, a);
    StepKeepsJobs(s, a);
    forall i | 0 <= i < |s'.tasks|
      ensures HasSource(s', past + [a], i)
    {
      if i < |s.tasks| {
        assert SameStart(s.tasks[i], s'.tasks[i]);
        assert HasSource(s, past, i);
        var b :| b in past && ComesFrom(s.tasks[i], s.me, s.partyAssignments, b);
        assert b in past + [a] && ComesFrom(s'.tasks[i], s'.me, s'.partyAssignments, b);
      } else {
        assert a.DoHandler?;
        SpawnedFromCall(s, past);
        assert DoDeliver(s.handler.from, s.handler.msg) in past + [a];
      }
    }
  }

  lemma {:induction false} RunKeepsSourced(s: Orch, past: seq<Action>, acts: seq<Action>)
    requires Sourced(s, past) && Runs(s, acts)
    ensures Sourced(After(s, acts), past + acts)
    decreases |acts|
  {
    if acts == [] {
      assert past + acts == past;
    } else {
      StepKeepsSourced(s, past, acts[0]);
      RunKeepsSourced(Apply(s, acts[0]), past + [acts[0]], acts[1..]);
      assert past + [acts[0]] + acts[1..] == past + acts;
    }
  }

  /** Every task ever spawned works for an initiation that was delivered, with exactly its parameters. */
  lemma EveryTaskHasItsCall(s0: Orch, acts: seq<Action>, i: nat) returns (a: Action)
    requires IsNew(s0) && Runs(s0, acts) && i < |After(s0, acts).tasks|
    ensures a in acts && ComesFrom(After(s0, acts).tasks[i], s0.me, s0.partyAssignments, a)
  {
    RunKeepsSourced(s0, [], acts);
    RunKeepsIdentity(s0, acts);
    assert [] + acts == acts;
    var s := After(s0, acts);
    assert HasSource(s, acts, i);
    a :| a in acts && ComesFrom(s.tasks[i], s.me, s.partyAssignments, a);
  }

  // ---------------------------------------------------------------------------
  // Execution ids across nodes
  // ---------------------------------------------------------------------------

  /** What every party that processes the message puts into its id. */
  function FieldsOfMessage(msg: CoordinationMessage): Fields
    requires msg.Initiates() && msg.timestamp >= 0
  {
    match msg
    case InitiateAux(_, _, _, time) => Fields(NameOf(AuxPhase), AUX_TOTAL_PARTIES, time)
    case InitiateKeygen(_, _, total, time) => Fields(NameOf(KeygenPhase), total, time)
    case InitiateSigning(_, _, signers, time) => Fields(NameOf(SigningPhase), Cast(|signers|), time)
  }

  /** Tasks of any two nodes run under one id exactly if the messages they were started for agree in protocol,
      party count and second; in particular if it was the same message. */
  lemma TasksMeetExactly(s: Orch, acts: seq<Action>, i: nat, s': Orch, acts': seq<Action>, j: nat)
    returns (a: Action, b: Action)
    requires IsNew(s) && Runs(s, acts) && i < |After(s, acts).tasks|
    requires IsNew(s') && Runs(s', acts') && j < |After(s', acts').tasks|
    ensures a in acts && ComesFrom(After(s, acts).tasks[i], s.me, s.partyAssignments, a)
    ensures b in acts' && ComesFrom(After(s', acts').tasks[j], s'.me, s'.partyAssignments, b)
    ensures EidOf(After(s, acts).tasks[i].job) == EidOf(After(s', acts').tasks[j].job) <==>
              FieldsOfMessage(a.msg) == FieldsOfMessage(b.msg)
  {
    a := EveryTaskHasItsCall(s, acts, i);
    b := EveryTaskHasItsCall(s', acts', j);
    EncodeInjective(FieldsOf(After(s, acts).tasks[i].job), FieldsOf(After(s', acts').tasks[j].job));
  }

  // ---------------------------------------------------------------------------
  // One identity per node
  // ---------------------------------------------------------------------------

  /** The orchestrator a node installs. */
  function Installed(p: PeerId, x: Assignment.Install): Orch {
    New(p, x.party.participants, x.party.assignments)
  }

  ghost predicate HasInstall(s: Handshake.System, p: PeerId, x: Assignment.Install) {
    p in s.nodes && x in s.nodes[p].local.installed
  }

  /** The call is one that the RPC of a node with an orchestrator for the session has broadcast. */
  ghost predicate FromSession(s: Handshake.System, session: Assignment.SessionId, msg: CoordinationMessage) {
    exists p, x, r :: HasInstall(s, p, x) && x.session == session && msg == NodeRuntime.RpcMessage(Installed(p, x), r)
  }

  ghost predicate AuxCallsFromSession(s: Handshake.System, session: Assignment.SessionId, acts: seq<Action>) {
    forall a :: a in acts && a.DoDeliver? && a.msg.InitiateAux? ==> FromSession(s, session, a.msg)
  }

  lemma SameParty(s: Handshake.System, p: PeerId, x: Assignment.Install, q: PeerId, y: Assignment.Install)
    requires Handshake.Reachable(s) && HasInstall(s, p, x) && HasInstall(s, q, y) && x.session == y.session
    ensures x.party == y.party && p in x.party.assignments && q in x.party.assignments
    ensures x.session in s.requests && IsRoster(x.party, s.requests[x.session])
    ensures Assignment.Dense(x.session.coordinator, s.requests[x.session])
  {
    var i :| 0 <= i < |s.nodes[p].local.installed| && s.nodes[p].local.installed[i] == x;
    var j :| 0 <= j < |s.nodes[q].local.installed| && s.nodes[q].local.installed[j] == y;
    HandshakeTheorems.Agreement(s, p, i, q, j);
    HandshakeTheorems.InstalledRosterDense(s, p, i);
    HandshakeTheorems.InstalledRosterDense(s, q, j);
  }

  /** Whatever the node's orchestrator goes through, all its tasks run under the one index the session's roster
      gives the node, and that is the index the router filters by, provided the aux calls come from nodes of the
      same session. */
  lemma OneIdentity(s: Handshake.System, q: PeerId, x: Assignment.Install, acts: seq<Action>, i: nat, w: Routing.Wire)
    requires Handshake.Reachable(s) && HasInstall(s, q, x) && AuxCallsFromSession(s, x.session, acts)
    requires Runs(Installed(q, x), acts) && i < |After(Installed(q, x), acts).tasks|
    requires w.to.Some? && w.from in x.party.assignments
    ensures var o := After(Installed(q, x), acts);
            && q in o.partyAssignments && o.tasks[i].job.partyId == o.partyAssignments[q]
            && (Routing.Unwrap(q, o.partyAssignments, w).Some? <==> w.to.value == o.tasks[i].job.partyId)
  {
    var o0 := Installed(q, x);
    var a := EveryTaskHasItsCall(o0, acts, i);
    RunKeepsIdentity(o0, acts);
    SameParty(s, q, x, q, x);
    if a.msg.InitiateAux? {
      AuxCarriesRoster(s, q, x, a.msg);
    }
  }

  /** An aux call of the session carries the very map the node has stored. */
  lemma AuxCarriesRoster(s: Handshake.System, q: PeerId, x: Assignment.Install, msg: CoordinationMessage)
    requires Handshake.Reachable(s) && HasInstall(s, q, x) && FromSession(s, x.session, msg) && msg.InitiateAux?
    ensures msg.partyAssignments == x.party.assignments
  {
    var p, y, r :| HasInstall(s, p, y) && y.session == x.session
                   && msg == NodeRuntime.RpcMessage(Installed(p, y), r);
    SameParty(s, p, y, q, x);
  }

  /** A message a task of one node addresses to the party index of a task of another node reaches that node and
      no other, labelled with the sending task's party index, for up to 65536 nodes. */
  lemma TasksTalk(s: Handshake.System, p: PeerId, x: Assignment.Install, acts: seq<Action>, i: nat,
                  q: PeerId, y: Assignment.Install, acts': seq<Action>, j: nat, r: PeerId, z: Assignment.Install,
                  protocol: Routing.Protocol, msg: Routing.Payload)
    requires Handshake.Reachable(s) && HasInstall(s, p, x) && HasInstall(s, q, y) && HasInstall(s, r, z)
    requires x.session == y.session == z.session && p != q && |x.party.assignments| <= 0x1_0000
    requires AuxCallsFromSession(s, x.session, acts) && AuxCallsFromSession(s, x.session, acts')
    requires Runs(Installed(p, x), acts) && i < |After(Installed(p, x), acts).tasks|
    requires Runs(Installed(q, y), acts') && j < |After(Installed(q, y), acts').tasks|
    ensures var t, u := After(Installed(p, x), acts).tasks[i], After(Installed(q, y), acts').tasks[j];
            var wire := Routing.Wrap(p, protocol, Routing.Outgoing(Routing.OneParty(u.job.partyId), msg));
            Routing.Reaches(r, z.party.assignments, wire) ==
              if r == q then Some(Routing.Incoming(0, t.job.partyId, Routing.P2P, msg)) else None
  {
    SameParty(s, p, x, q, y);
    SameParty(s, p, x, r, z);
    var u := After(Installed(q, y), acts').tasks[j];
    var o := Routing.Outgoing(Routing.OneParty(u.job.partyId), msg);
    OneIdentity(s, p, x, acts, i, Routing.Wrap(q, protocol, o));
    OneIdentity(s, q, y, acts', j, Routing.Wrap(p, protocol, o));
    RunKeepsIdentity(Installed(p, x), acts);
    RunKeepsIdentity(Installed(q, y), acts');
    var all := s.requests[x.session];
    assert x.party.assignments.Keys == all.Keys;
    assert |x.party.assignments.Keys| == |x.party.assignments| && |all.Keys| == |all|;
    PartyIndices.CastInjective(x.session.coordinator, all, x.party);
    Routing.RoutedExactly(p, r, x.party.assignments, protocol, o);
  }

  ghost predicate KeygenCallsFromSession(s: Handshake.System, session: Assignment.SessionId, acts: seq<Action>) {
    forall a :: a in acts && a.DoDeliver? && a.msg.InitiateKeygen? ==> FromSession(s, session, a.msg)
  }

  lemma KeygenCountsNodes(s: Handshake.System, q: PeerId, x: Assignment.Install, msg: CoordinationMessage)
    requires Handshake.Reachable(s) && HasInstall(s, q, x) && FromSession(s, x.session, msg) && msg.InitiateKeygen?
    ensures x.session in s.requests && msg.totalParties == Cast(|s.requests[x.session]|)
  {
    var p, y, r :| HasInstall(s, p, y) && y.session == x.session
                   && msg == NodeRuntime.RpcMessage(Installed(p, y), r);
    SameParty(s, p, y, q, x);
    RosterSize(y.party, s.requests[x.session]);
  }

  lemma FirstAuxThenKeygen(s0: Orch, acts: seq<Action>)
    requires IsNew(s0) && Runs(s0, acts) && |After(s0, acts).tasks| >= 2
    ensures After(s0, acts).tasks[0].job.AuxJob? && After(s0, acts).tasks[1].job.KeygenJob?
  {
    var o := After(s0, acts);
    assert Reachable(o);
    ReachableInv(o);
    assert o.tasks[0].ThePhase() == PhaseAt(0) && o.tasks[1].ThePhase() == PhaseAt(1);
  }

  /** Aux generation always counts three parties; key generation started by an RPC of the session counts the
      session's nodes, cast to 16 bits. The two agree exactly if that makes three. */
  lemma AuxAndKeygenCountAgree(s: Handshake.System, q: PeerId, x: Assignment.Install, acts: seq<Action>)
    requires Handshake.Reachable(s) && HasInstall(s, q, x) && KeygenCallsFromSession(s, x.session, acts)
    requires Runs(Installed(q, x), acts) && |After(Installed(q, x), acts).tasks| >= 2
    ensures x.session in s.requests
    ensures var tasks := After(Installed(q, x), acts).tasks;
            && tasks[0].job.AuxJob? && tasks[1].job.KeygenJob?
            && (tasks[0].job.total == tasks[1].job.total <==> |s.requests[x.session]| % 0x1_0000 == 3)
  {
    var o0 := Installed(q, x);
    FirstAuxThenKeygen(o0, acts);
    var a := EveryTaskHasItsCall(o0, acts, 0);
    var b := EveryTaskHasItsCall(o0, acts, 1);
    KeygenCountsNodes(s, q, x, b.msg);
  }
}

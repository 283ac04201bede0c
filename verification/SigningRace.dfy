/** The keygen task announces KeygenCompleted before it stores the key share. A signing request that arrives in
    between may find no key share. Exactly when it can happen, and that it does. */
module SigningRace {
  import opened Basics
  import opened Orchestration
  import opened OrchestrationProof
  import opened OrchestrationTheorems
  import opened Uninterrupted

  predicate TicketsDrawn(s: Orch) {
    forall i :: 0 <= i < |s.tasks| && s.tasks[i].Wants().Some? ==> s.tasks[i].ticket < s.tickets
  }

  lemma TicketsStep(s: Orch, a: Action)
    requires Enabled(s, a) && TicketsDrawn(s)
    ensures TicketsDrawn(Apply(s, a))
  {
    var s' := Apply(s, a);
    forall i | 0 <= i < |s'.tasks| && s'.tasks[i].Wants().Some?
      ensures s'.tasks[i].ticket < s'.tickets
    {
      assert i < |s.tasks|;
    }
  }

  lemma {:induction false} TicketsRun(s: Orch, acts: seq<Action>)
    requires Runs(s, acts) && TicketsDrawn(s)
    ensures TicketsDrawn(After(s, acts))
    decreases |acts|
  {
    if acts != [] {
      TicketsStep(s, acts[0]);
      TicketsRun(Apply(s, acts[0]), acts[1..]);
    }
  }

  lemma ReachableTickets(s: Orch)
    requires Reachable(s)
    ensures TicketsDrawn(s)
  {
    var s0, acts :| IsNew(s0) && Runs(s0, acts) && s == After(s0, acts);
    TicketsRun(s0, acts);
  }

  /** If the keygen task has already asked for the key share lock, the request is served in every run. */
  lemma RequestedKeyIsServed(s: Orch, from: PeerId, msg: CoordinationMessage, acts: seq<Action>)
    requires Reachable(s) && msg.InitiateSigning? && msg.timestamp >= 0 && SigningAdmitted(s, from, msg)
    requires |s.tasks| == 2 && !s.tasks[1].pc.BeforeKey?
    requires Runs(s, acts) && NoNewCall(acts)
    ensures var s' := After(s, acts);
            s'.handler.Off? || s'.handler.pc.Returning? ==> SigningServed(s', from, msg)
  {
    ReachableInv(s);
    ReachableTickets(s);
    SigningRunServes(s, from, msg, acts);
  }

  function Undisturbed(): seq<Action> {
    [DoHandler, DoGrant(HandlerThread), DoHandler, DoGrant(HandlerThread), DoHandler]
  }

  lemma GrantUncontended(s: Orch)
    requires Inv(s) && s.handler.On? && s.handler.pc.Waiting? && s.handler.pc.level > 0
    requires |s.tasks| == 2 && s.tasks[1].pc.BeforeKey?
    ensures s.Grantable(HandlerThread)
  {
    var l := s.Wants(HandlerThread).value;
    forall u
      ensures !s.WaitsFor(HandlerThread, u)
    {
      if s.Has(u) && u.TaskThread? {
        assert s.tasks[u.i].pc.Done? || s.tasks[u.i].pc.BeforeKey?;
      }
    }
  }

  /** The handler asks for its next lock and gets it. */
  lemma WorkThenGrant(s: Orch, from: PeerId, msg: CoordinationMessage) returns (s1: Orch, s2: Orch)
    requires Inv(s) && HandlerReady(s) && s.handler.from == from && s.handler.msg == msg && msg.InitiateSigning?
    requires |s.tasks| == 2 && s.tasks[1].pc.BeforeKey? && s.handler.pc.level <= 2
    requires s.handler.pc.level == 1 ==> SigningAdmitted(s, from, msg)
    ensures s1 == HandlerWork(s) && Enabled(s1, DoGrant(HandlerThread)) && s2 == Grant(s1, HandlerThread)
    ensures Inv(s2) && HandlerReady(s2) && s2.tasks == s.tasks && s2.handler.pc.level == s.handler.pc.level + 1
    ensures s2.handler.from == from && s2.handler.msg == msg
  {
    s1 := HandlerWork(s);
    HandlerKeepsInv(s);
    GrantUncontended(s1);
    s2 := Grant(s1, HandlerThread);
    GrantKeepsInv(s1, HandlerThread);
  }

  /** If it has not, there is a run in which the handler overtakes it and the request is lost. */
  lemma UnrequestedKeyIsLost(s: Orch, from: PeerId, msg: CoordinationMessage)
    requires Inv(s) && msg.InitiateSigning? && msg.timestamp >= 0 && SigningAdmitted(s, from, msg)
    requires |s.tasks| == 2 && s.tasks[1].pc.BeforeKey?
    ensures Runs(s, Undisturbed())
    ensures SigningLost(After(s, Undisturbed()), from, msg)
  {
    var s4 := BothTurns(s, from, msg);
    OneStep(s4, DoHandler);
    var turns := [DoHandler, DoGrant(HandlerThread)] + [DoHandler, DoGrant(HandlerThread)];
    RunsCompose(s, turns, [DoHandler]);
    assert Undisturbed() == turns + [DoHandler];
  }

  /** After two more locks, the handler is about to look for a key share that is not there. */
  lemma BothTurns(s: Orch, from: PeerId, msg: CoordinationMessage) returns (s4: Orch)
    requires Inv(s) && msg.InitiateSigning? && msg.timestamp >= 0 && SigningAdmitted(s, from, msg)
    requires |s.tasks| == 2 && s.tasks[1].pc.BeforeKey?
    ensures var turns := [DoHandler, DoGrant(HandlerThread)] + [DoHandler, DoGrant(HandlerThread)];
            Runs(s, turns) && After(s, turns) == s4
    ensures HandlerReady(s4) && s4.handler.pc == Working(3) && s4.keyShare.None? && |s4.tasks| == 2
    ensures s4.handler.from == from && s4.handler.msg == msg
  {
    var s2 := OneTurn(s, from, msg);
    s4 := OneTurn(s2, from, msg);
    RunsCompose(s, [DoHandler, DoGrant(HandlerThread)], [DoHandler, DoGrant(HandlerThread)]);
  }

  lemma OneTurn(s: Orch, from: PeerId, msg: CoordinationMessage) returns (s2: Orch)
    requires Inv(s) && HandlerReady(s) && s.handler.from == from && s.handler.msg == msg && msg.InitiateSigning?
    requires |s.tasks| == 2 && s.tasks[1].pc.BeforeKey? && s.handler.pc.level <= 2
    requires s.handler.pc.level == 1 ==> SigningAdmitted(s, from, msg)
    ensures Runs(s, [DoHandler, DoGrant(HandlerThread)]) && After(s, [DoHandler, DoGrant(HandlerThread)]) == s2
    ensures Inv(s2) && HandlerReady(s2) && s2.tasks == s.tasks && s2.handler.pc.level == s.handler.pc.level + 1
    ensures s2.handler.from == from && s2.handler.msg == msg
  {
    var s1: Orch;
    s1, s2 := WorkThenGrant(s, from, msg);
    TwoSteps(s, s1, DoHandler, DoGrant(HandlerThread));
  }

  lemma TwoSteps(s: Orch, s1: Orch, a: Action, b: Action)
    requires Enabled(s, a) && s1 == Apply(s, a) && Enabled(s1, b)
    ensures Runs(s, [a, b]) && After(s, [a, b]) == Apply(s1, b)
  {
    OneStep(s1, b);
    assert [a, b][1..] == [b];
  }

  /** A valid signing request that names this node and finds KeygenCompleted is certain to start its task if
      and only if the keygen task has by then asked for the key share lock. */
  lemma SigningStartsExactlyIfKeyRequested(s: Orch, from: PeerId, msg: CoordinationMessage)
    requires Reachable(s) && msg.InitiateSigning? && msg.timestamp >= 0 && SigningAdmitted(s, from, msg)
    ensures |s.tasks| == 2
    ensures !s.tasks[1].pc.BeforeKey? <==>
              forall acts :: Runs(s, acts) && NoNewCall(acts)
                && (After(s, acts).handler.Off? || After(s, acts).handler.pc.Returning?)
                ==> SigningServed(After(s, acts), from, msg)
  {
    ReachableInv(s);
    if s.tasks[1].pc.BeforeKey? {
      UnrequestedKeyIsLost(s, from, msg);
      var acts := Undisturbed();
      assert NoNewCall(acts);
      assert !SigningServed(After(s, acts), from, msg);
    } else {
      forall acts | Runs(s, acts) && NoNewCall(acts)
        && (After(s, acts).handler.Off? || After(s, acts).handler.pc.Returning?)
        ensures SigningServed(After(s, acts), from, msg)
      {
        RequestedKeyIsServed(s, from, msg, acts);
      }
    }
  }

  // ---------------------------------------------------------------------------
  // It does happen
  // ---------------------------------------------------------------------------

  /** Every orchestrator whose assignments include its own peer can run aux generation and keygen and then lose
      a valid signing request, ending stranded in state Signing. */
  lemma SigningRequestCanBeLost(me: PeerId, participants: seq<PeerId>, assignments: map<PeerId, u16>, id: Bytes)
    returns (s: Orch, msg: CoordinationMessage)
    requires me in assignments
    ensures Reachable(s) && s.me == me && s.partyAssignments == assignments
    ensures msg.InitiateSigning? && SigningLost(s, me, msg) && Stranded(s)
    ensures s.tasks[1].outcome.KeygenOk?
  {
    var s0 := New(me, participants, assignments);
    assert Runs(s0, []) && After(s0, []) == s0 && IsNew(s0);
    var aux := InitiateAux(id, participants, assignments, 0);
    var keygen := InitiateKeygen(id, 1, 1, 0);
    msg := InitiateSigning(id, [], [assignments[me]], 0);
    HandleReaches(s0, me, aux);
    var s1 := Handle(s0, me, aux).0;
    EndReaches(s1, 0, AuxOk(0));
    var s2 := End(s1, 0, AuxOk(0));
    HandleReaches(s2, me, keygen);
    var s3 := Handle(s2, me, keygen).0;
    EndReaches(s3, 1, KeygenOk(KeyShare("", 0)));
    var s4 := End(s3, 1, KeygenOk(KeyShare("", 0)));
    RestIsCalm(s4, HandlerThread);
    s := Overtake(s4, me, msg);
  }

  lemma Overtake(s4: Orch, from: PeerId, msg: CoordinationMessage) returns (s: Orch)
    requires Reachable(s4) && s4.handler.Off? && CalmBut(s4, HandlerThread)
    requires |s4.tasks| == 2 && s4.tasks[1].pc.BeforeKey? && s4.state.KeygenCompleted?
    requires msg.InitiateSigning? && msg.timestamp >= 0
    requires s4.me in s4.partyAssignments && s4.partyAssignments[s4.me] in msg.signers
    ensures Reachable(s) && s.me == s4.me && s.partyAssignments == s4.partyAssignments
    ensures SigningLost(s, from, msg) && Stranded(s) && s.tasks[1].outcome.KeygenOk?
  {
    ReachableStep(s4, DoDeliver(from, msg));
    var s5 := Deliver(s4, from, msg);
    TurnStaysCalm(s4, s5);
    CalmGrants(s5, HandlerThread);
    ReachableStep(s5, DoGrant(HandlerThread));
    var s6 := Grant(s5, HandlerThread);
    ReachableInv(s6);
    UnrequestedKeyIsLost(s6, from, msg);
    ReachableRun(s6, Undisturbed());
    s := After(s6, Undisturbed());
    ReachableInv(s);
    RunKeepsIdentity(s6, Undisturbed());
  }
}

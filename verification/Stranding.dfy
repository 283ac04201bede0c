/** Which calls strand an orchestrator, said in terms of what is known before the call; and that each of the ways
    to strand does occur. */
module Stranding {
  import opened Basics
  import opened Orchestration
  import opened OrchestrationProof
  import opened OrchestrationTheorems
  import opened Uninterrupted

  /** The request passes the handler's checks, and then lacks aux info, the key share, or this node's index. */
  predicate StrandingCall(s: Orch, msg: CoordinationMessage) {
    && msg.Initiates() && msg.timestamp >= 0 && AdmissionError(s, msg).None?
    && (|| (msg.InitiateKeygen? && s.state.Idle?)
        || (msg.InitiateSigning?
            && (s.state.Idle? || s.partyAssignments[s.me] !in msg.signers || s.keyShare.None?)))
  }

  lemma RestingStores(s: Orch)
    requires Inv(s) && AtRest(s)
    ensures s.state.Idle? ==> s.auxInfo.None?
    ensures s.state.AuxCompleted? || s.state.KeygenCompleted? ==> s.auxInfo.Some?
  {
  }

  /** An undisturbed call strands an orchestrator exactly if it is such a call. */
  lemma CallStrandsExactly(s: Orch, from: PeerId, msg: CoordinationMessage)
    requires Reachable(s) && AtRest(s) && !Stranded(s)
    ensures Stranded(Handle(s, from, msg).0) <==> StrandingCall(s, msg)
  {
    ReachableInv(s);
    RestingStores(s);
    var s' := Handle(s, from, msg).0;
    if |s'.tasks| > |s.tasks| {
      assert Early(s'.tasks[|s.tasks|]);
    } else {
      assert s'.tasks == s.tasks;
    }
  }

  /** Every new orchestrator is stranded by the first valid keygen or signing request it gets, thanks to the
      exemption for Idle: it stays in Keygen or Signing on every further run. */
  lemma IdleRequestStrands(me: PeerId, participants: seq<PeerId>, assignments: map<PeerId, u16>, from: PeerId,
                           msg: CoordinationMessage)
    requires me in assignments && (msg.InitiateKeygen? || msg.InitiateSigning?) && msg.timestamp >= 0
    requires msg.InitiateKeygen? ==> 0 < msg.threshold <= msg.totalParties
    ensures var s := Handle(New(me, participants, assignments), from, msg).0;
            && Reachable(s) && Stranded(s) && s.tasks == []
            && (if msg.InitiateKeygen? then s.state.Keygen? else s.state.Signing?)
  {
    var s0 := New(me, participants, assignments);
    assert Runs(s0, []) && After(s0, []) == s0 && IsNew(s0);
    HandleReaches(s0, from, msg);
    CallStrandsExactly(s0, from, msg);
  }

  /** Every resting orchestrator that is ready to sign is stranded by a signing request that does not name it. */
  lemma ObserverStrands(s: Orch, from: PeerId, msg: CoordinationMessage)
    requires Reachable(s) && AtRest(s) && s.state.KeygenCompleted? && s.me in s.partyAssignments
    requires msg.InitiateSigning? && msg.timestamp >= 0 && s.partyAssignments[s.me] !in msg.signers
    ensures var s' := Handle(s, from, msg).0;
            && Reachable(s') && Stranded(s') && s'.state == Signing(from, msg.executionId, msg.message, msg.signers)
            && Handle(s, from, msg).1 == Ok
  {
    HandleReaches(s, from, msg);
    CallStrandsExactly(s, from, msg);
  }
}

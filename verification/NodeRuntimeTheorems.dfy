/** What concurrent RPC calls and the event loop can rely on. */
module NodeRuntimeTheorems {
  import opened Basics
  import opened Orchestration
  import opened OrchestrationProof
  import opened Uninterrupted
  import CallResults
  import opened NodeRuntime
  import opened NodeRuntimeProof

  lemma CallOfRpc(n: Node, i: nat)
    requires NodeReachable(n) && i < |n.rpcs|
    ensures RpcMatches(n, i)
  {
    NodeReachableInv(n);
  }

  lemma NobodyHandles(n: Node)
    requires HoldersMatch(n) && HandlersMatch(n) && !n.loop.LoopCalls?
    requires forall i :: 0 <= i < |n.rpcs| ==> !n.rpcs[i].pc.Handling? || n.writer != Some(RpcOwner(i))
    ensures forall g :: 0 <= g < |n.gens| ==> n.gens[g].handler.Off?
  {
  }

  /** The outer lock makes handler calls exclusive: a call only begins, and an orchestrator is only replaced, while
      no generation has a handler running. */
  lemma HandlersAreExclusive(n: Node, x: NodeAction, g: nat)
    requires NodeReachable(n) && NodeEnabled(n, x) && g < |n.gens|
    requires x.RpcCheck? || (x.LoopActs? && !n.loop.job.RouteJob?)
    ensures n.gens[g].handler.Off?
  {
    NodeReachableInv(n);
    NobodyHandles(n);
  }

  /** An RPC call that passed its own state check is never turned away by the handler's state check, although
      tasks may write the state in between. */
  lemma RpcCheckNeverStale(n: Node, i: nat)
    requires NodeReachable(n) && i < |n.rpcs| && n.rpcs[i].pc.Refused? && n.rpcs[i].pc.error.LocalFailure?
    ensures !n.rpcs[i].pc.error.error.WrongState?
  {
    CallOfRpc(n, i);
  }

  /** While a signing call polls, the orchestrator it polls is the current one and cannot be replaced, and no call
      of the message handler can begin or be under way. */
  lemma PollPinsOrchestrator(n: Node, i: nat)
    requires NodeReachable(n) && i < |n.rpcs| && n.rpcs[i].pc.Polling?
    ensures |n.gens| > 0 && n.rpcs[i].pc.at == |n.gens| - 1 && n.Current().handler.Off?
    ensures n.writer.None? && !n.loop.LoopCalls? && (n.loop.LoopHas? ==> n.loop.job.RouteJob?)
    ensures forall x: NodeAction :: x.RpcCheck? || x.RpcDone? || x.LoopDone? ==> !NodeEnabled(n, x)
  {
    NodeReachableInv(n);
    assert RpcMatches(n, i);
    NobodyHandles(n);
  }

  // ---------------------------------------------------------------------------
  // Generations
  // ---------------------------------------------------------------------------

  ghost predicate GensReachable(n: Node) {
    forall g :: 0 <= g < |n.gens| ==> Reachable(n.gens[g])
  }

  lemma NewReachable(me: PeerId, participants: seq<PeerId>, assignments: map<PeerId, u16>)
    ensures Reachable(New(me, participants, assignments))
  {
    var s := New(me, participants, assignments);
    assert Runs(s, []) && After(s, []) == s && IsNew(s);
  }

  lemma DeliveryReaches(n: Node, x: NodeAction, g: nat)
    requires NodeInv(n) && NodeEnabled(n, x) && DeliversCall(n, x) && g < |n.gens| && Reachable(n.gens[g])
    ensures g < |NodeApply(n, x).gens| && Reachable(NodeApply(n, x).gens[g])
  {
    DeliveredAtRest(n, x, g);
    if g == |n.gens| - 1 {
      if x.RpcCheck? {
        ReachableStep(n.gens[g], DoDeliver(n.me, RpcMessage(n.gens[g], n.rpcs[x.i])));
      } else {
        ReachableStep(n.gens[g], DoDeliver(n.loop.job.from, n.loop.job.msg));
      }
    }
  }

  lemma ReturnReaches(n: Node, x: NodeAction, g: nat)
    requires NodeEnabled(n, x) && (x.LoopDone? || x.RpcDone?) && g < |n.gens| && Reachable(n.gens[g])
    ensures g < |NodeApply(n, x).gens| && Reachable(NodeApply(n, x).gens[g])
  {
    if g == |n.gens| - 1 {
      ReachableStep(n.gens[g], DoReturn);
    }
  }

  lemma StepReachesGens(n: Node, x: NodeAction)
    requires NodeInv(n) && GensReachable(n) && NodeEnabled(n, x)
    ensures GensReachable(NodeApply(n, x))
  {
    forall g | 0 <= g < |NodeApply(n, x).gens|
      ensures Reachable(NodeApply(n, x).gens[g])
    {
      if x.Inner? {
        if g == x.g { ReachableStep(n.gens[g], x.a); }
      } else if g >= |n.gens| {
        NewReachable(n.me, n.loop.job.participants, n.loop.job.partyAssignments);
      } else if DeliversCall(n, x) {
        DeliveryReaches(n, x, g);
      } else if x.LoopDone? || x.RpcDone? {
        ReturnReaches(n, x, g);
      } else {
        OthersKeepGens(n, x, g);
      }
    }
  }

  lemma {:induction false} RunReachesGens(n: Node, xs: seq<NodeAction>)
    requires NodeInv(n) && GensReachable(n) && NodeRuns(n, xs)
    ensures GensReachable(NodeAfter(n, xs))
    decreases |xs|
  {
    if xs != [] {
      StepReachesGens(n, xs[0]);
      NodeStepKeepsInv(n, xs[0]);
      RunReachesGens(NodeApply(n, xs[0]), xs[1..]);
    }
  }

  /** Every generation of orchestrators a node has had is where some run of an orchestrator on its own leads: what
      holds of all of those holds of it. */
  lemma GenerationsReachable(n: Node, g: nat)
    requires NodeReachable(n) && g < |n.gens|
    ensures Reachable(n.gens[g]) && n.gens[g].me == n.me
  {
    var xs :| NodeRuns(NewNode(n.me), xs) && n == NodeAfter(NewNode(n.me), xs);
    RunReachesGens(NewNode(n.me), xs);
    NodeReachableInv(n);
  }

  // ---------------------------------------------------------------------------
  // What a call checks, sends and reports
  // ---------------------------------------------------------------------------

  predicate BadThresholdFor(o: Orch, kind: RpcKind) {
    kind.KeygenRpc? && (kind.threshold == 0 || kind.threshold > Cast(|o.participants|))
  }

  predicate SignerTooLarge(o: Orch, kind: RpcKind) {
    kind.SigningRpc? && exists s :: s in kind.signers && s >= Cast(|o.participants|)
  }

  predicate StateFits(kind: RpcKind, state: ProtocolState) {
    || state.Idle? || (kind.KeygenRpc? && state.AuxCompleted?) || (kind.SigningRpc? && state.KeygenCompleted?)
  }

  /** The call with the lock in hand: each refusal exactly under its condition, in the order of the checks; a call that
      passes them all broadcasts the message for exactly its parameters and hands the same message to its own
      orchestrator; one that does not, nothing. */
  lemma RpcCheckDecided(n: Node, i: nat)
    requires NodeReachable(n) && NodeEnabled(n, RpcCheck(i))
    ensures var n' := NodeApply(n, RpcCheck(i));
            && i < |n'.rpcs| && (n'.rpcs[i].pc == Refused(NotInitialized) <==> n.gens == [])
            && (n'.rpcs[i].pc.Refused? ==> n'.broadcast == n.broadcast && n'.gens == n.gens && n'.writer.None?)
    ensures n.gens != [] ==>
              var n', o, r := NodeApply(n, RpcCheck(i)), n.Current(), n.rpcs[i];
              var pc := n'.rpcs[i].pc;
              && (pc == Refused(BadThreshold) <==> BadThresholdFor(o, r.kind))
              && (pc == Refused(NoSigners) <==> r.kind.SigningRpc? && r.kind.signers == [])
              && (pc == Refused(BadSigner) <==> SignerTooLarge(o, r.kind))
              && (pc == Refused(BadState) <==>
                    && !BadThresholdFor(o, r.kind) && !SignerTooLarge(o, r.kind)
                    && !(r.kind.SigningRpc? && r.kind.signers == []) && !StateFits(r.kind, o.state))
              && (!pc.Refused? ==>
                    && pc == Handling(|n.gens| - 1) && |n'.gens| == |n.gens| && |n'.broadcast| == |n.broadcast| + 1
                    && n'.broadcast[..|n.broadcast|] == n.broadcast
                    && n'.Current().handler.On? && n'.Current().handler.from == n.me
                    && n'.Current().handler.msg == n'.broadcast[|n.broadcast|]
                    && match r.kind
                       case AuxRpc =>
                         n'.broadcast[|n.broadcast|] ==
                           InitiateAux(r.executionId, o.participants, o.partyAssignments, r.time)
                       case KeygenRpc(threshold) =>
                         n'.broadcast[|n.broadcast|] ==
                           InitiateKeygen(r.executionId, threshold, Cast(|o.participants|), r.time)
                       case SigningRpc(message, signers) =>
                         n'.broadcast[|n.broadcast|] == InitiateSigning(r.executionId, message, signers, r.time))
  {
  }

  /** The handler is back with its result for the call: a failure is reported as that failure, and success leads on.
      The result follows from the call's parameters, the map, and the state the handler found. */
  lemma RpcDoneDecided(n: Node, i: nat)
    requires NodeReachable(n) && NodeEnabled(n, RpcDone(i))
    ensures n.gens != [] && n.Current().handler.On? && n.Current().handler.pc.Returning?
    ensures var o, r := n.Current(), n.rpcs[i];
            var result, pc := o.handler.pc.result, NodeApply(n, RpcDone(i)).rpcs[i].pc;
            && (forall e :: pc == Refused(LocalFailure(e)) <==> result == Err(e))
            && (pc == Succeeded(|n.gens| - 1) <==> result == Ok && !r.kind.SigningRpc?)
            && (pc == Released(|n.gens| - 1) <==> result == Ok && r.kind.SigningRpc?)
            && (result == Err(InvalidTimestamp) <==> r.time < 0)
            && (r.time >= 0 ==>
                  && o.handler.entry.Some?
                  && var found := o.handler.entry.value;
                     var looks := r.kind.KeygenRpc?
                                  || (r.kind.SigningRpc? && n.me in o.partyAssignments
                                      && o.partyAssignments[n.me] in r.kind.signers);
                     && StateFits(r.kind, found)
                     && (result == Err(NotAssigned) <==> n.me !in o.partyAssignments)
                     && (result == Err(AuxInfoMissing) <==> n.me in o.partyAssignments && looks && found.Idle?)
                     && (result == Err(KeyShareMissing) ==> r.kind.SigningRpc? && looks && found.KeygenCompleted?)
                     && (result == Ok <==>
                           && n.me in o.partyAssignments && (looks ==> !found.Idle?)
                           && result != Err(KeyShareMissing)))
  {
    NodeReachableInv(n);
    assert RpcMatches(n, i);
    GenerationsReachable(n, |n.gens| - 1);
    CallResults.ResultExplained(n.Current());
  }

  // ---------------------------------------------------------------------------
  // What a call gets
  // ---------------------------------------------------------------------------

  /** An aux call that has succeeded has started the aux task of the orchestrator that handled it. */
  lemma AuxCallGetsItsTask(n: Node, i: nat)
    requires NodeReachable(n) && i < |n.rpcs| && n.rpcs[i].pc.Succeeded? && n.rpcs[i].kind.AuxRpc?
    ensures var r := n.rpcs[i];
            && r.pc.g < |n.gens|
            && var o := n.gens[r.pc.g];
               && |o.tasks| >= 1 && o.tasks[0].initiator == n.me && o.tasks[0].executionId == r.executionId
               && r.time >= 0 && n.me in o.partyAssignments
               && o.tasks[0].job == AuxJob(o.partyAssignments[n.me], 3, r.time)
  {
    CallOfRpc(n, i);
  }

  /** A keygen call that has succeeded has started the keygen task of the orchestrator that handled it, with its own
      threshold for as many parties as there are participants. */
  lemma KeygenCallGetsItsTask(n: Node, i: nat)
    requires NodeReachable(n) && i < |n.rpcs| && n.rpcs[i].pc.Succeeded? && n.rpcs[i].kind.KeygenRpc?
    ensures var r := n.rpcs[i];
            && r.pc.g < |n.gens|
            && var o := n.gens[r.pc.g];
               && |o.tasks| >= 2 && o.tasks[1].initiator == n.me && o.tasks[1].executionId == r.executionId
               && o.tasks[1].job.KeygenJob? && o.tasks[1].job.threshold == r.kind.threshold
               && o.tasks[1].job.total == Cast(|o.participants|) && o.tasks[1].job.timestamp == r.time
               && n.me in o.partyAssignments && o.tasks[1].job.partyId == o.partyAssignments[n.me]
  {
    CallOfRpc(n, i);
  }

  /** A signature returned by the signing RPC was computed by the signing task of the orchestrator it polled;
      if the orchestrator was not replaced in between, that task was started for exactly this call. */
  lemma RpcReturnsOwnSignature(n: Node, i: nat)
    requires NodeReachable(n) && i < |n.rpcs| && n.rpcs[i].pc.Signed?
    ensures var r := n.rpcs[i];
            && r.kind.SigningRpc? && r.pc.g < |n.gens| && r.pc.at < |n.gens|
            && var o := n.gens[r.pc.at];
               && |o.tasks| == 3 && o.tasks[2].job.SigningJob? && o.tasks[2].outcome == SigningOk(r.pc.signature)
               && (r.pc.at == r.pc.g ==>
                     && o.tasks[2].initiator == n.me && o.tasks[2].executionId == r.executionId
                     && o.tasks[2].job.message == r.kind.message && o.tasks[2].job.signers == r.kind.signers
                     && o.tasks[2].job.timestamp == r.time
                     && n.me in o.partyAssignments && o.tasks[2].job.partyId == o.partyAssignments[n.me])
  {
    NodeReachableInv(n);
    assert RpcMatches(n, i);
    assert Inv(n.gens[n.rpcs[i].pc.at]);
  }

  lemma SignedStays(n: Node, x: NodeAction, i: nat)
    requires NodeEnabled(n, x) && i < |n.rpcs| && n.rpcs[i].pc.Signed?
    ensures i < |NodeApply(n, x).rpcs| && NodeApply(n, x).rpcs[i] == n.rpcs[i]
  {
  }

  /** Later reads agree: once a call has returned a signature, its orchestrator shows that signature forever. */
  lemma {:induction false} SignatureIsFinal(n: Node, xs: seq<NodeAction>, i: nat)
    requires NodeInv(n) && NodeRuns(n, xs) && i < |n.rpcs| && n.rpcs[i].pc.Signed?
    ensures var n' := NodeAfter(n, xs);
            && i < |n'.rpcs| && n'.rpcs[i] == n.rpcs[i] && n.rpcs[i].pc.at < |n'.gens|
            && n'.gens[n.rpcs[i].pc.at].state == SigningCompleted(n.rpcs[i].pc.signature)
    decreases |xs|
  {
    assert RpcMatches(n, i);
    if xs != [] {
      NodeStepKeepsInv(n, xs[0]);
      SignedStays(n, xs[0], i);
      SignatureIsFinal(NodeApply(n, xs[0]), xs[1..], i);
    }
  }
}

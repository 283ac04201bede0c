/** The orchestrator object: its fields and the methods that overwrite them.

    A method executes one call, or one task ending, without interruption; what happens when they interleave is
    the subject of `Orchestration` and the modules that build on it. `View` connects the two: every method leads
    from one state the interleaved machine can reach to another. */
module OrchestratorObject {
  import opened Basics
  import opened Orchestration
  import opened OrchestrationProof
  import opened OrchestrationTheorems
  import opened Uninterrupted

  class MPCOrchestrator {
    const localPeerId: PeerId
    const participants: seq<PeerId>
    const partyAssignments: map<PeerId, u16>
    var state: ProtocolState
    var auxInfo: Option<AuxInfo>
    var keyShare: Option<KeyShare>
    var auxIncomingTx: Option<nat>
    var keygenIncomingTx: Option<nat>
    var signingIncomingTx: Option<nat>
    var spawned: seq<Task>       // the tasks handed to the runtime
    var tickets: nat             // lock requests made so far

    ghost function View(): Orch
      reads this
    {
      Orch(localPeerId, participants, partyAssignments, state, auxInfo, keyShare,
           auxIncomingTx, keygenIncomingTx, signingIncomingTx, Off, spawned, [], tickets)
    }

    /** The object is in a state some interleaving of handlers and tasks leads to, and nothing is half done. */
    ghost predicate Valid()
      reads this
    {
      Reachable(View()) && AtRest(View())
    }

    constructor (localPeerId: PeerId, participants: seq<PeerId>, partyAssignments: map<PeerId, u16>)
      ensures Valid()
      ensures View() == New(localPeerId, participants, partyAssignments)
    {
      this.localPeerId := localPeerId;
      this.participants := participants;
      this.partyAssignments := partyAssignments;
      state := Idle;
      auxInfo := None;
      keyShare := None;
      auxIncomingTx, keygenIncomingTx, signingIncomingTx := None, None, None;
      spawned := [];
      tickets := 0;
      new;
      assert Runs(View(), []) && After(View(), []) == View() && IsNew(View());
    }

    method HandleCoordinationMessage(from: PeerId, message: CoordinationMessage)
      returns (result: Result<HandlerError>)
      requires Valid()
      modifies this
      ensures Valid()
      ensures (View(), result) == Handle(old(View()), from, message)
      ensures !message.Initiates() ==> View() == old(View()) && result == Ok
    {
      ghost var before := View();
      match message {
        case InitiateAux(id, _, assignments, time) =>
          result := HandleInitiateAux(from, id, assignments, time, message);
        case InitiateKeygen(id, threshold, total, time) =>
          result := HandleInitiateKeygen(from, id, threshold, total, time, message);
        case InitiateSigning(id, bytes, signers, time) =>
          result := HandleInitiateSigning(from, id, bytes, signers, time, message);
        case _ =>
          result := Ok;
      }
      HandleReaches(before, from, message);
    }

    method HandleInitiateAux(from: PeerId, executionId: Bytes, assignments: map<PeerId, u16>, time: Seconds,
                             ghost message: CoordinationMessage)
      returns (result: Result<HandlerError>)
      requires message.InitiateAux? && message.executionId == executionId
      requires message.partyAssignments == assignments && message.timestamp == time
      modifies this
      ensures (View(), result) == Handle(old(View()), from, message)
      ensures result == Err(InvalidTimestamp) <==> time < 0
      ensures result == Err(WrongState(old(state))) <==> time >= 0 && !old(state).Idle?
      ensures result == Err(NotAssigned) <==> time >= 0 && old(state).Idle? && localPeerId !in assignments
      ensures result == Ok <==> time >= 0 && old(state).Idle? && localPeerId in assignments
      ensures state == if result == Ok then AuxGeneration(from, executionId) else old(state)
      ensures if result == Ok then
                && auxIncomingTx == Some(|old(spawned)|) && |spawned| == |old(spawned)| + 1
                && spawned[|old(spawned)|].job == AuxJob(assignments[localPeerId], 3, time)
              else auxIncomingTx == old(auxIncomingTx) && spawned == old(spawned)
    {
      if time < 0 {
        return Err(InvalidTimestamp);
      }
      tickets := tickets + 1;
      if !state.Idle? {
        return Err(WrongState(state));
      }
      if localPeerId !in assignments {
        return Err(NotAssigned);
      }
      state := AuxGeneration(from, executionId);
      auxIncomingTx := Some(|spawned|);
      var job := AuxJob(assignments[localPeerId], AUX_TOTAL_PARTIES, time);
      spawned := spawned + [Task(from, executionId, job, Pending, Running, 0)];
      return Ok;
    }

    method HandleInitiateKeygen(from: PeerId, executionId: Bytes, threshold: u16, totalParties: u16, time: Seconds,
                                ghost message: CoordinationMessage)
      returns (result: Result<HandlerError>)
      requires message.InitiateKeygen? && message.executionId == executionId && message.threshold == threshold
      requires message.totalParties == totalParties && message.timestamp == time
      modifies this
      ensures (View(), result) == Handle(old(View()), from, message)
      ensures result == Err(InvalidTimestamp) <==> time < 0
      ensures result == Err(WrongState(old(state))) <==>
                time >= 0 && !old(state).AuxCompleted? && !old(state).Idle?
      ensures result == Err(ThresholdZero) <==>
                time >= 0 && (old(state).AuxCompleted? || old(state).Idle?) && threshold == 0
      ensures result == Err(ThresholdTooLarge) <==>
                time >= 0 && (old(state).AuxCompleted? || old(state).Idle?) && 0 < threshold && threshold > totalParties
      ensures result == Err(NotAssigned) <==>
                && time >= 0 && (old(state).AuxCompleted? || old(state).Idle?) && 0 < threshold <= totalParties
                && localPeerId !in partyAssignments
      ensures var admitted := time >= 0 && (old(state).AuxCompleted? || old(state).Idle?)
                              && 0 < threshold <= totalParties && localPeerId in partyAssignments;
              && (result == Err(AuxInfoMissing) <==> admitted && auxInfo.None?)
              && (result == Ok <==> admitted && auxInfo.Some?)
              && state == if admitted then Keygen(from, executionId, threshold) else old(state)
      ensures if result == Ok then
                && keygenIncomingTx == Some(|old(spawned)|) && |spawned| == |old(spawned)| + 1
                && spawned[|old(spawned)|].job ==
                     KeygenJob(partyAssignments[localPeerId], totalParties, threshold, time, auxInfo.value)
              else keygenIncomingTx == old(keygenIncomingTx) && spawned == old(spawned)
    {
      if time < 0 {
        return Err(InvalidTimestamp);
      }
      tickets := tickets + 1;
      if !state.AuxCompleted? && !state.Idle? {
        return Err(WrongState(state));
      }
      if threshold == 0 {
        return Err(ThresholdZero);
      }
      if threshold > totalParties {
        return Err(ThresholdTooLarge);
      }
      if localPeerId !in partyAssignments {
        return Err(NotAssigned);
      }
      state := Keygen(from, executionId, threshold);
      tickets := tickets + 1;
      if auxInfo.None? {
        return Err(AuxInfoMissing);
      }
      keygenIncomingTx := Some(|spawned|);
      var job := KeygenJob(partyAssignments[localPeerId], totalParties, threshold, time, auxInfo.value);
      spawned := spawned + [Task(from, executionId, job, Pending, Running, 0)];
      return Ok;
    }

    method HandleInitiateSigning(from: PeerId, executionId: Bytes, toSign: Bytes, signers: seq<u16>, time: Seconds,
                                 ghost message: CoordinationMessage)
      returns (result: Result<HandlerError>)
      requires message.InitiateSigning? && message.executionId == executionId && message.message == toSign
      requires message.signers == signers && message.timestamp == time
      modifies this
      ensures (View(), result) == Handle(old(View()), from, message)
      ensures result == Err(InvalidTimestamp) <==> time < 0
      ensures result == Err(WrongState(old(state))) <==>
                time >= 0 && !old(state).KeygenCompleted? && !old(state).Idle?
      ensures result == Err(NotAssigned) <==>
                && time >= 0 && (old(state).KeygenCompleted? || old(state).Idle?) && localPeerId !in partyAssignments
      ensures var admitted := time >= 0 && (old(state).KeygenCompleted? || old(state).Idle?)
                              && localPeerId in partyAssignments;
              var signer := admitted && partyAssignments[localPeerId] in signers;
              && (result == Err(AuxInfoMissing) <==> signer && auxInfo.None?)
              && (result == Err(KeyShareMissing) <==> signer && auxInfo.Some? && keyShare.None?)
              && (result == Ok <==> admitted && (signer ==> auxInfo.Some? && keyShare.Some?))
              && state == (if admitted then Signing(from, executionId, toSign, signers) else old(state))
              && (if signer && result == Ok then
                    && signingIncomingTx == Some(|old(spawned)|) && |spawned| == |old(spawned)| + 1
                    && spawned[|old(spawned)|].job ==
                         SigningJob(partyAssignments[localPeerId], signers, toSign, time, keyShare.value, auxInfo.value)
                  else signingIncomingTx == old(signingIncomingTx) && spawned == old(spawned))
    {
      if time < 0 {
        return Err(InvalidTimestamp);
      }
      tickets := tickets + 1;
      if !state.KeygenCompleted? && !state.Idle? {
        return Err(WrongState(state));
      }
      if localPeerId !in partyAssignments {
        return Err(NotAssigned);
      }
      var weAreSigner := partyAssignments[localPeerId] in signers;
      state := Signing(from, executionId, toSign, signers);
      if weAreSigner {
        tickets := tickets + 1;
        if auxInfo.None? {
          return Err(AuxInfoMissing);
        }
        tickets := tickets + 1;
        if keyShare.None? {
          return Err(KeyShareMissing);
        }
        signingIncomingTx := Some(|spawned|);
        var job := SigningJob(partyAssignments[localPeerId], signers, toSign, time, keyShare.value, auxInfo.value);
        spawned := spawned + [Task(from, executionId, job, Pending, Running, 0)];
      }
      return Ok;
    }

    /** The spawned task `i` ends with `outcome` and records it; the keygen task does not store its share yet. */
    method EndTask(i: nat, outcome: Outcome)
      requires Valid()
      requires i < |spawned| && spawned[i].pc.Running? && Fits(spawned[i].job, outcome)
      modifies this
      ensures Valid()
      ensures View() == End(old(View()), i, outcome)
      ensures InProgress(old(state), old(spawned)[i])
      ensures outcome.AuxOk? ==> state == AuxCompleted && auxInfo == Some(outcome.info)
      ensures outcome.KeygenOk? ==> state == KeygenCompleted(outcome.share.publicKey)
      ensures outcome.SigningOk? ==> state == SigningCompleted(outcome.signature)
      ensures outcome.TaskErr? ==>
                && state.Failed? && state.reason == outcome.reason
                && (state.phase == AuxPhase <==> old(spawned)[i].job.AuxJob?)
                && (state.phase == KeygenPhase <==> old(spawned)[i].job.KeygenJob?)
      ensures !outcome.AuxOk? ==> auxInfo == old(auxInfo)
      ensures keyShare == old(keyShare)
    {
      ghost var before := View();
      ReachableInv(before);
      WriteReplacesOwnState(before, i);
      EndReaches(before, i, outcome);
      tickets := tickets + 1;
      var ended := spawned[i].(outcome := outcome);
      if outcome.AuxOk? {
        auxInfo := Some(outcome.info);
        state := AuxCompleted;
        spawned := spawned[i := ended.(pc := Done, ticket := tickets)];
        tickets := tickets + 1;
      } else {
        state := FinalState(ended);
        spawned := spawned[i := ended.(pc := if outcome.KeygenOk? then BeforeKey else Done, ticket := tickets - 1)];
      }
    }

    /** The keygen task `i` stores its key share. */
    method StoreKeyShare(i: nat)
      requires Valid()
      requires i < |spawned| && spawned[i].pc.BeforeKey?
      modifies this
      ensures Valid()
      ensures old(spawned)[i].outcome.KeygenOk? && View() == StoreShare(old(View()), i)
      ensures state == old(state) && keyShare == Some(old(spawned)[i].outcome.share)
    {
      ghost var before := View();
      StoreReaches(before, i);
      keyShare := Some(spawned[i].outcome.share);
      spawned := spawned[i := spawned[i].(pc := Done, ticket := tickets)];
      tickets := tickets + 1;
    }
  }
}

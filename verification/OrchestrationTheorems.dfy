/** What the orchestrator guarantees on every run. */
module OrchestrationTheorems {
  import opened Basics
  import opened Orchestration
  import opened OrchestrationProof

  // ---------------------------------------------------------------------------
  // Tasks: one at a time, each phase once, wired to its channel
  // ---------------------------------------------------------------------------

  function ChannelOf(s: Orch, p: Phase): Option<nat> {
    match p case AuxPhase => s.auxTx case KeygenPhase => s.keygenTx case SigningPhase => s.signingTx
  }

  lemma OneLiveTask(s: Orch, i: nat, j: nat)
    requires Reachable(s) && i < |s.tasks| && j < |s.tasks|
    ensures Live(s.tasks[i]) && Live(s.tasks[j]) ==> i == j
    ensures s.tasks[i].ThePhase() == s.tasks[j].ThePhase() ==> i == j
    ensures ChannelOf(s, s.tasks[i].ThePhase()) == Some(i)
  {
    ReachableInv(s);
  }

  // ---------------------------------------------------------------------------
  // The unconditional state writes behave as compare-and-swap
  // ---------------------------------------------------------------------------

  /** Like `Apply`, except that a task writes the state only if it is the in-progress state of its own run. */
  ghost function ApplyCas(s: Orch, a: Action): Orch
    requires Enabled(s, a)
  {
    if a.DoTask? && s.tasks[a.i].pc.HasState? && !InProgress(s.state, s.tasks[a.i])
    then WithTask(s, a.i, s.tasks[a.i].(pc := Wrote))
    else Apply(s, a)
  }

  ghost predicate RunsCas(s: Orch, acts: seq<Action>)
    decreases |acts|
  {
    acts == [] || (Enabled(s, acts[0]) && RunsCas(ApplyCas(s, acts[0]), acts[1..]))
  }

  ghost function AfterCas(s: Orch, acts: seq<Action>): Orch
    requires RunsCas(s, acts)
    decreases |acts|
  {
    if acts == [] then s else AfterCas(ApplyCas(s, acts[0]), acts[1..])
  }

  lemma WriteReplacesOwnState(s: Orch, i: nat)
    requires Inv(s) && i < |s.tasks| && Early(s.tasks[i])
    ensures InProgress(s.state, s.tasks[i])
  {
    OnlyLastMoves(s, i);
  }

  lemma {:induction false} CasFrom(s: Orch, acts: seq<Action>)
    requires Inv(s)
    ensures Runs(s, acts) <==> RunsCas(s, acts)
    ensures Runs(s, acts) ==> After(s, acts) == AfterCas(s, acts)
    decreases |acts|
  {
    if acts != [] && Enabled(s, acts[0]) {
      if acts[0].DoTask? && s.tasks[acts[0].i].pc.HasState? {
        WriteReplacesOwnState(s, acts[0].i);
      }
      StepKeepsInv(s, acts[0]);
      CasFrom(Apply(s, acts[0]), acts[1..]);
    }
  }

  /** No update is lost: on every run the machine with unconditional writes and the machine with
      compare-and-swap writes take the same steps and reach the same states. */
  lemma NoLostUpdate(s: Orch, acts: seq<Action>)
    requires IsNew(s)
    ensures Runs(s, acts) <==> RunsCas(s, acts)
    ensures Runs(s, acts) ==> After(s, acts) == AfterCas(s, acts)
  {
    InvNew(s);
    CasFrom(s, acts);
  }

  // ---------------------------------------------------------------------------
  // Phase order and results
  // ---------------------------------------------------------------------------

  /** A keygen task only ever runs on the aux info a finished aux task stored; a signing task only on that aux
      info and the key share a finished keygen task stored. */
  lemma PhaseOrder(s: Orch, i: nat)
    requires Reachable(s) && i < |s.tasks| && !s.tasks[i].job.AuxJob?
    ensures Succeeded(s.tasks[0]) && s.tasks[0].outcome.AuxOk? && s.auxInfo == Some(s.tasks[0].outcome.info)
    ensures s.tasks[i].job.auxInfo == s.tasks[0].outcome.info
    ensures s.tasks[i].job.SigningJob? ==>
              && |s.tasks| > 1 && Succeeded(s.tasks[1]) && s.tasks[1].outcome.KeygenOk?
              && s.keyShare == Some(s.tasks[1].outcome.share)
              && s.tasks[i].job.keyShare == s.tasks[1].outcome.share
  {
    var s0, acts :| IsNew(s0) && Runs(s0, acts) && s == After(s0, acts);
    InvNew(s0);
    RunKeepsInputs(s0, acts);
    RunKeepsInv(s0, acts);
    if s.tasks[i].job.SigningJob? {
      assert s.tasks[i].ThePhase() == PhaseAt(i);
    }
  }

  /** Every task was given the results its predecessors stored. */
  predicate InputsMatch(s: Orch) {
    forall i :: 0 <= i < |s.tasks| ==>
      && (!s.tasks[i].job.AuxJob? ==> s.auxInfo == Some(s.tasks[i].job.auxInfo))
      && (s.tasks[i].job.SigningJob? ==> s.keyShare == Some(s.tasks[i].job.keyShare))
  }

  lemma HandlerKeepsInputs(s: Orch)
    requires Inv(s) && InputsMatch(s) && HandlerReady(s)
    ensures InputsMatch(HandlerWork(s))
  {
    var s' := HandlerWork(s);
    forall i | 0 <= i < |s'.tasks|
      ensures !s'.tasks[i].job.AuxJob? ==> s'.auxInfo == Some(s'.tasks[i].job.auxInfo)
      ensures s'.tasks[i].job.SigningJob? ==> s'.keyShare == Some(s'.tasks[i].job.keyShare)
    {
      assert i < |s.tasks| ==> s'.tasks[i] == s.tasks[i];
    }
  }

  lemma TaskKeepsInputs(s: Orch, i: nat)
    requires Inv(s) && InputsMatch(s) && i < |s.tasks| && TaskCanStep(s.tasks[i])
    ensures InputsMatch(TaskStep(s, i))
  {
    OnlyLastMoves(s, i);
    forall j | 0 <= j < |s.tasks|
      ensures TaskStep(s, i).tasks[j].job == s.tasks[j].job && s.tasks[j].ThePhase() == PhaseAt(j)
    {
    }
  }

  lemma StepKeepsInputs(s: Orch, a: Action)
    requires Inv(s) && InputsMatch(s) && Enabled(s, a)
    ensures InputsMatch(Apply(s, a))
  {
    match a
    case DoHandler => HandlerKeepsInputs(s);
    case DoTask(i) => TaskKeepsInputs(s, i);
    case _ =>
  }

  lemma {:induction false} RunKeepsInputs(s: Orch, acts: seq<Action>)
    requires Inv(s) && InputsMatch(s) && Runs(s, acts)
    ensures InputsMatch(After(s, acts))
    decreases |acts|
  {
    if acts != [] {
      StepKeepsInputs(s, acts[0]);
      StepKeepsInv(s, acts[0]);
      RunKeepsInputs(Apply(s, acts[0]), acts[1..]);
    }
  }

  /** The result cells are filled whenever the state says so, and hold what the phase's only task computed; a failure
      is the last task's, with its phase and its reason. */
  lemma ResultsMatchStates(s: Orch)
    requires Reachable(s)
    ensures s.state.AuxCompleted? ==>
              && s.auxInfo.Some? && |s.tasks| == 1 && s.tasks[0].outcome == AuxOk(s.auxInfo.value)
    ensures s.state.KeygenCompleted? ==>
              && s.auxInfo.Some? && |s.tasks| == 2
              && s.tasks[1].outcome.KeygenOk? && s.tasks[1].outcome.share.publicKey == s.state.publicKey
              && (s.keyShare == Some(s.tasks[1].outcome.share) <==> s.tasks[1].pc.LastGuard? || s.tasks[1].pc.Done?)
    ensures s.state.SigningCompleted? ==>
              && s.auxInfo.Some? && s.keyShare.Some? && |s.tasks| == 3
              && s.tasks[2].outcome == SigningOk(s.state.signature)
    ensures s.state.Failed? ==>
              && |s.tasks| > 0
              && var t := s.tasks[|s.tasks| - 1];
                 && t.outcome == TaskErr(s.state.reason)
                 && (s.state.phase == AuxPhase <==> t.job.AuxJob?)
                 && (s.state.phase == KeygenPhase <==> t.job.KeygenJob?)
                 && (s.state.phase == SigningPhase <==> t.job.SigningJob?)
  {
    ReachableInv(s);
  }

  /** Conversely, a task that has let go of the state lock has left behind the state its outcome calls for, and
      only a later request replaces it. */
  lemma OutcomesShow(s: Orch)
    requires Reachable(s) && |s.tasks| > 0
    ensures var t := s.tasks[|s.tasks| - 1];
            var over := t.pc.Wrote? || t.pc.BeforeKey? || t.pc.WantKey? || t.pc.HasKey? || t.pc.LastGuard? || t.pc.Done?;
            over ==>
              match t.outcome
              case AuxOk(_) => s.state == AuxCompleted || s.state.Keygen?
              case KeygenOk(share) => s.state == KeygenCompleted(share.publicKey) || s.state.Signing?
              case SigningOk(signature) => s.state == SigningCompleted(signature)
              case TaskErr(reason) =>
                s.state == Failed(match t.job case AuxJob(_, _, _) => AuxPhase
                                              case KeygenJob(_, _, _, _, _) => KeygenPhase
                                              case SigningJob(_, _, _, _, _, _) => SigningPhase, reason)
              case Pending => false
  {
    ReachableInv(s);
  }

  // ---------------------------------------------------------------------------
  // Monotone phases
  // ---------------------------------------------------------------------------

  function Rank(state: ProtocolState): nat {
    match state
    case Idle => 0
    case AuxGeneration(_, _) => 1
    case AuxCompleted => 2
    case Keygen(_, _, _) => 3
    case KeygenCompleted(_) => 4
    case Signing(_, _, _, _) => 5
    case SigningCompleted(_) => 6
    case Failed(_, _) => 6
  }

  /** The step executes an assignment to the state cell. */
  predicate WritesState(s: Orch, a: Action) {
    match a
    case DoTask(i) => i < |s.tasks| && s.tasks[i].pc.HasState?
    case DoHandler =>
      s.handler.On? && s.handler.msg.Initiates() && s.handler.pc.level <= 1 && AdmissionError(s, s.handler.msg).None?
    case _ => false
  }

  lemma WritesRaiseRank(s: Orch, a: Action)
    requires Inv(s) && Enabled(s, a)
    ensures WritesState(s, a) ==> Rank(Apply(s, a).state) > Rank(s.state)
    ensures !WritesState(s, a) ==> Apply(s, a).state == s.state
  {
    if a.DoTask? {
      OnlyLastMoves(s, a.i);
    }
  }

  ghost function Writes(s: Orch, acts: seq<Action>): nat
    requires Runs(s, acts)
    decreases |acts|
  {
    if acts == [] then 0
    else (if WritesState(s, acts[0]) then 1 else 0) + Writes(Apply(s, acts[0]), acts[1..])
  }

  lemma {:induction false} WritesWithinRank(s: Orch, acts: seq<Action>)
    requires Inv(s) && Runs(s, acts)
    ensures Rank(s.state) + Writes(s, acts) <= Rank(After(s, acts).state) <= 6
    ensures Rank(s.state) == 6 ==> After(s, acts).state == s.state
    decreases |acts|
  {
    if acts != [] {
      WritesRaiseRank(s, acts[0]);
      StepKeepsInv(s, acts[0]);
      WritesWithinRank(Apply(s, acts[0]), acts[1..]);
    }
  }

  /** At most six state writes happen in the life of an orchestrator, and the two final states are absorbing. */
  lemma MonotonePhases(s0: Orch, before: seq<Action>, after: seq<Action>)
    requires IsNew(s0) && Runs(s0, before) && Runs(After(s0, before), after)
    ensures Writes(s0, before) <= 6
    ensures var s := After(s0, before);
            && Rank(s.state) + Writes(s, after) <= Rank(After(s, after).state) <= 6
            && (s.state.SigningCompleted? || s.state.Failed? ==> After(s, after).state == s.state)
  {
    InvNew(s0);
    WritesWithinRank(s0, before);
    RunKeepsInv(s0, before);
    WritesWithinRank(After(s0, before), after);
  }

  // ---------------------------------------------------------------------------
  // Which initiations start a task
  // ---------------------------------------------------------------------------

  /** The keygen task that the call (`from`, `msg`) was meant to start has been started. */
  predicate KeygenServed(s: Orch, from: PeerId, msg: CoordinationMessage)
    requires msg.InitiateKeygen? && msg.timestamp >= 0
  {
    && |s.tasks| >= 2 && s.me in s.partyAssignments && s.auxInfo.Some?
    && s.tasks[1].initiator == from && s.tasks[1].executionId == msg.executionId
    && s.tasks[1].job == KeygenJob(s.partyAssignments[s.me], msg.totalParties, msg.threshold, msg.timestamp,
                                   s.auxInfo.value)
    && s.keygenTx == Some(1)
    && (s.handler.On? ==> s.handler.pc.Returning? && s.handler.pc.result == Ok)
  }

  /** The call is on its way to start the keygen task. */
  predicate KeygenUnderWay(s: Orch, from: PeerId, msg: CoordinationMessage)
    requires msg.InitiateKeygen? && msg.timestamp >= 0
  {
    && s.handler.On? && s.handler.from == from && s.handler.msg == msg
    && (|| (s.handler.pc == Working(1) && s.state.AuxCompleted? && AdmissionError(s, msg).None?)
        || (s.handler.Committed() && s.handler.entry == Some(AuxCompleted)))
  }

  /** The run contains no further call of the message handler. */
  predicate NoNewCall(acts: seq<Action>) {
    forall a :: a in acts ==> !a.DoDeliver?
  }

  lemma KeygenHandlerServes(s: Orch, from: PeerId, msg: CoordinationMessage)
    requires Inv(s) && HandlerReady(s)
    requires msg.InitiateKeygen? && msg.timestamp >= 0
    requires KeygenUnderWay(s, from, msg)
    ensures var s' := HandlerWork(s); KeygenUnderWay(s', from, msg) || KeygenServed(s', from, msg)
  {
    ExclusionIsolates(s);
  }

  lemma KeygenTaskServes(s: Orch, from: PeerId, msg: CoordinationMessage, i: nat)
    requires Inv(s) && i < |s.tasks| && TaskCanStep(s.tasks[i])
    requires msg.InitiateKeygen? && msg.timestamp >= 0
    requires KeygenUnderWay(s, from, msg) || KeygenServed(s, from, msg)
    ensures var s' := TaskStep(s, i); KeygenUnderWay(s', from, msg) || KeygenServed(s', from, msg)
  {
    OnlyLastMoves(s, i);
    ExclusionIsolates(s);
  }

  lemma KeygenStepServes(s: Orch, from: PeerId, msg: CoordinationMessage, a: Action)
    requires Inv(s) && Enabled(s, a) && !a.DoDeliver?
    requires msg.InitiateKeygen? && msg.timestamp >= 0
    requires KeygenUnderWay(s, from, msg) || KeygenServed(s, from, msg)
    ensures var s' := Apply(s, a); KeygenUnderWay(s', from, msg) || KeygenServed(s', from, msg)
  {
    match a
    case DoHandler => KeygenHandlerServes(s, from, msg);
    case DoTask(i) => KeygenTaskServes(s, from, msg, i);
    case DoFinish(i, _) => OnlyLastMoves(s, i);
    case _ =>
  }

  /** A valid InitiateKeygen that finds AuxCompleted always starts its task, with its own channel, however the
      rest of the call interleaves with the tasks: whenever the call is over, the task has been spawned. */
  lemma {:induction false} KeygenAlwaysStarts(s: Orch, from: PeerId, msg: CoordinationMessage, acts: seq<Action>)
    requires Inv(s) && Runs(s, acts) && NoNewCall(acts)
    requires msg.InitiateKeygen? && msg.timestamp >= 0
    requires KeygenUnderWay(s, from, msg) || KeygenServed(s, from, msg)
    ensures var s' := After(s, acts);
            s'.handler.Off? || s'.handler.pc.Returning? ==> KeygenServed(s', from, msg)
    decreases |acts|
  {
    if acts != [] {
      KeygenStepServes(s, from, msg, acts[0]);
      StepKeepsInv(s, acts[0]);
      KeygenAlwaysStarts(Apply(s, acts[0]), from, msg, acts[1..]);
    }
  }

  /** A signing task for the call (`from`, `msg`) has been started. */
  predicate SigningServed(s: Orch, from: PeerId, msg: CoordinationMessage)
    requires msg.InitiateSigning? && msg.timestamp >= 0
  {
    && |s.tasks| == 3 && s.me in s.partyAssignments && s.auxInfo.Some? && s.keyShare.Some?
    && s.tasks[2].initiator == from && s.tasks[2].executionId == msg.executionId
    && s.tasks[2].job == SigningJob(s.partyAssignments[s.me], msg.signers, msg.message, msg.timestamp,
                                    s.keyShare.value, s.auxInfo.value)
    && s.signingTx == Some(2)
    && (s.handler.On? ==> s.handler.pc.Returning? && s.handler.pc.result == Ok)
  }

  /** The call has passed, or is about to pass, its checks in state KeygenCompleted, and this node is a signer. */
  predicate SigningAdmitted(s: Orch, from: PeerId, msg: CoordinationMessage)
    requires msg.InitiateSigning? && msg.timestamp >= 0
  {
    && s.handler.On? && s.handler.from == from && s.handler.msg == msg && s.handler.pc == Working(1)
    && s.state.KeygenCompleted? && s.me in s.partyAssignments && s.partyAssignments[s.me] in msg.signers
  }

  /** The call is on its way to the key share, and the keygen task's request for that lock is older. */
  predicate SigningUnderWay(s: Orch, from: PeerId, msg: CoordinationMessage)
    requires msg.InitiateSigning? && msg.timestamp >= 0
  {
    && |s.tasks| == 2 && !s.tasks[1].pc.BeforeKey?
    && (s.tasks[1].pc.WantKey? ==> s.tasks[1].ticket < s.tickets)
    && (|| SigningAdmitted(s, from, msg)
        || (&& s.handler.Committed() && s.handler.from == from && s.handler.msg == msg
            && s.handler.entry.Some? && s.handler.entry.value.KeygenCompleted?
            && (s.handler.pc == Waiting(2) && s.tasks[1].pc.WantKey? ==> s.tasks[1].ticket < s.handler.ticket)
            && (s.handler.pc == Working(3) ==> s.tasks[1].pc.Done?)))
  }

  lemma SigningHandlerServes(s: Orch, from: PeerId, msg: CoordinationMessage)
    requires Inv(s) && HandlerReady(s)
    requires msg.InitiateSigning? && msg.timestamp >= 0
    requires SigningUnderWay(s, from, msg)
    ensures var s' := HandlerWork(s); SigningUnderWay(s', from, msg) || SigningServed(s', from, msg)
  {
    ExclusionIsolates(s);
  }

  lemma SigningGrantServes(s: Orch, from: PeerId, msg: CoordinationMessage, t: Thread)
    requires Inv(s) && s.Grantable(t)
    requires msg.InitiateSigning? && msg.timestamp >= 0
    requires SigningUnderWay(s, from, msg)
    ensures SigningUnderWay(Grant(s, t), from, msg)
  {
    ExclusionIsolates(s);
    if t.HandlerThread? && s.handler.pc == Waiting(2) {
      assert !s.WaitsFor(HandlerThread, TaskThread(1));
    }
  }

  lemma SigningTaskServes(s: Orch, from: PeerId, msg: CoordinationMessage, i: nat)
    requires Inv(s) && i < |s.tasks| && TaskCanStep(s.tasks[i])
    requires msg.InitiateSigning? && msg.timestamp >= 0
    requires SigningUnderWay(s, from, msg)
    ensures SigningUnderWay(TaskStep(s, i), from, msg)
  {
    OnlyLastMoves(s, i);
    ExclusionIsolates(s);
  }

  lemma SigningServedStep(s: Orch, from: PeerId, msg: CoordinationMessage, a: Action)
    requires Inv(s) && Enabled(s, a) && !a.DoDeliver?
    requires msg.InitiateSigning? && msg.timestamp >= 0 && SigningServed(s, from, msg)
    ensures SigningServed(Apply(s, a), from, msg)
  {
    if a.DoTask? {
      OnlyLastMoves(s, a.i);
    }
  }

  lemma SigningStepServes(s: Orch, from: PeerId, msg: CoordinationMessage, a: Action)
    requires Inv(s) && Enabled(s, a) && !a.DoDeliver?
    requires msg.InitiateSigning? && msg.timestamp >= 0
    requires SigningUnderWay(s, from, msg) || SigningServed(s, from, msg)
    ensures var s' := Apply(s, a); SigningUnderWay(s', from, msg) || SigningServed(s', from, msg)
  {
    if SigningServed(s, from, msg) {
      SigningServedStep(s, from, msg, a);
    } else {
      match a
      case DoHandler => SigningHandlerServes(s, from, msg);
      case DoGrant(t) => SigningGrantServes(s, from, msg, t);
      case DoTask(i) => SigningTaskServes(s, from, msg, i);
      case DoFinish(i, _) => OnlyLastMoves(s, i);
      case _ =>
    }
  }

  lemma {:induction false} SigningRunServes(s: Orch, from: PeerId, msg: CoordinationMessage, acts: seq<Action>)
    requires Inv(s) && Runs(s, acts) && NoNewCall(acts)
    requires msg.InitiateSigning? && msg.timestamp >= 0
    requires SigningUnderWay(s, from, msg) || SigningServed(s, from, msg)
    ensures var s' := After(s, acts); SigningUnderWay(s', from, msg) || SigningServed(s', from, msg)
    decreases |acts|
  {
    if acts != [] {
      SigningStepServes(s, from, msg, acts[0]);
      StepKeepsInv(s, acts[0]);
      SigningRunServes(Apply(s, acts[0]), from, msg, acts[1..]);
    }
  }

  /** The call ended without a signing task. */
  predicate SigningLost(s: Orch, from: PeerId, msg: CoordinationMessage) {
    && s.handler.On? && s.handler.from == from && s.handler.msg == msg
    && s.handler.pc == Returning(3, Err(KeyShareMissing)) && |s.tasks| == 2
  }

  /** The outcome of the aux info lookup is decided by the state the handler found: only the regular
      predecessor state leads on, the exemption for Idle never does. */
  lemma AuxLookupDecided(s: Orch)
    requires Reachable(s) && s.handler.On? && s.handler.pc == Working(2)
    ensures HandlerReady(s) && s.handler.entry.Some?
    ensures s.auxInfo.Some? <==> s.handler.entry.value.AuxCompleted? || s.handler.entry.value.KeygenCompleted?
    ensures s.handler.entry.value.Idle? <==> HandlerWork(s).handler.pc == Returning(2, Err(AuxInfoMissing))
  {
    ReachableInv(s);
  }

  /** The key share lookup succeeds exactly if the keygen task has finished altogether. */
  lemma KeyLookupDecided(s: Orch)
    requires Reachable(s) && s.handler.On? && s.handler.pc == Working(3)
    ensures HandlerReady(s) && |s.tasks| == 2
    ensures HandlerWork(s).handler.pc == (if s.tasks[1].pc.Done? then Returning(3, Ok)
                                          else Returning(3, Err(KeyShareMissing)))
    ensures s.tasks[1].pc.Done? <==> |HandlerWork(s).tasks| == 3
  {
    ReachableInv(s);
    assert HoldersAgree(s, HandlerThread, TaskThread(1), StateLock);
    assert HoldersAgree(s, HandlerThread, TaskThread(1), KeyLock);
  }

  // ---------------------------------------------------------------------------
  // Stranded orchestrators
  // ---------------------------------------------------------------------------

  /** An in-progress state that no task is going to replace. */
  predicate Stranded(s: Orch) {
    && (s.state.Keygen? || s.state.Signing?)
    && (forall i :: 0 <= i < |s.tasks| ==> !Early(s.tasks[i]))
    && !s.handler.Committed()
  }

  lemma StrandedTask(s: Orch, i: nat)
    requires Core(s) && Stranded(s) && i < |s.tasks| && TaskCanStep(s.tasks[i])
    ensures Stranded(TaskStep(s, i)) && TaskStep(s, i).state == s.state
  {
    assert !Early(s.tasks[i]) && Coherent(s.tasks[i]);
  }

  lemma StrandedHandler(s: Orch)
    requires HandlerMatches(s) && Stranded(s) && HandlerReady(s)
    ensures Stranded(HandlerWork(s)) && HandlerWork(s).state == s.state && |HandlerWork(s).tasks| == |s.tasks|
  {
  }

  lemma StrandedStep(s: Orch, a: Action)
    requires Core(s) && Stranded(s) && Enabled(s, a)
    ensures Stranded(Apply(s, a)) && Apply(s, a).state == s.state && |Apply(s, a).tasks| == |s.tasks|
  {
    match a
    case DoTask(i) => StrandedTask(s, i);
    case DoHandler => StrandedHandler(s);
    case _ =>
  }

  /** A stranded orchestrator keeps its state forever and never starts another task. */
  lemma {:induction false} StrandedForever(s: Orch, acts: seq<Action>)
    requires Inv(s) && Stranded(s) && Runs(s, acts)
    ensures Stranded(After(s, acts)) && After(s, acts).state == s.state && |After(s, acts).tasks| == |s.tasks|
    decreases |acts|
  {
    if acts != [] {
      StrandedStep(s, acts[0]);
      StepKeepsInv(s, acts[0]);
      StrandedForever(Apply(s, acts[0]), acts[1..]);
    }
  }

  /** The handler is about to look for aux info it was admitted without, or for a key share that is not stored
      yet, or is about to admit a signing request that does not name this node. */
  predicate AboutToStrand(s: Orch) {
    && s.handler.On? && s.handler.msg.Initiates()
    && (|| (s.handler.pc == Working(1) && s.handler.msg.InitiateSigning? && AdmissionError(s, s.handler.msg).None?
            && s.partyAssignments[s.me] !in s.handler.msg.signers)
        || (s.handler.pc == Working(2) && s.handler.entry == Some(Idle))
        || (s.handler.pc == Working(3) && |s.tasks| == 2 && !s.tasks[1].pc.Done?))
  }

  lemma FailedLookups(s: Orch)
    requires Inv(s) && HandlerReady(s) && s.handler.pc.level > 1
    ensures AboutToStrand(s) <==> HandlerWork(s).handler.pc.Returning? && HandlerWork(s).handler.pc.result.Err?
    ensures s.auxInfo.None? <==> s.handler.entry == Some(Idle)
    ensures s.handler.pc.level > 2 ==> |s.tasks| == 2 && (s.keyShare.None? <==> !s.tasks[1].pc.Done?)
  {
    if s.handler.pc.level > 2 {
      assert HoldersAgree(s, HandlerThread, TaskThread(1), StateLock);
      assert HoldersAgree(s, HandlerThread, TaskThread(1), KeyLock);
    }
  }

  lemma HandlerStrands(s: Orch)
    requires Inv(s) && HandlerReady(s) && !Stranded(s)
    ensures Stranded(HandlerWork(s)) <==> AboutToStrand(s)
  {
    ExclusionIsolates(s);
    if s.handler.pc.level > 1 {
      FailedLookups(s);
    }
    var s' := HandlerWork(s);
    if |s'.tasks| > |s.tasks| {
      assert Early(s'.tasks[|s.tasks|]);
    } else {
      assert s'.tasks == s.tasks;
    }
  }

  lemma OthersNeverStrand(s: Orch, a: Action)
    requires Inv(s) && Enabled(s, a) && !a.DoHandler? && !Stranded(s)
    ensures !Stranded(Apply(s, a))
  {
    if exists i :: 0 <= i < |s.tasks| && Early(s.tasks[i]) {
      var i :| 0 <= i < |s.tasks| && Early(s.tasks[i]);
      EarlyKept(s, a, i);
    }
  }

  /** A task stays unfinished until it writes the state, which is then no longer in progress. */
  lemma EarlyKept(s: Orch, a: Action, i: nat)
    requires Enabled(s, a) && !a.DoHandler? && i < |s.tasks| && Early(s.tasks[i])
    ensures i < |Apply(s, a).tasks|
    ensures Early(Apply(s, a).tasks[i]) || !(Apply(s, a).state.Keygen? || Apply(s, a).state.Signing?)
  {
    if a.DoTask? {
      EarlyTask(s, a.i, i);
    }
  }

  lemma EarlyTask(s: Orch, j: nat, i: nat)
    requires j < |s.tasks| && TaskCanStep(s.tasks[j]) && i < |s.tasks| && Early(s.tasks[i])
    ensures i < |TaskStep(s, j).tasks|
    ensures Early(TaskStep(s, j).tasks[i]) || !(TaskStep(s, j).state.Keygen? || TaskStep(s, j).state.Signing?)
  {
  }

  /** What strands an orchestrator, and nothing else does: the handler's step that finds itself without aux info
      since the request was admitted in Idle, without the key share since the keygen task is not over, or not
      among the signers. The in-progress state has then been written, and no task is going to replace it. */
  lemma WhatStrands(s: Orch, a: Action)
    requires Reachable(s) && Enabled(s, a) && !Stranded(s)
    ensures Stranded(Apply(s, a)) <==> a.DoHandler? && AboutToStrand(s)
  {
    ReachableInv(s);
    if a.DoHandler? {
      HandlerStrands(s);
    } else {
      OthersNeverStrand(s, a);
    }
  }
}

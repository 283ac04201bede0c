/** Safety of the orchestrator over all interleavings: one inductive invariant and what follows from it. */
module OrchestrationProof {
  import opened Basics
  import opened Orchestration

  // ---------------------------------------------------------------------------
  // Tasks
  // ---------------------------------------------------------------------------

  /** The task has not written the protocol state yet. */
  predicate Early(t: Task) {
    t.pc.Running? || t.pc.WantAux? || t.pc.HasAux? || t.pc.WantState? || t.pc.HasState?
  }

  predicate Live(t: Task) {
    !t.pc.Done?
  }

  predicate Succeeded(t: Task) {
    t.pc.Done? && !t.outcome.TaskErr? && !t.outcome.Pending?
  }

  /** The task has stored its result in the orchestrator. */
  predicate Stored(t: Task) {
    || (t.outcome.AuxOk? && !t.pc.Running? && !t.pc.WantAux? && !t.pc.HasAux?)
    || (t.outcome.KeygenOk? && (t.pc.LastGuard? || t.pc.Done?))
  }

  /** Program counter and outcome belong together. */
  predicate Coherent(t: Task) {
    && (if t.pc.Running? then t.outcome.Pending? else Fits(t.job, t.outcome))
    && (t.pc.WantAux? || t.pc.HasAux? ==> t.outcome.AuxOk?)
    && (t.pc.BeforeKey? || t.pc.WantKey? || t.pc.HasKey? ==> t.outcome.KeygenOk?)
    && (t.pc.LastGuard? ==> t.outcome.AuxOk? || t.outcome.KeygenOk?)
  }

  /** `state` is the in-progress state that the initiation of task `t` wrote: same phase, same execution. */
  predicate InProgress(state: ProtocolState, t: Task) {
    match t.job
    case AuxJob(_, _, _) => state == AuxGeneration(t.initiator, t.executionId)
    case KeygenJob(_, _, threshold, _, _) => state == Keygen(t.initiator, t.executionId, threshold)
    case SigningJob(_, signers, message, _, _, _) =>
      state == Signing(t.initiator, t.executionId, message, signers)
  }

  function PhaseAt(i: nat): Phase {
    if i == 0 then AuxPhase else if i == 1 then KeygenPhase else SigningPhase
  }

  /** The tasks ever spawned are a prefix of aux, keygen, signing, and all but the last have succeeded. */
  predicate TasksInOrder(tasks: seq<Task>) {
    && |tasks| <= 3
    && (forall i :: 0 <= i < |tasks| ==> tasks[i].ThePhase() == PhaseAt(i) && Coherent(tasks[i]))
    && (forall i :: 0 <= i < |tasks| - 1 ==> Succeeded(tasks[i]))
  }

  // ---------------------------------------------------------------------------
  // The invariant
  // ---------------------------------------------------------------------------

  predicate StoresMatch(s: Orch) {
    && s.auxInfo == (if |s.tasks| > 0 && Stored(s.tasks[0]) && s.tasks[0].outcome.AuxOk?
                     then Some(s.tasks[0].outcome.info) else None)
    && s.keyShare == (if |s.tasks| > 1 && Stored(s.tasks[1]) && s.tasks[1].outcome.KeygenOk?
                      then Some(s.tasks[1].outcome.share) else None)
    && s.auxTx == (if |s.tasks| > 0 then Some(0) else None)
    && s.keygenTx == (if |s.tasks| > 1 then Some(1) else None)
    && s.signingTx == (if |s.tasks| > 2 then Some(2) else None)
  }

  /** The states that may follow the successful state write of the last task. */
  predicate Follows(state: ProtocolState, t: Task) {
    match t.outcome
    case AuxOk(_) => state.AuxCompleted? || state.Keygen?
    case KeygenOk(share) => state == KeygenCompleted(share.publicKey) || state.Signing?
    case _ => state == FinalState(t)
  }

  predicate StateMatches(s: Orch) {
    if |s.tasks| == 0 then s.state.Idle? || s.state.Keygen? || s.state.Signing?
    else
      var t := s.tasks[|s.tasks| - 1];
      if Early(t) then InProgress(s.state, t) else Follows(s.state, t)
  }

  /** A handler between its state write and its spawn: which state it wrote, which state it found. */
  predicate CommittedMatches(s: Orch)
    requires s.handler.On? && s.handler.msg.Initiates()
  {
    var h := s.handler;
    && h.msg.timestamp >= 0 && h.entry.Some? && s.me in s.partyAssignments
    && (match h.msg
        case InitiateKeygen(id, threshold, _, _) =>
          && h.pc.level <= 2 && (h.pc.Waiting? ==> h.pc.level == 1)
          && s.state == Keygen(h.from, id, threshold)
          && (|| (h.entry == Some(Idle) && |s.tasks| == 0)
              || (h.entry == Some(AuxCompleted) && |s.tasks| == 1 && s.tasks[0].outcome.AuxOk?
                  && !Early(s.tasks[0])))
        case InitiateSigning(id, message, signers, _) =>
          && (h.pc.Waiting? ==> h.pc.level <= 2) && h.pc.level <= 3
          && s.partyAssignments[s.me] in signers
          && s.state == Signing(h.from, id, message, signers)
          && (|| (h.entry == Some(Idle) && |s.tasks| == 0 && h.pc.level <= 2 && (h.pc.Waiting? ==> h.pc.level == 1))
              || (h.entry.value.KeygenCompleted? && |s.tasks| == 2 && s.tasks[1].outcome.KeygenOk?
                  && !Early(s.tasks[1])))
        case _ => false)
  }

  predicate HandlerMatches(s: Orch) {
    var h := s.handler;
    h.On? ==>
      && (h.pc.Waiting? && h.pc.level == 0 ==> h.msg.Initiates() && h.msg.timestamp >= 0)
      && (h.pc.Working? && h.pc.level <= 1 ==> h.pc.level == 1 && h.msg.Initiates() && h.msg.timestamp >= 0)
      && (h.Committed() ==> h.msg.Initiates() && CommittedMatches(s))
  }

  /** After aux generation, state Keygen is only seen while a handler is about to spawn the keygen task. */
  predicate NoStrandedKeygen(s: Orch) {
    |s.tasks| == 1 && !Early(s.tasks[0]) && s.state.Keygen? ==> s.handler.Committed()
  }

  predicate HoldersAgree(s: Orch, t: Thread, u: Thread, l: Lock)
    requires s.Has(t) && s.Has(u)
  {
    s.Holds(t, l).Some? && s.Holds(u, l).Some? ==> s.Holds(t, l) == s.Holds(u, l) == Some(Read)
  }

  ghost predicate MutualExclusion(s: Orch) {
    forall t, u, l :: t != u && s.Has(t) && s.Has(u) ==> HoldersAgree(s, t, u, l)
  }

  predicate Core(s: Orch) {
    && TasksInOrder(s.tasks)
    && StoresMatch(s)
    && StateMatches(s)
    && HandlerMatches(s)
    && NoStrandedKeygen(s)
  }

  ghost predicate Inv(s: Orch) {
    Core(s) && MutualExclusion(s)
  }

  lemma InvNew(s: Orch)
    requires IsNew(s)
    ensures Inv(s)
  {
  }

  // ---------------------------------------------------------------------------
  // Preservation, one kind of step at a time
  // ---------------------------------------------------------------------------

  lemma SpawnKeepsOrder(tasks: seq<Task>, t: Task)
    requires TasksInOrder(tasks) && |tasks| < 3
    requires |tasks| > 0 ==> Succeeded(tasks[|tasks| - 1])
    requires t.ThePhase() == PhaseAt(|tasks|) && Coherent(t)
    ensures TasksInOrder(tasks + [t])
  {
  }

  lemma StepKeepsOrder(tasks: seq<Task>, t: Task)
    requires TasksInOrder(tasks) && |tasks| > 0
    requires t.ThePhase() == PhaseAt(|tasks| - 1) && Coherent(t)
    ensures TasksInOrder(tasks[|tasks| - 1 := t])
  {
  }

  lemma OnlyLastMoves(s: Orch, i: nat)
    requires TasksInOrder(s.tasks) && i < |s.tasks| && Live(s.tasks[i])
    ensures i == |s.tasks| - 1
  {
  }

  /** Exclusion survives a step in which no thread gains a lock. */
  lemma ExclusionKept(s: Orch, s': Orch)
    requires MutualExclusion(s)
    requires forall u :: s.Has(u) ==> s'.Has(u)
    requires forall u, l {:trigger s'.Holds(u, l)} :: s'.Has(u) && s'.Holds(u, l).Some? ==>
               s.Has(u) && s.Holds(u, l) == s'.Holds(u, l)
    ensures MutualExclusion(s')
  {
    forall u, v, l | u != v && s'.Has(u) && s'.Has(v)
      ensures HoldersAgree(s', u, v, l)
    {
      if s'.Holds(u, l).Some? && s'.Holds(v, l).Some? {
        assert HoldersAgree(s, u, v, l);
      }
    }
  }

  lemma GrantKeepsExclusion(s: Orch, t: Thread)
    requires MutualExclusion(s) && s.Grantable(t)
    ensures MutualExclusion(Grant(s, t))
  {
    var s' := Grant(s, t);
    var l := s.Wants(t).value;
    forall u, v, k | u != v && s'.Has(u) && s'.Has(v)
      ensures HoldersAgree(s', u, v, k)
    {
      assert HoldersAgree(s, u, v, k);
      assert !s.WaitsFor(t, u) && !s.WaitsFor(t, v);
    }
  }

  lemma HandlerGrantKeepsCore(s: Orch)
    requires Core(s) && s.Wants(HandlerThread).Some?
    ensures Core(Grant(s, HandlerThread))
  {
  }

  lemma TaskGrantKeepsCore(s: Orch, i: nat)
    requires Core(s) && i < |s.tasks| && s.Wants(TaskThread(i)).Some?
    ensures Core(Grant(s, TaskThread(i)))
  {
    OnlyLastMoves(s, i);
    StepKeepsOrder(s.tasks, Grant(s, TaskThread(i)).tasks[i]);
  }

  lemma GrantKeepsInv(s: Orch, t: Thread)
    requires Inv(s) && s.Grantable(t)
    ensures Inv(Grant(s, t))
  {
    GrantKeepsExclusion(s, t);
    match t
    case HandlerThread => HandlerGrantKeepsCore(s);
    case TaskThread(i) => TaskGrantKeepsCore(s, i);
    case PollThread(_) =>
  }

  /** What exclusion tells a running handler about the last task. */
  predicate HandlerAlone(s: Orch) {
    |s.tasks| > 0 ==>
      var last := TaskThread(|s.tasks| - 1);
      && HoldersAgree(s, HandlerThread, last, StateLock)
      && HoldersAgree(s, HandlerThread, last, AuxLock)
      && HoldersAgree(s, HandlerThread, last, KeyLock)
  }

  lemma AuxAdmissionKeepsCore(s: Orch)
    requires Core(s) && HandlerReady(s) && s.handler.pc.level <= 1 && s.handler.msg.InitiateAux?
    ensures Core(HandlerWork(s))
  {
    if AdmissionError(s, s.handler.msg).None? {
      SpawnKeepsOrder(s.tasks, HandlerWork(s).tasks[|s.tasks|]);
    }
  }

  lemma KeygenAdmissionKeepsCore(s: Orch)
    requires Core(s) && HandlerReady(s) && s.handler.pc.level <= 1 && s.handler.msg.InitiateKeygen?
    ensures Core(HandlerWork(s))
  {
    var s' := HandlerWork(s);
    if AdmissionError(s, s.handler.msg).Some? {
      assert s' == Refuse(s.(handler := s.handler.(entry := Some(s.state))), AdmissionError(s, s.handler.msg).value);
    } else {
      assert s'.tasks == s.tasks && StoresMatch(s');
      assert |s.tasks| == 0 || |s.tasks| == 1;
      assert StateMatches(s');
      assert HandlerMatches(s');
    }
  }

  lemma SigningAdmissionKeepsCore(s: Orch)
    requires Core(s) && HandlerReady(s) && s.handler.pc.level <= 1 && s.handler.msg.InitiateSigning?
    ensures Core(HandlerWork(s))
  {
    var s' := HandlerWork(s);
    if AdmissionError(s, s.handler.msg).Some? {
      assert s' == Refuse(s.(handler := s.handler.(entry := Some(s.state))), AdmissionError(s, s.handler.msg).value);
    } else {
      assert s'.tasks == s.tasks && StoresMatch(s');
      assert |s.tasks| == 0 || |s.tasks| == 2;
      assert StateMatches(s');
      assert HandlerMatches(s');
    }
  }

  lemma AuxInfoKeepsCore(s: Orch)
    requires Core(s) && HandlerReady(s) && s.handler.pc.level == 2 && HandlerAlone(s)
    ensures Core(HandlerWork(s))
  {
    if s.auxInfo.Some? && s.handler.msg.InitiateKeygen? {
      SpawnKeepsOrder(s.tasks, HandlerWork(s).tasks[|s.tasks|]);
    }
  }

  lemma KeyShareKeepsCore(s: Orch)
    requires Core(s) && HandlerReady(s) && s.handler.pc.level > 2 && HandlerAlone(s)
    ensures Core(HandlerWork(s))
  {
    if s.keyShare.Some? {
      SpawnKeepsOrder(s.tasks, HandlerWork(s).tasks[|s.tasks|]);
    }
  }

  lemma HandlerKeepsCore(s: Orch)
    requires Core(s) && HandlerReady(s) && HandlerAlone(s)
    ensures Core(HandlerWork(s))
  {
    if s.handler.pc.level == 2 {
      AuxInfoKeepsCore(s);
    } else if s.handler.pc.level > 2 {
      KeyShareKeepsCore(s);
    } else {
      match s.handler.msg {
        case InitiateAux(_, _, _, _) => AuxAdmissionKeepsCore(s);
        case InitiateKeygen(_, _, _, _) => KeygenAdmissionKeepsCore(s);
        case InitiateSigning(_, _, _, _) => SigningAdmissionKeepsCore(s);
      }
    }
  }

  lemma ExclusionIsolates(s: Orch)
    requires MutualExclusion(s)
    ensures HandlerAlone(s)
  {
    if |s.tasks| > 0 {
      assert HoldersAgree(s, HandlerThread, TaskThread(|s.tasks| - 1), StateLock);
    }
  }

  lemma HandlerKeepsInv(s: Orch)
    requires Inv(s) && HandlerReady(s)
    ensures Inv(HandlerWork(s))
  {
    HandlerKeepsExclusion(s);
    ExclusionIsolates(s);
    HandlerKeepsCore(s);
  }

  lemma HandlerKeepsExclusion(s: Orch)
    requires MutualExclusion(s) && HandlerReady(s)
    ensures MutualExclusion(HandlerWork(s))
  {
    ExclusionKept(s, HandlerWork(s));
  }

  lemma DeliverKeepsInv(s: Orch, from: PeerId, msg: CoordinationMessage)
    requires Inv(s) && s.handler.Off?
    ensures Inv(Deliver(s, from, msg))
  {
    ExclusionKept(s, Deliver(s, from, msg));
  }

  lemma ReturnKeepsInv(s: Orch)
    requires Inv(s) && s.handler.On? && s.handler.pc.Returning?
    ensures Inv(HandlerReturn(s))
  {
    ExclusionKept(s, HandlerReturn(s));
  }

  lemma FinishKeepsInv(s: Orch, i: nat, outcome: Outcome)
    requires Inv(s) && i < |s.tasks| && s.tasks[i].pc.Running? && Fits(s.tasks[i].job, outcome)
    ensures Inv(Finish(s, i, outcome))
  {
    ExclusionKept(s, Finish(s, i, outcome));
  }

  lemma WriteKeepsCore(s: Orch, i: nat)
    requires Core(s) && i < |s.tasks| && s.tasks[i].pc.HasState? && HandlerAlone(s)
    ensures Core(TaskStep(s, i))
  {
    OnlyLastMoves(s, i);
    StepKeepsOrder(s.tasks, TaskStep(s, i).tasks[i]);
  }

  lemma StoreKeepsCore(s: Orch, i: nat)
    requires Core(s) && i < |s.tasks| && (s.tasks[i].pc.HasAux? || s.tasks[i].pc.HasKey?)
    ensures Core(TaskStep(s, i))
  {
    OnlyLastMoves(s, i);
    StepKeepsOrder(s.tasks, TaskStep(s, i).tasks[i]);
  }

  lemma ReleaseKeepsCore(s: Orch, i: nat)
    requires Core(s) && i < |s.tasks|
    requires s.tasks[i].pc.Wrote? || s.tasks[i].pc.BeforeKey? || s.tasks[i].pc.LastGuard?
    ensures Core(TaskStep(s, i))
  {
    OnlyLastMoves(s, i);
    StepKeepsOrder(s.tasks, TaskStep(s, i).tasks[i]);
  }

  lemma TaskKeepsInv(s: Orch, i: nat)
    requires Inv(s) && i < |s.tasks| && TaskCanStep(s.tasks[i])
    ensures Inv(TaskStep(s, i))
  {
    ExclusionKept(s, TaskStep(s, i));
    OnlyLastMoves(s, i);
    ExclusionIsolates(s);
    match s.tasks[i].pc {
      case HasState => WriteKeepsCore(s, i);
      case HasAux | HasKey => StoreKeepsCore(s, i);
      case _ => ReleaseKeepsCore(s, i);
    }
  }

  lemma StepKeepsInv(s: Orch, a: Action)
    requires Inv(s) && Enabled(s, a)
    ensures Inv(Apply(s, a))
  {
    match a
    case DoDeliver(from, msg) => DeliverKeepsInv(s, from, msg);
    case DoHandler => HandlerKeepsInv(s);
    case DoReturn => ReturnKeepsInv(s);
    case DoFinish(i, outcome) => FinishKeepsInv(s, i, outcome);
    case DoTask(i) => TaskKeepsInv(s, i);
    case DoGrant(t) => GrantKeepsInv(s, t);
    case DoStartPoll => PollKeepsInv(s, a);
    case DoPoll(_) => PollKeepsInv(s, a);
  }

  lemma PollKeepsInv(s: Orch, a: Action)
    requires Inv(s) && Enabled(s, a) && (a.DoStartPoll? || a.DoPoll?)
    ensures Inv(Apply(s, a))
  {
    ExclusionKept(s, Apply(s, a));
  }

  lemma {:induction false} RunKeepsInv(s: Orch, acts: seq<Action>)
    requires Inv(s) && Runs(s, acts)
    ensures Inv(After(s, acts))
    decreases |acts|
  {
    if acts != [] {
      StepKeepsInv(s, acts[0]);
      RunKeepsInv(Apply(s, acts[0]), acts[1..]);
    }
  }

  lemma ReachableInv(s: Orch)
    requires Reachable(s)
    ensures Inv(s)
  {
    var s0, acts :| IsNew(s0) && Runs(s0, acts) && s == After(s0, acts);
    InvNew(s0);
    RunKeepsInv(s0, acts);
  }
}

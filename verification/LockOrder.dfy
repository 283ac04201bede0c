/** Deadlock freedom and bounded runs of the orchestrator's lock protocol.

    Handlers take state, then aux_info, then key_share; the aux task takes aux_info, then state. The two orders
    clash, so no fixed lock order explains why nothing deadlocks: the order below depends on whether an aux task
    is asking for the state lock while it holds aux_info. */
module LockOrder {
  import opened Basics
  import opened Orchestration
  import opened OrchestrationProof

  // ---------------------------------------------------------------------------
  // How long locks are held
  // ---------------------------------------------------------------------------

  /** The aux task keeps aux_info from before it stores its result until after it has let go of the state, so that
      nobody reads the result before the state says AuxCompleted. */
  lemma AuxGuardSpansStateWrite(s: Orch, i: nat, t: Thread)
    requires Reachable(s) && i < |s.tasks| && s.tasks[i].outcome.AuxOk?
    ensures s.tasks[i].Holds(AuxLock).Some? <==>
              !s.tasks[i].pc.Running? && !s.tasks[i].pc.WantAux? && !s.tasks[i].pc.Done?
    ensures s.auxInfo.Some? && !s.tasks[i].pc.Done? && s.Has(t) && t != TaskThread(i) ==> s.Holds(t, AuxLock).None?
    ensures s.Has(t) && t != TaskThread(i) && s.Holds(t, AuxLock).Some? ==>
              s.auxInfo.None? || (s.tasks[i].pc.Done? && !s.state.AuxGeneration?)
  {
    ReachableInv(s);
    assert s.tasks[i].ThePhase() == PhaseAt(i);
    assert Coherent(s.tasks[i]);
    if s.Has(t) && t != TaskThread(i) {
      assert HoldersAgree(s, TaskThread(i), t, AuxLock);
    }
  }

  /** A handler keeps each lock it has got until it returns: in the order state, aux_info, key_share, the first for
      writing. */
  lemma HandlerKeepsItsLocks(s: Orch)
    requires Reachable(s) && s.handler.On?
    ensures s.handler.Holds(StateLock) == (if s.handler.pc.level >= 1 then Some(Write) else None)
    ensures s.handler.Holds(AuxLock) == (if s.handler.pc.level >= 2 then Some(Read) else None)
    ensures s.handler.Holds(KeyLock) == (if s.handler.pc.level >= 3 then Some(Read) else None)
    ensures s.handler.pc.level >= 1 ==> forall i :: 0 <= i < |s.tasks| ==> s.tasks[i].Holds(StateLock).None?
  {
    ReachableInv(s);
    forall i | 0 <= i < |s.tasks| && s.handler.pc.level >= 1
      ensures s.tasks[i].Holds(StateLock).None?
    {
      assert HoldersAgree(s, HandlerThread, TaskThread(i), StateLock);
    }
  }

  // ---------------------------------------------------------------------------
  // No cycle of waiting threads
  // ---------------------------------------------------------------------------

  /** Each thread of the path waits for the next one. */
  ghost predicate WaitChain(s: Orch, path: seq<Thread>) {
    |path| >= 2 && forall i :: 0 <= i < |path| - 1 ==> s.WaitsFor(path[i], path[i + 1])
  }

  /** An aux task holds aux_info and waits for state. */
  predicate AuxTaskAscends(s: Orch) {
    |s.tasks| == 1 && s.tasks[0].pc.WantState? && s.tasks[0].outcome.AuxOk?
  }

  function LockHeight(s: Orch, l: Lock): nat {
    match l
    case KeyLock => 1
    case AuxLock => if AuxTaskAscends(s) then 3 else 2
    case StateLock => if AuxTaskAscends(s) then 2 else 3
  }

  function Height(s: Orch, t: Thread): nat
    requires s.Has(t)
  {
    if s.Wants(t).None? then 0 else LockHeight(s, s.Wants(t).value)
  }

  /** `u` is served no later than `t`: it waits for a lower lock, or earlier for the same one. */
  predicate Below(s: Orch, u: Thread, t: Thread) {
    && s.Has(u) && s.Has(t)
    && (|| Height(s, u) < Height(s, t)
        || (Height(s, u) == Height(s, t) && Height(s, u) > 0 && s.Ticket(u) < s.Ticket(t)))
  }

  lemma TaskHolderBelow(s: Orch, i: nat, l: Lock)
    requires Inv(s) && i < |s.tasks| && s.tasks[i].Holds(l).Some?
    ensures Height(s, TaskThread(i)) < LockHeight(s, l)
  {
    OnlyLastMoves(s, i);
  }

  lemma HandlerHolderBelow(s: Orch, l: Lock)
    requires Inv(s) && s.handler.Holds(l).Some?
    ensures Height(s, HandlerThread) < LockHeight(s, l)
  {
    if s.handler.pc.Waiting? {
      assert s.handler.Committed();
      assert !AuxTaskAscends(s);
    }
  }

  lemma WaitingForBelow(s: Orch, t: Thread, u: Thread)
    requires Inv(s) && s.WaitsFor(t, u)
    ensures Below(s, u, t)
  {
    var l := s.Wants(t).value;
    if s.Holds(u, l).Some? {
      match u {
        case HandlerThread => HandlerHolderBelow(s, l);
        case TaskThread(i) => TaskHolderBelow(s, i, l);
        case PollThread(i) =>
      }
    }
  }

  lemma {:induction false} ChainDescends(s: Orch, path: seq<Thread>)
    requires Inv(s) && WaitChain(s, path)
    ensures Below(s, path[|path| - 1], path[0])
    decreases |path|
  {
    WaitingForBelow(s, path[0], path[1]);
    if |path| > 2 {
      var rest := path[1..];
      forall i | 0 <= i < |rest| - 1
        ensures s.WaitsFor(rest[i], rest[i + 1])
      {
        assert s.WaitsFor(path[i + 1], path[i + 2]);
      }
      ChainDescends(s, rest);
    }
  }

  /** No reachable interleaving has a cycle of threads waiting for each other's locks, of any length. */
  lemma NoWaitCycle(s: Orch, path: seq<Thread>)
    requires Reachable(s) && WaitChain(s, path)
    ensures path[0] != path[|path| - 1]
  {
    ReachableInv(s);
    ChainDescends(s, path);
  }

  // ---------------------------------------------------------------------------
  // Somebody can always move
  // ---------------------------------------------------------------------------

  /** Steps the program takes by itself: everything but new calls, new polls and the end of cryptography. */
  predicate Internal(a: Action) {
    !a.DoDeliver? && !a.DoStartPoll? && !a.DoFinish?
  }

  lemma HolderCanStep(s: Orch, u: Thread, l: Lock) returns (a: Action)
    requires Inv(s) && s.Has(u) && s.Holds(u, l).Some? && s.Wants(u).None?
    ensures Internal(a) && Enabled(s, a) && (a.DoReturn? ==> s.handler.pc.level > 0)
  {
    match u
    case HandlerThread => a := if s.handler.pc.Working? then DoHandler else DoReturn;
    case TaskThread(i) => a := DoTask(i);
    case PollThread(i) => a := DoPoll(i);
  }

  lemma {:induction false} WaiterLeadsToStep(s: Orch, t: Thread) returns (a: Action)
    requires Inv(s) && s.Has(t) && s.Wants(t).Some?
    ensures Internal(a) && Enabled(s, a) && (a.DoReturn? ==> s.handler.pc.level > 0)
    decreases Height(s, t), s.Ticket(t)
  {
    if s.Grantable(t) {
      a := DoGrant(t);
    } else {
      var u :| s.WaitsFor(t, u);
      WaitingForBelow(s, t, u);
      if s.Wants(u).Some? {
        a := WaiterLeadsToStep(s, u);
      } else {
        a := HolderCanStep(s, u, s.Wants(t).value);
      }
    }
  }

  /** While any thread waits for a lock, some step of the program itself is possible. */
  lemma ProgressWhileWaiting(s: Orch, t: Thread)
    requires Reachable(s) && s.Has(t) && s.Wants(t).Some?
    ensures exists a :: Internal(a) && Enabled(s, a)
  {
    ReachableInv(s);
    var a := WaiterLeadsToStep(s, t);
  }

  // ---------------------------------------------------------------------------
  // Runs are bounded
  // ---------------------------------------------------------------------------

  function HandlerWorkLeft(h: Handler): nat {
    if h.Off? then 0
    else match h.pc
      case Waiting(level) => if level > 2 then 0 else 18 - 2 * level
      case Working(level) => if level > 3 then 0 else 19 - 2 * level
      case Returning(level, _) => level + 1
  }

  function TaskWorkLeft(t: Task): nat {
    match t.pc
    case Running => 8
    case WantAux => 7
    case HasAux => 6
    case WantState => if t.outcome.AuxOk? then 5 else 7
    case HasState => if t.outcome.AuxOk? then 4 else 6
    case Wrote => if t.outcome.AuxOk? then 3 else 5
    case BeforeKey => 4
    case WantKey => 3
    case HasKey => 2
    case LastGuard => 1
    case Done => 0
  }

  function TasksWorkLeft(tasks: seq<Task>): nat {
    if tasks == [] then 0 else TasksWorkLeft(tasks[..|tasks| - 1]) + TaskWorkLeft(tasks[|tasks| - 1])
  }

  function PollWorkLeft(p: Poll): nat {
    match p case PollWant(_) => 2 case PollHas => 1 case PollDone(_) => 0
  }

  function PollsWorkLeft(polls: seq<Poll>): nat {
    if polls == [] then 0 else PollsWorkLeft(polls[..|polls| - 1]) + PollWorkLeft(polls[|polls| - 1])
  }

  function WorkLeft(s: Orch): nat {
    HandlerWorkLeft(s.handler) + TasksWorkLeft(s.tasks) + PollsWorkLeft(s.polls)
  }

  /** Delivering a call adds at most 18 units and starting a poll 2, which with the step itself makes 19 and 3;
      every other step uses at least one unit up. */
  function Fuel(a: Action): nat {
    if a.DoDeliver? then 19 else if a.DoStartPoll? then 3 else 0
  }

  function TotalFuel(acts: seq<Action>): nat {
    if acts == [] then 0 else Fuel(acts[0]) + TotalFuel(acts[1..])
  }

  lemma {:induction false} TasksWorkUpdate(tasks: seq<Task>, i: nat, t: Task)
    requires i < |tasks|
    ensures TasksWorkLeft(tasks[i := t]) == TasksWorkLeft(tasks) - TaskWorkLeft(tasks[i]) + TaskWorkLeft(t)
    decreases |tasks|
  {
    var n := |tasks| - 1;
    if i < n {
      TasksWorkUpdate(tasks[..n], i, t);
      assert tasks[i := t][..n] == tasks[..n][i := t];
    } else {
      assert tasks[i := t][..n] == tasks[..n];
    }
  }

  lemma {:induction false} PollsWorkUpdate(polls: seq<Poll>, i: nat, p: Poll)
    requires i < |polls|
    ensures PollsWorkLeft(polls[i := p]) == PollsWorkLeft(polls) - PollWorkLeft(polls[i]) + PollWorkLeft(p)
    decreases |polls|
  {
    var n := |polls| - 1;
    if i < n {
      PollsWorkUpdate(polls[..n], i, p);
      assert polls[i := p][..n] == polls[..n][i := p];
    } else {
      assert polls[i := p][..n] == polls[..n];
    }
  }

  lemma TaskStepUsesWork(s: Orch, s': Orch, i: nat)
    requires i < |s.tasks| == |s'.tasks| && s'.tasks == s.tasks[i := s'.tasks[i]]
    requires TaskWorkLeft(s'.tasks[i]) < TaskWorkLeft(s.tasks[i])
    requires s'.handler == s.handler && s'.polls == s.polls
    ensures WorkLeft(s') < WorkLeft(s)
  {
    TasksWorkUpdate(s.tasks, i, s'.tasks[i]);
  }

  /** The handler's code gets on, and a task it spawns has at most 8 units before it. */
  lemma HandlerStepShape(s: Orch)
    requires HandlerMatches(s) && HandlerReady(s)
    ensures var s' := HandlerWork(s);
            && s'.polls == s.polls && HandlerWorkLeft(s'.handler) < HandlerWorkLeft(s.handler)
            && (|| s'.tasks == s.tasks
                || (&& |s'.tasks| == |s.tasks| + 1 && s'.tasks[..|s.tasks|] == s.tasks
                    && TaskWorkLeft(s'.tasks[|s.tasks|]) == 8
                    && HandlerWorkLeft(s'.handler) + 8 < HandlerWorkLeft(s.handler)))
  {
  }

  lemma HandlerStepUsesWork(s: Orch)
    requires HandlerMatches(s) && HandlerReady(s)
    ensures WorkLeft(HandlerWork(s)) < WorkLeft(s)
  {
    HandlerStepShape(s);
  }

  lemma GrantUsesWork(s: Orch, t: Thread)
    requires Inv(s) && s.Has(t) && s.Wants(t).Some?
    ensures WorkLeft(Grant(s, t)) < WorkLeft(s)
  {
    match t
    case HandlerThread =>
    case TaskThread(i) => TaskStepUsesWork(s, Grant(s, t), i);
    case PollThread(i) => PollsWorkUpdate(s.polls, i, PollHas);
  }

  lemma TaskCodeUsesWork(s: Orch, i: nat)
    requires Inv(s) && i < |s.tasks| && TaskCanStep(s.tasks[i])
    ensures WorkLeft(TaskStep(s, i)) < WorkLeft(s)
  {
    TaskStepUsesWork(s, TaskStep(s, i), i);
  }

  lemma StepUsesWork(s: Orch, a: Action)
    requires Inv(s) && Enabled(s, a)
    ensures WorkLeft(Apply(s, a)) < WorkLeft(s) + Fuel(a)
  {
    match a
    case DoDeliver(_, _) =>
    case DoHandler => HandlerStepUsesWork(s);
    case DoReturn =>
    case DoFinish(i, outcome) => TaskStepUsesWork(s, Finish(s, i, outcome), i);
    case DoTask(i) => TaskCodeUsesWork(s, i);
    case DoGrant(t) => GrantUsesWork(s, t);
    case DoStartPoll => assert (s.polls + [PollWant(s.tickets)])[..|s.polls|] == s.polls;
    case DoPoll(i) => PollsWorkUpdate(s.polls, i, PollDone(s.state));
  }

  lemma {:induction false} RunUsesWork(s: Orch, acts: seq<Action>)
    requires Inv(s) && Runs(s, acts)
    ensures WorkLeft(After(s, acts)) + |acts| <= WorkLeft(s) + TotalFuel(acts)
    decreases |acts|
  {
    if acts != [] {
      StepUsesWork(s, acts[0]);
      StepKeepsInv(s, acts[0]);
      RunUsesWork(Apply(s, acts[0]), acts[1..]);
    }
  }

  /** Every run is at most 19 steps per delivered message and 3 per poll long, whatever the interleaving. */
  lemma RunsAreBounded(s: Orch, acts: seq<Action>)
    requires IsNew(s) && Runs(s, acts)
    ensures |acts| <= TotalFuel(acts)
  {
    InvNew(s);
    RunUsesWork(s, acts);
  }

  /** When the program can take no further step by itself, no thread waits and no lock is held. */
  lemma QuietMeansUnlocked(s: Orch, t: Thread, l: Lock)
    requires Reachable(s) && s.Has(t)
    requires forall a :: Internal(a) ==> !Enabled(s, a)
    ensures s.Wants(t).None? && s.Holds(t, l).None?
  {
    ReachableInv(s);
    if s.Wants(t).Some? {
      var a := WaiterLeadsToStep(s, t);
      assert false;
    } else if s.Holds(t, l).Some? {
      var a := HolderCanStep(s, t, l);
      assert false;
    }
  }
}

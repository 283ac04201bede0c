/** Handlers and task endings executed without interference: what the fine-grained machine does when one thread
    runs to completion while no other thread is inside a critical section. */
module Uninterrupted {
  import opened Basics
  import opened Orchestration
  import opened OrchestrationProof

  /** No task and no poll holds or awaits a lock, except possibly thread `t`. */
  ghost predicate CalmBut(s: Orch, t: Thread) {
    forall u, l :: s.Has(u) && u != t ==> IdleFor(s, u, l)
  }

  predicate IdleFor(s: Orch, u: Thread, l: Lock)
    requires s.Has(u)
  {
    s.Holds(u, l).None? && s.Wants(u).None?
  }

  lemma CalmGrants(s: Orch, t: Thread)
    requires CalmBut(s, t) && s.Has(t) && s.Wants(t).Some?
    ensures s.Grantable(t)
  {
    forall u
      ensures !s.WaitsFor(t, u)
    {
      assert s.Has(u) && u != t ==> IdleFor(s, u, s.Wants(t).value);
    }
  }

  // ---------------------------------------------------------------------------
  // Composition of runs
  // ---------------------------------------------------------------------------

  lemma {:induction false} RunsCompose(s: Orch, first: seq<Action>, second: seq<Action>)
    requires Runs(s, first) && Runs(After(s, first), second)
    ensures Runs(s, first + second) && After(s, first + second) == After(After(s, first), second)
    decreases |first|
  {
    if first == [] {
      assert first + second == second;
    } else {
      assert (first + second)[1..] == first[1..] + second;
      RunsCompose(Apply(s, first[0]), first[1..], second);
    }
  }

  lemma OneStep(s: Orch, a: Action)
    requires Enabled(s, a)
    ensures Runs(s, [a]) && After(s, [a]) == Apply(s, a)
  {
    assert [a][1..] == [] && Runs(Apply(s, a), []);
  }

  lemma ReachableStep(s: Orch, a: Action)
    requires Reachable(s) && Enabled(s, a)
    ensures Reachable(Apply(s, a))
  {
    var s0, acts :| IsNew(s0) && Runs(s0, acts) && s == After(s0, acts);
    OneStep(s, a);
    RunsCompose(s0, acts, [a]);
  }

  // ---------------------------------------------------------------------------
  // A handler on its own
  // ---------------------------------------------------------------------------

  /** The step at most adds a freshly spawned task. */
  predicate AddsAtMostATask(s: Orch, s': Orch) {
    && s'.polls == s.polls
    && (|| s'.tasks == s.tasks
        || (|s'.tasks| == |s.tasks| + 1 && s'.tasks[..|s.tasks|] == s.tasks
            && s'.tasks[|s.tasks|].pc.Running? && s'.tasks[|s.tasks|].outcome.Pending?))
  }

  lemma TurnStaysCalm(s: Orch, s': Orch)
    requires CalmBut(s, HandlerThread) && AddsAtMostATask(s, s')
    ensures CalmBut(s', HandlerThread)
  {
    forall u, l | s'.Has(u) && u != HandlerThread
      ensures IdleFor(s', u, l)
    {
      if s.Has(u) {
        assert IdleFor(s, u, l);
        assert u.TaskThread? ==> s'.tasks[u.i] == s.tasks[u.i];
      }
    }
  }

  /** The call has given back its locks and has its result. */
  predicate CallOver(s: Orch) {
    s.handler.On? && s.handler.pc.Returning? && s.handler.pc.level == 0
  }

  /** A run in which no call begins and none is left. */
  ghost predicate WithinCall(s: Orch, acts: seq<Action>)
    decreases |acts|
  {
    acts == []
    || (&& Enabled(s, acts[0]) && !acts[0].DoDeliver? && (acts[0].DoReturn? ==> s.handler.pc.level > 0)
        && WithinCall(Apply(s, acts[0]), acts[1..]))
  }

  lemma {:induction false} WithinCallRuns(s: Orch, acts: seq<Action>)
    requires WithinCall(s, acts)
    ensures Runs(s, acts)
    decreases |acts|
  {
    if acts != [] {
      WithinCallRuns(Apply(s, acts[0]), acts[1..]);
    }
  }

  /** Such a run from `s` to `s'`. */
  ghost predicate Leads(s: Orch, acts: seq<Action>, s': Orch) {
    WithinCall(s, acts) && Runs(s, acts) && After(s, acts) == s'
  }

  lemma LeadsOne(s: Orch, a: Action)
    requires Enabled(s, a) && !a.DoDeliver? && (a.DoReturn? ==> s.handler.pc.level > 0)
    ensures Leads(s, [a], Apply(s, a))
  {
    OneStep(s, a);
    assert [a][1..] == [];
  }

  lemma {:induction false} LeadsOn(s: Orch, first: seq<Action>, s': Orch, second: seq<Action>, s'': Orch)
    requires Leads(s, first, s') && Leads(s', second, s'')
    ensures Leads(s, first + second, s'')
    decreases |first|
  {
    if first == [] {
      assert first + second == second;
    } else {
      assert (first + second)[1..] == first[1..] + second;
      LeadsOn(Apply(s, first[0]), first[1..], s', second, s'');
    }
  }

  /** The handler gives back its locks. */
  lemma {:induction false} ReturnLeads(s: Orch) returns (acts: seq<Action>)
    requires s.handler.On? && s.handler.pc.Returning?
    ensures Leads(s, acts, s.(handler := s.handler.(pc := Returning(0, s.handler.pc.result))))
    decreases if s.handler.On? && s.handler.pc.Returning? then s.handler.pc.level else 0
  {
    if s.handler.pc.level == 0 {
      acts := [];
    } else {
      LeadsOne(s, DoReturn);
      var rest := ReturnLeads(HandlerReturn(s));
      LeadsOn(s, [DoReturn], HandlerReturn(s), rest,
              s.(handler := s.handler.(pc := Returning(0, s.handler.pc.result))));
      acts := [DoReturn] + rest;
    }
  }

  lemma WorkAddsATask(s: Orch)
    requires HandlerReady(s)
    ensures AddsAtMostATask(s, HandlerWork(s))
  {
  }

  /** The handler gets the lock it waits for and does its work. */
  lemma WorkLeads(s: Orch) returns (s': Orch, acts: seq<Action>)
    requires CalmBut(s, HandlerThread) && s.handler.On? && s.handler.pc.Waiting?
    requires HandlerReady(Grant(s, HandlerThread))
    ensures s' == HandlerWork(Grant(s, HandlerThread)) && Leads(s, acts, s') && CalmBut(s', HandlerThread)
  {
    var g := Grant(s, HandlerThread);
    s' := HandlerWork(g);
    CalmGrants(s, HandlerThread);
    LeadsOne(s, DoGrant(HandlerThread));
    LeadsOne(g, DoHandler);
    LeadsOn(s, [DoGrant(HandlerThread)], g, [DoHandler], s');
    acts := [DoGrant(HandlerThread)] + [DoHandler];
    TurnStaysCalm(s, g);
    WorkAddsATask(g);
    TurnStaysCalm(g, s');
  }

  // ---------------------------------------------------------------------------
  // The handlers as single actions
  // ---------------------------------------------------------------------------

  function Launch(s: Orch, from: PeerId, executionId: Bytes, job: Job): Orch {
    s.(tasks := s.tasks + [Task(from, executionId, job, Pending, Running, 0)])
  }

  /** A whole call of the message handler: the orchestrator it leaves behind and its result. */
  function Handle(s: Orch, from: PeerId, msg: CoordinationMessage): (Orch, Result<HandlerError>) {
    if !msg.Initiates() then (s, Ok)
    else if msg.timestamp < 0 then (s, Err(InvalidTimestamp))
    else
      var s1 := s.(tickets := s.tickets + 1);
      var error := AdmissionError(s, msg);
      if error.Some? then (s1, Err(error.value))
      else match msg
        case InitiateAux(id, _, assignments, time) =>
          (Launch(s1.(state := AuxGeneration(from, id), auxTx := Some(|s.tasks|)), from, id,
                  AuxJob(assignments[s.me], AUX_TOTAL_PARTIES, time)), Ok)
        case InitiateKeygen(id, threshold, total, time) =>
          var s2 := s1.(state := Keygen(from, id, threshold), tickets := s.tickets + 2);
          if s.auxInfo.None? then (s2, Err(AuxInfoMissing))
          else (Launch(s2.(keygenTx := Some(|s.tasks|)), from, id,
                       KeygenJob(s.partyAssignments[s.me], total, threshold, time, s.auxInfo.value)), Ok)
        case InitiateSigning(id, message, signers, time) =>
          var s2 := s1.(state := Signing(from, id, message, signers));
          if s.partyAssignments[s.me] !in signers then (s2, Ok)
          else if s.auxInfo.None? then (s2.(tickets := s.tickets + 2), Err(AuxInfoMissing))
          else if s.keyShare.None? then (s2.(tickets := s.tickets + 3), Err(KeyShareMissing))
          else (Launch(s2.(signingTx := Some(|s.tasks|), tickets := s.tickets + 3), from, id,
                       SigningJob(s.partyAssignments[s.me], signers, message, time,
                                  s.keyShare.value, s.auxInfo.value)), Ok)
  }

  /** The call (`from`, `msg`) is over in `s`, with the orchestrator and the result that `r` names. */
  predicate EndsWith(s: Orch, from: PeerId, msg: CoordinationMessage, r: (Orch, Result<HandlerError>)) {
    && CallOver(s) && s.handler.from == from && s.handler.msg == msg
    && s.handler.pc.result == r.1 && s.(handler := Off) == r.0
  }

  /** A returning handler ends with its result and what it leaves behind. */
  lemma ReturnEnds(s: Orch, from: PeerId, msg: CoordinationMessage, r: (Orch, Result<HandlerError>))
    returns (acts: seq<Action>, s': Orch)
    requires s.handler.On? && s.handler.pc.Returning? && s.handler.from == from && s.handler.msg == msg
    requires s.handler.pc.result == r.1 && s.(handler := Off) == r.0
    ensures Leads(s, acts, s') && EndsWith(s', from, msg, r)
  {
    acts := ReturnLeads(s);
    s' := s.(handler := s.handler.(pc := Returning(0, s.handler.pc.result)));
  }

  /** What the handler's first piece of code leads to when the request is admitted. */
  predicate Admitted(s: Orch, from: PeerId, msg: CoordinationMessage, s1: Orch)
    requires msg.Initiates() && msg.timestamp >= 0 && AdmissionError(s, msg).None?
  {
    && s1.handler.On? && s1.handler.from == from && s1.handler.msg == msg
    && match msg
       case InitiateAux(id, _, assignments, time) =>
         && s1.handler.pc == Returning(1, Ok)
         && s1.(handler := Off) ==
              Launch(s.(state := AuxGeneration(from, id), auxTx := Some(|s.tasks|), tickets := s.tickets + 1), from, id,
                     AuxJob(assignments[s.me], AUX_TOTAL_PARTIES, time))
       case InitiateKeygen(id, threshold, _, _) =>
         && s1.handler.pc == Waiting(1)
         && s1.(handler := Off) == s.(state := Keygen(from, id, threshold), tickets := s.tickets + 2)
       case InitiateSigning(id, message, signers, _) =>
         if s.partyAssignments[s.me] in signers then
           && s1.handler.pc == Waiting(1)
           && s1.(handler := Off) == s.(state := Signing(from, id, message, signers), tickets := s.tickets + 2)
         else
           && s1.handler.pc == Returning(1, Ok)
           && s1.(handler := Off) == s.(state := Signing(from, id, message, signers), tickets := s.tickets + 1)
  }

  lemma AdmissionWork(s: Orch, from: PeerId, msg: CoordinationMessage, g: Orch)
    requires s.handler.Off? && msg.Initiates() && msg.timestamp >= 0
    requires g == Grant(Deliver(s, from, msg), HandlerThread) && HandlerReady(g)
    ensures AdmissionError(s, msg).None? ==> Admitted(s, from, msg, HandlerWork(g))
    ensures AdmissionError(s, msg).Some? ==>
              && HandlerWork(g).handler.On? && HandlerWork(g).handler.from == from && HandlerWork(g).handler.msg == msg
              && HandlerWork(g).handler.pc == Returning(1, Err(AdmissionError(s, msg).value))
              && HandlerWork(g).(handler := Off) == s.(tickets := s.tickets + 1)
  {
    assert AdmissionError(g, msg) == AdmissionError(s, msg);
  }

  /** The keygen handler looks for aux info. */
  lemma KeygenWork(g: Orch)
    requires HandlerReady(g) && g.handler.pc.level == 2 && g.handler.msg.InitiateKeygen?
    ensures var s' := HandlerWork(g);
            && s'.handler.On? && s'.handler.from == g.handler.from && s'.handler.msg == g.handler.msg
            && (if g.auxInfo.None? then
                  s'.handler.pc == Returning(2, Err(AuxInfoMissing)) && s'.(handler := Off) == g.(handler := Off)
                else
                  && s'.handler.pc == Returning(2, Ok)
                  && s'.(handler := Off) ==
                       Launch(g.(handler := Off, keygenTx := Some(|g.tasks|)), g.handler.from, g.handler.msg.executionId,
                              KeygenJob(g.partyAssignments[g.me], g.handler.msg.totalParties, g.handler.msg.threshold,
                                        g.handler.msg.timestamp, g.auxInfo.value)))
  {
  }

  lemma KeygenLeads(s: Orch, from: PeerId, msg: CoordinationMessage, s1: Orch)
    returns (acts: seq<Action>, s': Orch)
    requires s.handler.Off? && msg.InitiateKeygen? && msg.timestamp >= 0 && AdmissionError(s, msg).None?
    requires Admitted(s, from, msg, s1) && CalmBut(s1, HandlerThread)
    ensures Leads(s1, acts, s') && EndsWith(s', from, msg, Handle(s, from, msg))
  {
    var s2, work := WorkLeads(s1);
    KeygenWork(Grant(s1, HandlerThread));
    var rest, end := ReturnEnds(s2, from, msg, Handle(s, from, msg));
    LeadsOn(s1, work, s2, rest, end);
    acts, s' := work + rest, end;
  }

  /** The handler of a signing request looks for aux info. */
  lemma LookupWork(g: Orch)
    requires HandlerReady(g) && g.handler.pc.level == 2 && g.handler.msg.InitiateSigning?
    ensures var s' := HandlerWork(g);
            && s'.handler.On? && s'.handler.from == g.handler.from && s'.handler.msg == g.handler.msg
            && (if g.auxInfo.None? then
                  s'.handler.pc == Returning(2, Err(AuxInfoMissing)) && s'.(handler := Off) == g.(handler := Off)
                else
                  s'.handler.pc == Waiting(2) && s'.(handler := Off) == g.(handler := Off, tickets := g.tickets + 1))
  {
  }

  /** It looks for the key share. */
  lemma ShareWork(g: Orch)
    requires HandlerReady(g) && g.handler.pc.level == 3
    ensures var s' := HandlerWork(g);
            && s'.handler.On? && s'.handler.from == g.handler.from && s'.handler.msg == g.handler.msg
            && (if g.keyShare.None? then
                  s'.handler.pc == Returning(3, Err(KeyShareMissing)) && s'.(handler := Off) == g.(handler := Off)
                else
                  && s'.handler.pc == Returning(3, Ok)
                  && s'.(handler := Off) ==
                       Launch(g.(handler := Off, signingTx := Some(|g.tasks|)), g.handler.from,
                              g.handler.msg.executionId,
                              SigningJob(g.partyAssignments[g.me], g.handler.msg.signers, g.handler.msg.message,
                                         g.handler.msg.timestamp, g.keyShare.value, g.auxInfo.value)))
  {
  }

  lemma ShareLeads(s: Orch, from: PeerId, msg: CoordinationMessage, s2: Orch)
    returns (acts: seq<Action>, s': Orch)
    requires s.handler.Off? && msg.InitiateSigning? && msg.timestamp >= 0 && AdmissionError(s, msg).None?
    requires s.partyAssignments[s.me] in msg.signers && s.auxInfo.Some? && CalmBut(s2, HandlerThread)
    requires s2.handler.On? && s2.handler.from == from && s2.handler.msg == msg && s2.handler.pc == Waiting(2)
    requires s2.(handler := Off) == s.(state := Signing(from, msg.executionId, msg.message, msg.signers),
                                       tickets := s.tickets + 3)
    ensures Leads(s2, acts, s') && EndsWith(s', from, msg, Handle(s, from, msg))
  {
    var s3, work := WorkLeads(s2);
    ShareWork(Grant(s2, HandlerThread));
    var rest, end := ReturnEnds(s3, from, msg, Handle(s, from, msg));
    LeadsOn(s2, work, s3, rest, end);
    acts, s' := work + rest, end;
  }

  lemma SigningLeads(s: Orch, from: PeerId, msg: CoordinationMessage, s1: Orch)
    returns (acts: seq<Action>, s': Orch)
    requires s.handler.Off? && msg.InitiateSigning? && msg.timestamp >= 0 && AdmissionError(s, msg).None?
    requires s.partyAssignments[s.me] in msg.signers
    requires Admitted(s, from, msg, s1) && CalmBut(s1, HandlerThread)
    ensures Leads(s1, acts, s') && EndsWith(s', from, msg, Handle(s, from, msg))
  {
    var s2, work := WorkLeads(s1);
    LookupWork(Grant(s1, HandlerThread));
    var rest: seq<Action>, end: Orch;
    if s.auxInfo.None? {
      rest, end := ReturnEnds(s2, from, msg, Handle(s, from, msg));
    } else {
      rest, end := ShareLeads(s, from, msg, s2);
    }
    LeadsOn(s1, work, s2, rest, end);
    acts, s' := work + rest, end;
  }

  lemma AdmittedLeads(s: Orch, from: PeerId, msg: CoordinationMessage, s1: Orch)
    returns (acts: seq<Action>, s': Orch)
    requires s.handler.Off? && msg.Initiates() && msg.timestamp >= 0 && AdmissionError(s, msg).None?
    requires Admitted(s, from, msg, s1) && CalmBut(s1, HandlerThread)
    ensures Leads(s1, acts, s') && EndsWith(s', from, msg, Handle(s, from, msg))
  {
    if s1.handler.pc.Returning? {
      acts, s' := ReturnEnds(s1, from, msg, Handle(s, from, msg));
    } else if msg.InitiateKeygen? {
      acts, s' := KeygenLeads(s, from, msg, s1);
    } else {
      acts, s' := SigningLeads(s, from, msg, s1);
    }
  }

  lemma HandleLeads(s: Orch, from: PeerId, msg: CoordinationMessage) returns (acts: seq<Action>, s': Orch)
    requires s.handler.Off? && CalmBut(Deliver(s, from, msg), HandlerThread)
    ensures Leads(Deliver(s, from, msg), acts, s') && EndsWith(s', from, msg, Handle(s, from, msg))
  {
    var s0 := Deliver(s, from, msg);
    if !msg.Initiates() || msg.timestamp < 0 {
      acts, s' := ReturnEnds(s0, from, msg, Handle(s, from, msg));
    } else {
      var s1, work := WorkLeads(s0);
      AdmissionWork(s, from, msg, Grant(s0, HandlerThread));
      var rest: seq<Action>, end: Orch;
      if AdmissionError(s, msg).Some? {
        rest, end := ReturnEnds(s1, from, msg, Handle(s, from, msg));
      } else {
        rest, end := AdmittedLeads(s, from, msg, s1);
      }
      LeadsOn(s0, work, s1, rest, end);
      acts, s' := work + rest, end;
    }
  }

  /** An undisturbed call is a run of the interleaved machine: from the delivery to the point where the handler
      has its result and no lock, and from there, by returning, to the orchestrator it leaves behind. */
  lemma HandleIsRun(s: Orch, from: PeerId, msg: CoordinationMessage) returns (acts: seq<Action>)
    requires s.handler.Off? && CalmBut(s, HandlerThread)
    ensures WithinCall(Deliver(s, from, msg), acts)
    ensures Runs(s, [DoDeliver(from, msg)] + acts)
    ensures EndsWith(After(s, [DoDeliver(from, msg)] + acts), from, msg, Handle(s, from, msg))
    ensures Runs(s, [DoDeliver(from, msg)] + acts + [DoReturn])
    ensures After(s, [DoDeliver(from, msg)] + acts + [DoReturn]) == Handle(s, from, msg).0
  {
    TurnStaysCalm(s, Deliver(s, from, msg));
    var rest, end := HandleLeads(s, from, msg);
    acts := rest;
    var run := [DoDeliver(from, msg)] + acts;
    assert run[1..] == acts;
    OneStep(end, DoReturn);
    RunsCompose(s, run, [DoReturn]);
  }

  // ---------------------------------------------------------------------------
  // The end of a task as a single action
  // ---------------------------------------------------------------------------

  predicate Resting(t: Task) {
    t.pc.Running? || t.pc.BeforeKey? || t.pc.Done?
  }

  lemma OnlyTaskChanges(s: Orch, s': Orch, i: nat)
    requires CalmBut(s, TaskThread(i)) && i < |s.tasks| == |s'.tasks| && s'.tasks == s.tasks[i := s'.tasks[i]]
    requires s'.handler == s.handler && s'.polls == s.polls
    ensures CalmBut(s', TaskThread(i))
  {
    forall u, l | s'.Has(u) && u != TaskThread(i)
      ensures IdleFor(s', u, l)
    {
      assert IdleFor(s, u, l);
    }
  }

  /** The library call of task `i` ends and the task stores its result up to its next resting point. */
  function End(s: Orch, i: nat, outcome: Outcome): Orch
    requires i < |s.tasks|
  {
    var t := s.tasks[i].(outcome := outcome);
    if outcome.AuxOk? then
      WithTask(s.(auxInfo := Some(outcome.info), state := AuxCompleted, tickets := s.tickets + 2),
               i, t.(pc := Done, ticket := s.tickets + 1))
    else
      WithTask(s.(state := FinalState(t), tickets := s.tickets + 1),
               i, t.(pc := if outcome.KeygenOk? then BeforeKey else Done, ticket := s.tickets))
  }

  /** The keygen task stores its share, after the state already says that keygen is complete. */
  function StoreShare(s: Orch, i: nat): Orch
    requires i < |s.tasks| && s.tasks[i].outcome.KeygenOk?
  {
    WithTask(s.(keyShare := Some(s.tasks[i].outcome.share), tickets := s.tickets + 1),
             i, s.tasks[i].(pc := Done, ticket := s.tickets))
  }

  /** Task `i` gets the lock it waits for. */
  lemma GrantLeads(s: Orch, i: nat) returns (s': Orch)
    requires CalmBut(s, TaskThread(i)) && i < |s.tasks| && s.tasks[i].Wants().Some?
    ensures s' == Grant(s, TaskThread(i)) && Leads(s, [DoGrant(TaskThread(i))], s') && CalmBut(s', TaskThread(i))
  {
    CalmGrants(s, TaskThread(i));
    LeadsOne(s, DoGrant(TaskThread(i)));
    s' := Grant(s, TaskThread(i));
    OnlyTaskChanges(s, s', i);
  }

  /** Task `i` runs to its next lock operation. */
  lemma CodeLeads(s: Orch, i: nat) returns (s': Orch)
    requires CalmBut(s, TaskThread(i)) && i < |s.tasks| && TaskCanStep(s.tasks[i])
    ensures s' == TaskStep(s, i) && Leads(s, [DoTask(i)], s') && CalmBut(s', TaskThread(i))
  {
    LeadsOne(s, DoTask(i));
    s' := TaskStep(s, i);
    OnlyTaskChanges(s, s', i);
  }

  /** Task `i` writes the state and lets go of it. */
  lemma WriteLeads(s: Orch, i: nat, t: Task) returns (s': Orch, acts: seq<Action>)
    requires CalmBut(s, TaskThread(i)) && i < |s.tasks| && s.tasks[i] == t && t.pc.WantState?
    ensures Leads(s, acts, s') && CalmBut(s', TaskThread(i))
    ensures s' == WithTask(s.(state := FinalState(t)), i,
                           t.(pc := if t.outcome.AuxOk? then LastGuard
                                    else if t.outcome.KeygenOk? then BeforeKey else Done))
  {
    var s1 := GrantLeads(s, i);
    var s2 := CodeLeads(s1, i);
    s' := CodeLeads(s2, i);
    LeadsOn(s, [DoGrant(TaskThread(i))], s1, [DoTask(i)], s2);
    LeadsOn(s, [DoGrant(TaskThread(i))] + [DoTask(i)], s2, [DoTask(i)], s');
    acts := [DoGrant(TaskThread(i))] + [DoTask(i)] + [DoTask(i)];
  }

  /** The aux task stores its result, writes the state and lets go of both. */
  lemma AuxLeads(s: Orch, i: nat, t: Task) returns (s': Orch, acts: seq<Action>)
    requires CalmBut(s, TaskThread(i)) && i < |s.tasks| && s.tasks[i] == t && t.pc.WantAux? && t.outcome.AuxOk?
    ensures Leads(s, acts, s')
    ensures s' == WithTask(s.(auxInfo := Some(t.outcome.info), state := AuxCompleted, tickets := s.tickets + 1),
                           i, t.(pc := Done, ticket := s.tickets))
  {
    var s2, first := AuxStoreLeads(s, i, t);
    var s3, write := WriteLeads(s2, i, s2.tasks[i]);
    s' := CodeLeads(s3, i);
    LeadsOn(s, first, s2, write, s3);
    LeadsOn(s, first + write, s3, [DoTask(i)], s');
    acts := first + write + [DoTask(i)];
  }

  lemma AuxStoreLeads(s: Orch, i: nat, t: Task) returns (s': Orch, acts: seq<Action>)
    requires CalmBut(s, TaskThread(i)) && i < |s.tasks| && s.tasks[i] == t && t.pc.WantAux? && t.outcome.AuxOk?
    ensures Leads(s, acts, s') && CalmBut(s', TaskThread(i))
    ensures s' == WithTask(s.(auxInfo := Some(t.outcome.info), tickets := s.tickets + 1),
                           i, t.(pc := WantState, ticket := s.tickets))
  {
    var s1 := GrantLeads(s, i);
    s' := CodeLeads(s1, i);
    LeadsOn(s, [DoGrant(TaskThread(i))], s1, [DoTask(i)], s');
    acts := [DoGrant(TaskThread(i))] + [DoTask(i)];
  }

  /** An undisturbed task ending is a run of the interleaved machine. */
  lemma EndIsRun(s: Orch, i: nat, outcome: Outcome) returns (acts: seq<Action>)
    requires i < |s.tasks| && s.tasks[i].pc.Running? && Fits(s.tasks[i].job, outcome)
    requires CalmBut(s, TaskThread(i))
    ensures WithinCall(s, acts) && Runs(s, acts) && After(s, acts) == End(s, i, outcome)
  {
    var s1 := Finish(s, i, outcome);
    LeadsOne(s, DoFinish(i, outcome));
    OnlyTaskChanges(s, s1, i);
    var end: Orch, rest: seq<Action>;
    if outcome.AuxOk? {
      end, rest := AuxLeads(s1, i, s1.tasks[i]);
    } else {
      end, rest := WriteLeads(s1, i, s1.tasks[i]);
    }
    LeadsOn(s, [DoFinish(i, outcome)], s1, rest, end);
    acts := [DoFinish(i, outcome)] + rest;
  }

  /** The keygen task gets the key share lock, stores the share and lets go. */
  lemma ShareTaskLeads(s: Orch, i: nat, t: Task) returns (s': Orch, acts: seq<Action>)
    requires CalmBut(s, TaskThread(i)) && i < |s.tasks| && s.tasks[i] == t && t.pc.WantKey? && t.outcome.KeygenOk?
    ensures Leads(s, acts, s')
    ensures s' == WithTask(s.(keyShare := Some(t.outcome.share)), i, t.(pc := Done))
  {
    var s1 := GrantLeads(s, i);
    var s2 := CodeLeads(s1, i);
    s' := CodeLeads(s2, i);
    LeadsOn(s, [DoGrant(TaskThread(i))], s1, [DoTask(i)], s2);
    LeadsOn(s, [DoGrant(TaskThread(i))] + [DoTask(i)], s2, [DoTask(i)], s');
    acts := [DoGrant(TaskThread(i))] + [DoTask(i)] + [DoTask(i)];
  }

  lemma StoreShareIsRun(s: Orch, i: nat) returns (acts: seq<Action>)
    requires Inv(s) && i < |s.tasks| && s.tasks[i].pc.BeforeKey? && CalmBut(s, TaskThread(i))
    ensures s.tasks[i].outcome.KeygenOk?
    ensures WithinCall(s, acts) && Runs(s, acts) && After(s, acts) == StoreShare(s, i)
  {
    assert Coherent(s.tasks[i]);
    var s1 := CodeLeads(s, i);
    var end, rest := ShareTaskLeads(s1, i, s1.tasks[i]);
    LeadsOn(s, [DoTask(i)], s1, rest, end);
    acts := [DoTask(i)] + rest;
  }

  // ---------------------------------------------------------------------------
  // From rest to rest
  // ---------------------------------------------------------------------------

  /** No call is running and no task is between two lock operations. */
  predicate AtRest(s: Orch) {
    && s.handler.Off? && s.polls == []
    && forall i :: 0 <= i < |s.tasks| ==>
         Resting(s.tasks[i]) && (s.tasks[i].pc.Running? ==> s.tasks[i].outcome.Pending?)
  }

  lemma RestIsCalm(s: Orch, t: Thread)
    requires AtRest(s)
    ensures CalmBut(s, t)
  {
    forall u, l | s.Has(u) && u != t
      ensures IdleFor(s, u, l)
    {
      assert u.TaskThread? ==> Resting(s.tasks[u.i]);
    }
  }

  lemma ReachableRun(s: Orch, acts: seq<Action>)
    requires Reachable(s) && Runs(s, acts)
    ensures Reachable(After(s, acts))
  {
    var s0, before :| IsNew(s0) && Runs(s0, before) && s == After(s0, before);
    RunsCompose(s0, before, acts);
  }

  lemma {:induction false} RunKeepsIdentity(s: Orch, acts: seq<Action>)
    requires Runs(s, acts)
    ensures After(s, acts).me == s.me && After(s, acts).partyAssignments == s.partyAssignments
    ensures After(s, acts).participants == s.participants
    decreases |acts|
  {
    if acts != [] {
      RunKeepsIdentity(Apply(s, acts[0]), acts[1..]);
    }
  }

  lemma HandleRests(s: Orch, from: PeerId, msg: CoordinationMessage)
    requires AtRest(s)
    ensures AtRest(Handle(s, from, msg).0)
  {
  }

  lemma EndRests(s: Orch, i: nat, outcome: Outcome)
    requires AtRest(s) && i < |s.tasks| && Fits(s.tasks[i].job, outcome)
    ensures AtRest(End(s, i, outcome))
  {
  }

  lemma HandleReaches(s: Orch, from: PeerId, msg: CoordinationMessage)
    requires Reachable(s) && AtRest(s)
    ensures Reachable(Handle(s, from, msg).0) && AtRest(Handle(s, from, msg).0)
  {
    RestIsCalm(s, HandlerThread);
    var acts := HandleIsRun(s, from, msg);
    ReachableRun(s, [DoDeliver(from, msg)] + acts + [DoReturn]);
    HandleRests(s, from, msg);
  }

  lemma EndReaches(s: Orch, i: nat, outcome: Outcome)
    requires Reachable(s) && AtRest(s)
    requires i < |s.tasks| && s.tasks[i].pc.Running? && Fits(s.tasks[i].job, outcome)
    ensures Reachable(End(s, i, outcome)) && AtRest(End(s, i, outcome))
  {
    RestIsCalm(s, TaskThread(i));
    var acts := EndIsRun(s, i, outcome);
    ReachableRun(s, acts);
    EndRests(s, i, outcome);
  }

  lemma StoreReaches(s: Orch, i: nat)
    requires Reachable(s) && AtRest(s) && i < |s.tasks| && s.tasks[i].pc.BeforeKey?
    ensures s.tasks[i].outcome.KeygenOk?
    ensures Reachable(StoreShare(s, i)) && AtRest(StoreShare(s, i))
  {
    ReachableInv(s);
    RestIsCalm(s, TaskThread(i));
    var acts := StoreShareIsRun(s, i);
    ReachableRun(s, acts);
  }

  /** Aux generation and keygen can succeed, with both results stored. */
  lemma ReadyToSign(me: PeerId, participants: seq<PeerId>, assignments: map<PeerId, u16>, id: Bytes, share: KeyShare)
    returns (s: Orch)
    requires me in assignments
    ensures Reachable(s) && AtRest(s) && s.me == me && s.partyAssignments == assignments
    ensures s.state == KeygenCompleted(share.publicKey) && s.keyShare == Some(share) && |s.tasks| == 2
  {
    var s0 := New(me, participants, assignments);
    assert Runs(s0, []) && After(s0, []) == s0 && IsNew(s0);
    HandleReaches(s0, me, InitiateAux(id, participants, assignments, 0));
    var s1 := Handle(s0, me, InitiateAux(id, participants, assignments, 0)).0;
    EndReaches(s1, 0, AuxOk(0));
    var s2 := End(s1, 0, AuxOk(0));
    HandleReaches(s2, me, InitiateKeygen(id, 1, 1, 0));
    var s3 := Handle(s2, me, InitiateKeygen(id, 1, 1, 0)).0;
    EndReaches(s3, 1, KeygenOk(share));
    StoreReaches(End(s3, 1, KeygenOk(share)), 1);
    s := StoreShare(End(s3, 1, KeygenOk(share)), 1);
  }

  /** The regular order of phases goes through: some run of every assigned orchestrator ends with the signature
      the last task computed. */
  lemma SessionCanComplete(me: PeerId, participants: seq<PeerId>, assignments: map<PeerId, u16>, id: Bytes,
                           toSign: Bytes, share: KeyShare, signature: string)
    returns (s: Orch)
    requires me in assignments
    ensures Reachable(s) && s.me == me && s.state == SigningCompleted(signature) && s.keyShare == Some(share)
  {
    var s1 := ReadyToSign(me, participants, assignments, id, share);
    ReachableInv(s1);
    var msg := InitiateSigning(id, toSign, [assignments[me]], 0);
    HandleReaches(s1, me, msg);
    var s2 := Handle(s1, me, msg).0;
    EndReaches(s2, 2, SigningOk(signature));
    s := End(s2, 2, SigningOk(signature));
  }
}

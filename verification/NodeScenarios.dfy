/** Runs of a whole node, put together from undisturbed calls and task endings: a call that is handed another
    call's signature, and a poll that shuts out the event loop. */
module NodeScenarios {
  import opened Basics
  import opened Orchestration
  import opened OrchestrationProof
  import opened Uninterrupted
  import opened NodeRuntime
  import opened NodeRuntimeProof
  import opened RoutingStall

  // ---------------------------------------------------------------------------
  // Composition of runs
  // ---------------------------------------------------------------------------

  lemma {:induction false} NodeRunExtends(n: Node, xs: seq<NodeAction>, x: NodeAction)
    requires NodeRuns(n, xs) && NodeEnabled(NodeAfter(n, xs), x)
    ensures NodeRuns(n, xs + [x]) && NodeAfter(n, xs + [x]) == NodeApply(NodeAfter(n, xs), x)
    decreases |xs|
  {
    if xs == [] {
      assert xs + [x] == [x] && [x][1..] == [];
    } else {
      assert (xs + [x])[1..] == xs[1..] + [x];
      NodeRunExtends(NodeApply(n, xs[0]), xs[1..], x);
    }
  }

  lemma Reaches(n: Node, x: NodeAction) returns (n': Node)
    requires NodeReachable(n) && NodeEnabled(n, x)
    ensures NodeReachable(n') && n' == NodeApply(n, x) && n'.me == n.me
  {
    n' := NodeApply(n, x);
    var xs :| NodeRuns(NewNode(n.me), xs) && n == NodeAfter(NewNode(n.me), xs);
    NodeRunExtends(NewNode(n.me), xs, x);
  }

  /** A run of one orchestrator in which no call begins or ends is a run of the node. */
  lemma {:induction false} Lifts(n: Node, g: nat, acts: seq<Action>) returns (n': Node)
    requires NodeReachable(n) && g < |n.gens| && WithinCall(n.gens[g], acts)
    ensures Runs(n.gens[g], acts)
    ensures NodeReachable(n') && n' == n.(gens := n.gens[g := After(n.gens[g], acts)])
    decreases |acts|
  {
    WithinCallRuns(n.gens[g], acts);
    if acts == [] {
      n' := n;
      assert n.gens == n.gens[g := n.gens[g]];
    } else {
      var n1 := Reaches(n, Inner(g, acts[0]));
      n' := Lifts(n1, g, acts[1..]);
    }
  }

  // ---------------------------------------------------------------------------
  // From quiet to quiet
  // ---------------------------------------------------------------------------

  /** Nobody holds the outer lock or waits for it. */
  ghost predicate Quiet(n: Node) {
    NodeReachable(n) && n.loop.LoopFree? && n.queue == [] && n.writer.None? && n.readers == {}
  }

  lemma LoopGetsLock(n: Node, job: LoopJob) returns (n': Node)
    requires Quiet(n) && !job.RouteJob? && FromOthers(n.me, job)
    ensures NodeReachable(n') && n' == n.(loop := LoopHas(job), writer := Some(EventLoop))
  {
    var n1 := Reaches(n, LoopTakes(job));
    n' := Reaches(n1, OuterGrant);
    assert n'.queue == [];
  }

  lemma Installs(n: Node, participants: seq<PeerId>, assignments: map<PeerId, u16>) returns (n': Node)
    requires Quiet(n)
    ensures Quiet(n') && n' == n.(gens := n.gens + [New(n.me, participants, assignments)])
  {
    var n1 := LoopGetsLock(n, InstallJob(participants, assignments));
    n' := Reaches(n1, LoopActs);
  }

  lemma Handles(n: Node, from: PeerId, msg: CoordinationMessage) returns (n': Node)
    requires Quiet(n) && n.gens != [] && AtRest(n.Current()) && from != n.me
    ensures Quiet(n') && n' == n.WithCurrent(Handle(n.Current(), from, msg).0)
  {
    var o := n.Current();
    InvOfGeneration(n, |n.gens| - 1);
    var n2 := LoopDelivers(n, from, msg);
    var n3 := CallRuns(n2, o, from, msg);
    n' := LoopReturns(n3);
  }

  lemma LoopReturns(n: Node) returns (n': Node)
    requires NodeReachable(n) && n.loop.LoopCalls? && HandlerOver(n)
    requires n.queue == [] && n.readers == {}
    ensures Quiet(n')
    ensures n' == n.(loop := LoopFree, writer := None).WithCurrent(n.Current().(handler := Off))
  {
    n' := Reaches(n, LoopDone);
  }

  lemma LoopDelivers(n: Node, from: PeerId, msg: CoordinationMessage) returns (n': Node)
    requires Quiet(n) && n.gens != [] && from != n.me
    ensures NodeReachable(n')
    ensures n' == n.(loop := LoopCalls, writer := Some(EventLoop)).WithCurrent(Deliver(n.Current(), from, msg))
  {
    var n1 := LoopGetsLock(n, CallJob(from, msg));
    n' := Reaches(n1, LoopActs);
  }

  lemma InvOfGeneration(n: Node, g: nat)
    requires NodeReachable(n) && g < |n.gens|
    ensures Inv(n.gens[g])
  {
    NodeReachableInv(n);
  }

  /** A delivered call runs until it is over. */
  lemma CallRuns(n: Node, o: Orch, from: PeerId, msg: CoordinationMessage) returns (n': Node)
    requires NodeReachable(n) && n.gens != [] && n.Current() == Deliver(o, from, msg) && AtRest(o) && Inv(o)
    ensures NodeReachable(n') && n'.gens != [] && n' == n.WithCurrent(n'.Current())
    ensures EndsWith(n'.Current(), from, msg, Handle(o, from, msg)) && HandlerOver(n')
  {
    RestIsCalm(o, HandlerThread);
    var acts := HandleIsRun(o, from, msg);
    assert ([DoDeliver(from, msg)] + acts)[1..] == acts;
    n' := Lifts(n, |n.gens| - 1, acts);
  }

  lemma TaskEnds(n: Node, i: nat, outcome: Outcome) returns (n': Node)
    requires Quiet(n) && n.gens != [] && AtRest(n.Current())
    requires i < |n.Current().tasks| && n.Current().tasks[i].pc.Running? && Fits(n.Current().tasks[i].job, outcome)
    ensures Quiet(n') && n' == n.WithCurrent(End(n.Current(), i, outcome)) && AtRest(n'.Current())
  {
    InvOfGeneration(n, |n.gens| - 1);
    RestIsCalm(n.Current(), TaskThread(i));
    EndRests(n.Current(), i, outcome);
    var acts := EndIsRun(n.Current(), i, outcome);
    n' := Lifts(n, |n.gens| - 1, acts);
  }

  lemma ShareStored(n: Node, i: nat) returns (n': Node)
    requires Quiet(n) && n.gens != [] && AtRest(n.Current())
    requires i < |n.Current().tasks| && n.Current().tasks[i].pc.BeforeKey?
    ensures n.Current().tasks[i].outcome.KeygenOk?
    ensures Quiet(n') && n' == n.WithCurrent(StoreShare(n.Current(), i)) && AtRest(n'.Current())
  {
    InvOfGeneration(n, |n.gens| - 1);
    RestIsCalm(n.Current(), TaskThread(i));
    var acts := StoreShareIsRun(n.Current(), i);
    n' := Lifts(n, |n.gens| - 1, acts);
  }

  // ---------------------------------------------------------------------------
  // The phases on a node
  // ---------------------------------------------------------------------------

  /** The orchestrator has both results stored and no task left. */
  predicate CanSign(o: Orch, me: PeerId, participants: seq<PeerId>, assignments: map<PeerId, u16>) {
    && AtRest(o) && o.state.KeygenCompleted? && o.auxInfo.Some? && o.keyShare.Some? && |o.tasks| == 2
    && o.me == me && o.participants == participants && o.partyAssignments == assignments
  }

  lemma AuxPhaseRuns(n: Node, participants: seq<PeerId>, assignments: map<PeerId, u16>, from: PeerId)
    returns (n': Node)
    requires from != n.me && n.me in assignments
    requires Quiet(n) && n.gens != [] && n.Current() == New(n.me, participants, assignments)
    ensures Quiet(n') && n'.gens != [] && n' == n.WithCurrent(n'.Current()) && AtRest(n'.Current())
    ensures var o := n'.Current();
            && o.state.AuxCompleted? && o.auxInfo.Some? && |o.tasks| == 1
            && o.me == n.me && o.participants == participants && o.partyAssignments == assignments
  {
    var msg := InitiateAux([], participants, assignments, 0);
    HandleRests(n.Current(), from, msg);
    var n1 := Handles(n, from, msg);
    n' := TaskEnds(n1, 0, AuxOk(0));
  }

  lemma KeygenPhaseRuns(n: Node, participants: seq<PeerId>, assignments: map<PeerId, u16>, from: PeerId)
    returns (n': Node)
    requires from != n.me && Cast(|participants|) > 0
    requires Quiet(n) && n.gens != [] && AtRest(n.Current()) && n.me in assignments
    requires n.Current().state.AuxCompleted? && n.Current().auxInfo.Some? && |n.Current().tasks| == 1
    requires n.Current().me == n.me && n.Current().participants == participants
    requires n.Current().partyAssignments == assignments
    ensures Quiet(n') && n'.gens != [] && n' == n.WithCurrent(n'.Current())
    ensures CanSign(n'.Current(), n.me, participants, assignments)
  {
    var msg := InitiateKeygen([], 1, Cast(|participants|), 0);
    HandleRests(n.Current(), from, msg);
    var n1 := Handles(n, from, msg);
    var n2 := TaskEnds(n1, 1, KeygenOk(KeyShare("", 0)));
    n' := ShareStored(n2, 1);
  }

  /** A new orchestrator is installed, and `from` makes it ready to sign. */
  lemma FreshSigner(n: Node, participants: seq<PeerId>, assignments: map<PeerId, u16>, from: PeerId)
    returns (n': Node)
    requires Quiet(n) && n.me in assignments && from != n.me && Cast(|participants|) > 0
    ensures Quiet(n') && |n'.gens| == |n.gens| + 1 && n' == n.(gens := n.gens + [n'.Current()])
    ensures CanSign(n'.Current(), n.me, participants, assignments)
  {
    var n1 := Installs(n, participants, assignments);
    var n2 := AuxPhaseRuns(n1, participants, assignments, from);
    n' := KeygenPhaseRuns(n2, participants, assignments, from);
    assert n'.gens[..|n.gens|] == n.gens;
  }

  /** A signing call with this node as its only signer is handled and has given the lock back. */
  predicate CallReleased(n: Node, n': Node, message: Bytes, own: u16) {
    && n.gens != [] && |n'.gens| == |n.gens| && n'.me == n.me
    && n'.rpcs == n.rpcs + [Rpc(SigningRpc(message, [own]), 0, [], Released(|n.gens| - 1))]
    && n'.routed == n.routed
    && var o := n'.Current();
       && AtRest(o) && |o.tasks| == 3 && o.tasks[2].pc.Running? && o.tasks[2].job.SigningJob?
       && o.tasks[2].job.message == message
       && n' == n.(gens := n.gens[|n.gens| - 1 := o], rpcs := n'.rpcs, broadcast := n'.broadcast)
  }

  lemma SigningCallRuns(n: Node, participants: seq<PeerId>, assignments: map<PeerId, u16>, message: Bytes)
    returns (n': Node)
    requires Quiet(n) && n.gens != [] && n.me in assignments && assignments[n.me] < Cast(|participants|)
    requires CanSign(n.Current(), n.me, participants, assignments)
    ensures Quiet(n') && CallReleased(n, n', message, assignments[n.me])
  {
    var kind := SigningRpc(message, [assignments[n.me]]);
    var msg := InitiateSigning([], message, [assignments[n.me]], 0);
    SigningHandled(n.Current(), n.me, participants, assignments, msg);
    var n1 := RpcGetsLock(n, kind);
    var n2 := CallIsHandled(n1, |n.rpcs|, msg);
    n' := RpcReturns(n2, |n.rpcs|);
    assert n'.rpcs == n.rpcs + [Rpc(kind, 0, [], Released(|n.gens| - 1))];
    assert n'.gens == n.gens[|n.gens| - 1 := n'.Current()];
  }

  lemma CallIsHandled(n: Node, k: nat, msg: CoordinationMessage) returns (n': Node)
    requires NodeReachable(n) && k < |n.rpcs| && n.rpcs[k].pc.HoldWrite? && n.gens != [] && AtRest(n.Current())
    requires RpcRefusal(n.Current(), n.rpcs[k].kind).None? && msg == RpcMessage(n.Current(), n.rpcs[k])
    ensures NodeReachable(n') && |n'.gens| == |n.gens|
    ensures n' == n.(broadcast := n.broadcast + [msg]).WithCurrent(n'.Current()).WithRpc(k, Handling(|n.gens| - 1))
    ensures EndsWith(n'.Current(), n.me, msg, Handle(n.Current(), n.me, msg)) && HandlerOver(n')
  {
    InvOfGeneration(n, |n.gens| - 1);
    var n1 := CheckPasses(n, k, msg);
    n' := CallRuns(n1, n.Current(), n.me, msg);
  }

  lemma RpcReturns(n: Node, k: nat) returns (n': Node)
    requires NodeReachable(n) && k < |n.rpcs| && n.rpcs[k].pc.Handling? && n.rpcs[k].kind.SigningRpc?
    requires HandlerOver(n) && n.Current().handler.pc.result == Ok
    requires n.queue == [] && n.readers == {} && n.loop.LoopFree?
    ensures Quiet(n')
    ensures n' == n.(writer := None).WithCurrent(n.Current().(handler := Off)).WithRpc(k, Released(n.rpcs[k].pc.g))
  {
    n' := Reaches(n, RpcDone(k));
  }

  lemma SigningHandled(o: Orch, me: PeerId, participants: seq<PeerId>, assignments: map<PeerId, u16>,
                       msg: CoordinationMessage)
    requires CanSign(o, me, participants, assignments) && me in assignments
    requires msg.InitiateSigning? && msg.timestamp >= 0 && assignments[me] in msg.signers
    ensures var (o', result) := Handle(o, me, msg);
            && AtRest(o') && result == Ok && |o'.tasks| == 3 && o'.tasks[2].pc.Running? && o'.tasks[2].job.SigningJob?
            && o'.tasks[2].job.message == msg.message
  {
    HandleRests(o, me, msg);
  }

  lemma RpcGetsLock(n: Node, kind: RpcKind) returns (n': Node)
    requires Quiet(n)
    ensures NodeReachable(n')
    ensures n' == n.(rpcs := n.rpcs + [Rpc(kind, 0, [], HoldWrite)], writer := Some(RpcOwner(|n.rpcs|)))
  {
    var n1 := Reaches(n, StartRpc(kind, 0, []));
    n' := Reaches(n1, OuterGrant);
    assert n'.queue == [] && n'.rpcs == n.rpcs + [Rpc(kind, 0, [], HoldWrite)];
  }

  lemma CheckPasses(n: Node, k: nat, msg: CoordinationMessage) returns (n': Node)
    requires NodeReachable(n) && k < |n.rpcs| && n.rpcs[k].pc.HoldWrite? && n.gens != [] && AtRest(n.Current())
    requires RpcRefusal(n.Current(), n.rpcs[k].kind).None? && msg == RpcMessage(n.Current(), n.rpcs[k])
    ensures NodeReachable(n')
    ensures n' == n.(broadcast := n.broadcast + [msg]).WithCurrent(Deliver(n.Current(), n.me, msg))
                   .WithRpc(k, Handling(|n.gens| - 1))
  {
    n' := Reaches(n, RpcCheck(k));
  }

  /** A released call gets the lock shared when nobody else wants it. */
  lemma PollBegins(n: Node, k: nat) returns (n': Node)
    requires Quiet(n) && k < |n.rpcs| && n.rpcs[k].pc.Released? && n.gens != []
    ensures NodeReachable(n')
    ensures n' == n.(readers := {RpcOwner(k)}).WithRpc(k, Polling(n.rpcs[k].pc.g, |n.gens| - 1))
  {
    var n1 := Reaches(n, RpcAsksRead(k));
    n' := Reaches(n1, OuterGrant);
    assert n'.queue == [] && n'.rpcs == n.rpcs[k := n.rpcs[k].(pc := Polling(n.rpcs[k].pc.g, |n.gens| - 1))];
  }

  // ---------------------------------------------------------------------------
  // Somebody else's signature
  // ---------------------------------------------------------------------------

  /** A signing call that is held up between giving the lock back and asking for it again can be overtaken by an
      installation and a whole new session: it then returns a signature of a message it was not asked to sign,
      although every request for the lock is served in its turn. */
  lemma ForeignSignature(me: PeerId, participants: seq<PeerId>, assignments: map<PeerId, u16>, from: PeerId,
                         message: Bytes, other: Bytes, signature: string)
    returns (n: Node)
    requires me in assignments && assignments[me] < Cast(|participants|) && from in assignments && from != me
    ensures NodeReachable(n) && n.me == me && |n.rpcs| == 1 && |n.gens| == 2
    ensures n.rpcs[0].kind == SigningRpc(message, [assignments[me]]) && n.rpcs[0].pc == Signed(0, 1, signature)
    ensures |n.gens[1].tasks| == 3 && n.gens[1].tasks[2].job.SigningJob? && n.gens[1].tasks[2].job.message == other
    ensures TaskRuns(n, 0) && n.gens[0].tasks[2].job.SigningJob? && n.gens[0].tasks[2].job.message == message
  {
    var n0 := NewNode(me);
    assert NodeRuns(n0, []) && NodeAfter(n0, []) == n0;
    var n1 := FreshSigner(n0, participants, assignments, from);
    var n2 := SigningCallRuns(n1, participants, assignments, message);
    var n3 := FreshSigner(n2, participants, assignments, from);
    var n4 := OtherSigns(n3, participants, assignments, from, other, signature);
    var n5 := PollBegins(n4, 0);
    n := Reaches(n5, RpcPoll(0));
  }

  /** A signing request from another node is handled and completed. */
  lemma OtherSigns(n: Node, participants: seq<PeerId>, assignments: map<PeerId, u16>, from: PeerId, message: Bytes,
                   signature: string)
    returns (n': Node)
    requires from != n.me && Quiet(n) && n.gens != [] && n.me in assignments
    requires CanSign(n.Current(), n.me, participants, assignments)
    ensures Quiet(n') && n'.gens != [] && n' == n.WithCurrent(n'.Current()) && AtRest(n'.Current())
    ensures var o := n'.Current();
            && o.state == SigningCompleted(signature)
            && |o.tasks| == 3 && o.tasks[2].job.SigningJob? && o.tasks[2].job.message == message
  {
    var msg := InitiateSigning([], message, [assignments[n.me]], 0);
    HandleRests(n.Current(), from, msg);
    var n1 := Handles(n, from, msg);
    n' := TaskEnds(n1, 2, SigningOk(signature));
  }

  // ---------------------------------------------------------------------------
  // A poll that shuts out the event loop
  // ---------------------------------------------------------------------------

  /** Whatever coordination message arrives from another node while a call polls: the event loop asks for the lock
      exclusively, and the route is closed with the task still running. */
  lemma StallHappens(me: PeerId, participants: seq<PeerId>, assignments: map<PeerId, u16>, message: Bytes,
                     from: PeerId, msg: CoordinationMessage)
    returns (n: Node)
    requires me in assignments && assignments[me] < Cast(|participants|) && from in assignments && from != me
    ensures NodeReachable(n) && n.me == me && IsPolling(n, 0) && TaskRuns(n, n.rpcs[0].pc.at)
    ensures n.loop == LoopAsks(CallJob(from, msg)) && !RoutingOpen(n)
  {
    var n0 := NewNode(me);
    assert NodeRuns(n0, []) && NodeAfter(n0, []) == n0;
    var n1 := FreshSigner(n0, participants, assignments, from);
    var n2 := SigningCallRuns(n1, participants, assignments, message);
    var n3 := PollBegins(n2, 0);
    n := Reaches(n3, LoopTakes(CallJob(from, msg)));
  }
}

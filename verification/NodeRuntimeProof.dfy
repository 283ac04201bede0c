/** The invariant of a node with its event loop, its RPC calls and its generations of orchestrators. */
module NodeRuntimeProof {
  import opened Basics
  import opened Orchestration
  import opened OrchestrationProof
  import opened OrchestrationTheorems
  import opened NodeRuntime

  /** The task was started by the call: its initiator, execution id, time and party index. */
  predicate StartedBy(o: Orch, me: PeerId, r: Rpc, t: Task) {
    && t.initiator == me && t.executionId == r.executionId && r.time >= 0 && t.job.timestamp == r.time
    && me in o.partyAssignments && t.job.partyId == o.partyAssignments[me]
  }

  /** The orchestrator has the task the call asked for, or it is a signing call without this node, which has
      stranded the orchestrator. */
  predicate Served(o: Orch, me: PeerId, r: Rpc) {
    match r.kind
    case AuxRpc =>
      |o.tasks| >= 1 && o.tasks[0].job.AuxJob? && o.tasks[0].job.total == 3 && StartedBy(o, me, r, o.tasks[0])
    case KeygenRpc(threshold) =>
      && |o.tasks| >= 2 && o.tasks[1].job.KeygenJob? && o.tasks[1].job.threshold == threshold
      && o.tasks[1].job.total == Cast(|o.participants|) && StartedBy(o, me, r, o.tasks[1])
    case SigningRpc(message, signers) =>
      || (Stranded(o) && |o.tasks| < 3)
      || (&& |o.tasks| == 3 && o.tasks[2].job.SigningJob? && o.tasks[2].job.message == message
          && o.tasks[2].job.signers == signers && StartedBy(o, me, r, o.tasks[2]))
  }

  /** The call's state check still holds, or the handler has got past its own. */
  predicate CheckStillGood(o: Orch, kind: RpcKind) {
    o.handler.On? ==>
      && (o.handler.pc == Waiting(0) || o.handler.pc == Working(1) ==> StateAllows(kind, o.state))
      && (o.handler.pc.Returning? && o.handler.pc.result.Err? ==> !o.handler.pc.result.error.WrongState?)
  }

  predicate ThresholdFits(o: Orch, kind: RpcKind) {
    kind.KeygenRpc? ==> 0 < kind.threshold <= Cast(|o.participants|)
  }

  /** A handler on its way back with success leaves the call served. */
  predicate CallServed(o: Orch, me: PeerId, r: Rpc) {
    o.handler.On? && o.handler.pc.Returning? && o.handler.pc.result.Ok? ==> Served(o, me, r)
  }

  /** The call's place agrees with the orchestrators. */
  predicate RpcMatches(n: Node, i: nat)
    requires i < |n.rpcs|
  {
    var r := n.rpcs[i];
    match r.pc
    case Handling(g) =>
      && g == |n.gens| - 1 && n.Current().handler.On?
      && n.Current().handler.from == n.me && n.Current().handler.msg == RpcMessage(n.Current(), r)
      && CheckStillGood(n.Current(), r.kind) && CallServed(n.Current(), n.me, r)
      && ThresholdFits(n.Current(), r.kind)
    case Released(g) => HandledSigning(n, r, g)
    case WantRead(g) => HandledSigning(n, r, g)
    case Polling(g, at) => HandledSigning(n, r, g) && at == |n.gens| - 1
    case Signed(g, at, signature) =>
      HandledSigning(n, r, g) && at < |n.gens| && n.gens[at].state == SigningCompleted(signature)
    case Succeeded(g) => !r.kind.SigningRpc? && g < |n.gens| && Served(n.gens[g], n.me, r)
    case Refused(error) => !(error.LocalFailure? && error.error.WrongState?)
    case _ => true
  }

  /** Generation `g` has handled the signing call. */
  predicate HandledSigning(n: Node, r: Rpc, g: nat) {
    r.kind.SigningRpc? && g < |n.gens| && Served(n.gens[g], n.me, r)
  }

  predicate HasHandler(pc: RpcPc) {
    pc.HoldWrite? || pc.Handling?
  }

  /** Who holds the outer lock follows from where everybody is. */
  predicate HoldersMatch(n: Node) {
    && (n.writer.Some? ==> n.readers == {})
    && (n.writer == Some(EventLoop) <==> n.loop.LoopCalls? || (n.loop.LoopHas? && n.loop.job.Mode().Write?))
    && (EventLoop in n.readers <==> n.loop.LoopHas? && n.loop.job.Mode().Read?)
    && (forall i :: 0 <= i < |n.rpcs| ==>
          && (n.writer == Some(RpcOwner(i)) <==> HasHandler(n.rpcs[i].pc))
          && (RpcOwner(i) in n.readers <==> n.rpcs[i].pc.Polling?))
    && (n.writer.Some? && n.writer.value.RpcOwner? ==> n.writer.value.i < |n.rpcs|)
    && (forall o: Owner :: o in n.readers && o.RpcOwner? ==> o.i < |n.rpcs|)
  }

  /** A handler runs in the current orchestrator only, on behalf of the exclusive holder. */
  predicate HandlersMatch(n: Node) {
    && (n.loop.LoopCalls? ==> n.gens != [] && n.Current().handler.On?)
    && (forall g :: 0 <= g < |n.gens| && n.gens[g].handler.On? ==>
          && g == |n.gens| - 1
          && (n.loop.LoopCalls?
              || exists i :: 0 <= i < |n.rpcs| && n.writer == Some(RpcOwner(i)) && n.rpcs[i].pc.Handling?))
  }

  predicate AskMatches(n: Node, ask: Ask) {
    match ask.owner
    case EventLoop => n.loop.LoopAsks? && ask.mode == n.loop.job.Mode()
    case RpcOwner(i) =>
      i < |n.rpcs| && (if ask.mode.Write? then n.rpcs[i].pc.WantWrite? else n.rpcs[i].pc.WantRead?)
  }

  predicate InQueue(queue: seq<Ask>, owner: Owner) {
    exists k :: 0 <= k < |queue| && queue[k].owner == owner
  }

  /** Everybody who waits has a request in the queue. */
  predicate WaitersQueued(n: Node) {
    && (n.loop.LoopAsks? ==> InQueue(n.queue, EventLoop))
    && (forall i :: 0 <= i < |n.rpcs| && (n.rpcs[i].pc.WantWrite? || n.rpcs[i].pc.WantRead?) ==>
          InQueue(n.queue, RpcOwner(i)))
  }

  /** The requests in the queue are from different owners, who all wait. */
  predicate QueueMatches(n: Node) {
    && (forall k :: 0 <= k < |n.queue| ==> AskMatches(n, n.queue[k]))
    && (forall j, k :: 0 <= j < k < |n.queue| ==> n.queue[j].owner != n.queue[k].owner)
  }

  ghost predicate GensMatch(n: Node) {
    forall g :: 0 <= g < |n.gens| ==> Inv(n.gens[g]) && n.gens[g].me == n.me
  }

  predicate RpcsMatch(n: Node) {
    forall i :: 0 <= i < |n.rpcs| ==> RpcMatches(n, i)
  }

  ghost predicate NodeInv(n: Node) {
    && GensMatch(n) && HoldersMatch(n) && HandlersMatch(n) && QueueMatches(n) && WaitersQueued(n)
    && RpcsMatch(n)
  }

  // ---------------------------------------------------------------------------
  // Steps of an orchestrator
  // ---------------------------------------------------------------------------

  /** The tasks are still those the calls have started. */
  predicate SameTasks(o: Orch, o': Orch) {
    && |o'.tasks| >= |o.tasks| && o'.partyAssignments == o.partyAssignments && o'.participants == o.participants
    && forall i :: 0 <= i < |o.tasks| ==>
         && o'.tasks[i].job == o.tasks[i].job && o'.tasks[i].initiator == o.tasks[i].initiator
         && o'.tasks[i].executionId == o.tasks[i].executionId
  }

  lemma HandlerKeepsTasks(o: Orch)
    requires HandlerReady(o)
    ensures SameTasks(o, HandlerWork(o))
  {
  }

  lemma StepKeepsTasks(o: Orch, a: Action)
    requires Enabled(o, a)
    ensures SameTasks(o, Apply(o, a))
  {
    match a
    case DoHandler => HandlerKeepsTasks(o);
    case _ =>
  }

  lemma ServedStays(o: Orch, o': Orch, me: PeerId, r: Rpc)
    requires Served(o, me, r) && SameTasks(o, o') && |o'.tasks| <= 3
    requires Stranded(o) ==> Stranded(o') && |o'.tasks| == |o.tasks|
    ensures Served(o', me, r)
  {
  }

  lemma ServedStep(o: Orch, a: Action, me: PeerId, r: Rpc)
    requires Inv(o) && Enabled(o, a) && Served(o, me, r)
    ensures Served(Apply(o, a), me, r)
  {
    StepKeepsTasks(o, a);
    StepKeepsInv(o, a);
    if Stranded(o) {
      StrandedStep(o, a);
    }
    ServedStays(o, Apply(o, a), me, r);
  }

  /** The handler's work answers the call. */
  lemma HandlerServes(o: Orch, me: PeerId, r: Rpc)
    requires Inv(o) && HandlerReady(o) && o.handler.from == me == o.me && o.handler.msg == RpcMessage(o, r)
    ensures CallServed(HandlerWork(o), me, r)
  {
    ExclusionIsolates(o);
  }

  lemma HandlerKeepsCheck(o: Orch, r: Rpc)
    requires HandlerReady(o) && o.handler.msg == RpcMessage(o, r) && CheckStillGood(o, r.kind)
    requires o.handler.pc.level > 0
    ensures CheckStillGood(HandlerWork(o), r.kind)
  {
  }

  lemma HandlerStepMatches(o: Orch, me: PeerId, r: Rpc)
    requires Inv(o) && HandlerReady(o) && o.handler.from == me == o.me && o.handler.msg == RpcMessage(o, r)
    requires CheckStillGood(o, r.kind)
    ensures CheckStillGood(HandlerWork(o), r.kind) && CallServed(HandlerWork(o), me, r)
  {
    HandlerServes(o, me, r);
    HandlerKeepsCheck(o, r);
  }

  lemma TaskStepMatches(o: Orch, me: PeerId, r: Rpc, i: nat)
    requires Inv(o) && i < |o.tasks| && TaskCanStep(o.tasks[i]) && o.handler.On?
    requires CheckStillGood(o, r.kind) && CallServed(o, me, r)
    ensures CheckStillGood(TaskStep(o, i), r.kind) && CallServed(TaskStep(o, i), me, r)
  {
    OnlyLastMoves(o, i);
    if Served(o, me, r) {
      ServedStep(o, DoTask(i), me, r);
    }
  }

  /** Steps in which the handler does not work leave its call alone. */
  lemma QuietStepMatches(o: Orch, me: PeerId, r: Rpc, a: Action)
    requires Inv(o) && Enabled(o, a) && !a.DoDeliver? && !a.DoHandler? && !a.DoTask?
    requires (a.DoReturn? ==> o.handler.pc.level > 0) && o.handler.On?
    requires CheckStillGood(o, r.kind) && CallServed(o, me, r)
    ensures CheckStillGood(Apply(o, a), r.kind) && CallServed(Apply(o, a), me, r)
  {
    WritesRaiseRank(o, a);
    if Served(o, me, r) {
      ServedStep(o, a, me, r);
    }
  }

  lemma InnerStepMatches(o: Orch, me: PeerId, r: Rpc, a: Action)
    requires Inv(o) && Enabled(o, a) && !a.DoDeliver? && (a.DoReturn? ==> o.handler.pc.level > 0)
    requires o.handler.On? && o.handler.msg == RpcMessage(o, r) && o.handler.from == me == o.me
    requires CheckStillGood(o, r.kind) && CallServed(o, me, r)
    ensures CheckStillGood(Apply(o, a), r.kind) && CallServed(Apply(o, a), me, r)
  {
    match a
    case DoHandler => HandlerStepMatches(o, me, r);
    case DoTask(i) => TaskStepMatches(o, me, r, i);
    case _ => QuietStepMatches(o, me, r, a);
  }

  predicate SameCall(o: Orch, o': Orch) {
    && (o'.handler.On? <==> o.handler.On?)
    && (o.handler.On? ==> o'.handler.from == o.handler.from && o'.handler.msg == o.handler.msg)
    && o'.me == o.me && o'.participants == o.participants && o'.partyAssignments == o.partyAssignments
  }

  lemma HandlerWorkKeepsCall(o: Orch)
    requires HandlerReady(o)
    ensures SameCall(o, HandlerWork(o))
  {
  }

  /** The call being handled does not change while it is being handled. */
  lemma InnerStepKeepsCall(o: Orch, a: Action)
    requires Enabled(o, a) && !a.DoDeliver? && (a.DoReturn? ==> o.handler.pc.level > 0)
    ensures SameCall(o, Apply(o, a))
  {
    match a
    case DoHandler => HandlerWorkKeepsCall(o);
    case DoTask(i) => assert TaskStep(o, i).handler == o.handler;
    case DoGrant(t) => assert SameCall(o, Grant(o, t));
    case _ =>
  }

  lemma InnerStepOther(o: Orch, a: Action)
    requires Inv(o) && Enabled(o, a)
    ensures Inv(Apply(o, a))
    ensures o.state.SigningCompleted? ==> Apply(o, a).state == o.state
  {
    StepKeepsInv(o, a);
    WritesRaiseRank(o, a);
  }

  lemma StepKeepsMe(o: Orch, a: Action)
    requires Enabled(o, a)
    ensures Apply(o, a).me == o.me
  {
    match a
    case DoHandler => assert HandlerWork(o).me == o.me;
    case _ =>
  }

  lemma ServedByInner(n: Node, g: nat, a: Action, k: nat, r: Rpc)
    requires g < |n.gens| && Inv(n.gens[g]) && NodeEnabled(n, Inner(g, a)) && k < |n.gens| && Served(n.gens[k], n.me, r)
    ensures Served(NodeApply(n, Inner(g, a)).gens[k], n.me, r)
  {
    if k == g {
      ServedStep(n.gens[g], a, n.me, r);
    }
  }

  lemma HandlingKeptByInner(n: Node, g: nat, a: Action, i: nat)
    requires g < |n.gens| && Inv(n.gens[g]) && NodeEnabled(n, Inner(g, a))
    requires i < |n.rpcs| && n.rpcs[i].pc.Handling? && RpcMatches(n, i) && n.gens[g].me == n.me
    ensures RpcMatches(NodeApply(n, Inner(g, a)), i)
  {
    if g == |n.gens| - 1 {
      InnerStepKeepsCall(n.Current(), a);
      InnerStepMatches(n.Current(), n.me, n.rpcs[i], a);
    }
  }

  lemma InnerKeepsRpc(n: Node, g: nat, a: Action, i: nat)
    requires g < |n.gens| && Inv(n.gens[g]) && NodeEnabled(n, Inner(g, a))
    requires i < |n.rpcs| && RpcMatches(n, i) && n.gens[g].me == n.me
    ensures RpcMatches(NodeApply(n, Inner(g, a)), i)
  {
    if n.rpcs[i].pc.Handling? {
      HandlingKeptByInner(n, g, a, i);
    } else {
      InnerStepOther(n.gens[g], a);
      var n' := NodeApply(n, Inner(g, a));
      forall k | 0 <= k < |n.gens|
        ensures Served(n.gens[k], n.me, n.rpcs[i]) ==> Served(n'.gens[k], n.me, n.rpcs[i])
      {
        if Served(n.gens[k], n.me, n.rpcs[i]) { ServedByInner(n, g, a, k, n.rpcs[i]); }
      }
      RestingRpcMoves(n, n', i);
    }
  }

  lemma RestingRpcMoves(n: Node, n': Node, i: nat)
    requires i < |n.rpcs| && i < |n'.rpcs| && n'.rpcs[i] == n.rpcs[i] && !n.rpcs[i].pc.Handling? && RpcMatches(n, i)
    requires n'.me == n.me && |n'.gens| >= |n.gens| && (n.rpcs[i].pc.Polling? ==> |n'.gens| == |n.gens|)
    requires forall k :: 0 <= k < |n.gens| ==>
               && (Served(n.gens[k], n.me, n.rpcs[i]) ==> Served(n'.gens[k], n.me, n.rpcs[i]))
               && (n.gens[k].state.SigningCompleted? ==> n'.gens[k].state == n.gens[k].state)
    ensures RpcMatches(n', i)
  {
  }

  lemma InnerKeepsOuter(n: Node, g: nat, a: Action)
    requires HoldersMatch(n) && HandlersMatch(n) && QueueMatches(n) && WaitersQueued(n)
    requires NodeEnabled(n, Inner(g, a))
    ensures var n' := NodeApply(n, Inner(g, a));
            HoldersMatch(n') && HandlersMatch(n') && QueueMatches(n') && WaitersQueued(n')
  {
    InnerStepKeepsCall(n.gens[g], a);
    var n' := NodeApply(n, Inner(g, a));
    assert forall k :: 0 <= k < |n.queue| ==> AskMatches(n', n'.queue[k]) == AskMatches(n, n.queue[k]);
  }

  lemma InnerKeepsNode(n: Node, g: nat, a: Action)
    requires NodeInv(n) && NodeEnabled(n, Inner(g, a))
    ensures NodeInv(NodeApply(n, Inner(g, a)))
  {
    InnerStepOther(n.gens[g], a);
    StepKeepsMe(n.gens[g], a);
    InnerKeepsOuter(n, g, a);
    forall i | 0 <= i < |n.rpcs|
      ensures RpcMatches(NodeApply(n, Inner(g, a)), i)
    {
      InnerKeepsRpc(n, g, a, i);
    }
  }

  // ---------------------------------------------------------------------------
  // Steps of the event loop and of RPC calls
  // ---------------------------------------------------------------------------

  /** The call that takes this step is in its place. */
  predicate ActorMatches(n: Node, x: NodeAction) {
    match x
    case RpcCheck(i) => i < |n.rpcs| && RpcMatches(n, i)
    case RpcDone(i) => i < |n.rpcs| && RpcMatches(n, i)
    case RpcAsksRead(i) => i < |n.rpcs| && RpcMatches(n, i)
    case RpcPoll(i) => i < |n.rpcs| && RpcMatches(n, i)
    case RpcTimeout(i) => i < |n.rpcs| && RpcMatches(n, i)
    case _ => true
  }

  predicate LoopStep(x: NodeAction) {
    x.LoopTakes? || x.LoopActs? || x.LoopDone?
  }

  predicate RpcStep(x: NodeAction) {
    x.RpcCheck? || x.RpcDone? || x.RpcAsksRead? || x.RpcPoll? || x.RpcTimeout?
  }

  lemma GrantKeepsHolders(n: Node)
    requires HoldersMatch(n) && NodeEnabled(n, OuterGrant) && AskMatches(n, n.queue[0])
    ensures HoldersMatch(GrantOuter(n))
  {
  }

  lemma LoopKeepsHolders(n: Node, x: NodeAction)
    requires HoldersMatch(n) && NodeEnabled(n, x) && LoopStep(x)
    ensures HoldersMatch(NodeApply(n, x))
  {
  }

  lemma AskKeepsHolders(n: Node, x: NodeAction)
    requires HoldersMatch(n) && NodeEnabled(n, x) && (x.StartRpc? || x.RpcAsksRead?)
    ensures HoldersMatch(NodeApply(n, x))
  {
  }

  lemma PollKeepsHolders(n: Node, x: NodeAction)
    requires HoldersMatch(n) && NodeEnabled(n, x) && (x.RpcPoll? || x.RpcTimeout?)
    ensures HoldersMatch(NodeApply(n, x))
  {
  }

  lemma HandlerKeepsHolders(n: Node, x: NodeAction)
    requires HoldersMatch(n) && NodeEnabled(n, x) && (x.RpcCheck? || x.RpcDone?)
    ensures HoldersMatch(NodeApply(n, x))
  {
  }

  lemma GrantKeepsQueue(n: Node)
    requires QueueMatches(n) && NodeEnabled(n, OuterGrant)
    ensures QueueMatches(GrantOuter(n))
  {
    var n' := GrantOuter(n);
    assert AskMatches(n, n.queue[0]);
    forall k | 0 <= k < |n'.queue|
      ensures AskMatches(n', n'.queue[k])
    {
      assert n'.queue[k] == n.queue[k + 1] && AskMatches(n, n.queue[k + 1]);
      assert n.queue[0].owner != n.queue[k + 1].owner;
    }
  }

  lemma GrantKeepsWaiters(n: Node)
    requires WaitersQueued(n) && NodeEnabled(n, OuterGrant)
    ensures WaitersQueued(GrantOuter(n))
  {
    forall owner | InQueue(n.queue, owner) && owner != n.queue[0].owner
      ensures InQueue(n.queue[1..], owner)
    {
      var k :| 0 <= k < |n.queue| && n.queue[k].owner == owner;
      assert n.queue[1..][k - 1] == n.queue[k];
    }
  }

  lemma AskJoinsQueue(queue: seq<Ask>, ask: Ask, owner: Owner)
    ensures InQueue(queue + [ask], owner) <==> InQueue(queue, owner) || ask.owner == owner
  {
    var longer := queue + [ask];
    assert longer[|queue|] == ask && forall k :: 0 <= k < |queue| ==> longer[k] == queue[k];
  }

  lemma AskKeepsWaiters(n: Node, x: NodeAction)
    requires WaitersQueued(n) && NodeEnabled(n, x) && (x.LoopTakes? || x.StartRpc? || x.RpcAsksRead?)
    ensures WaitersQueued(NodeApply(n, x))
  {
    forall owner: Owner
      ensures InQueue(NodeApply(n, x).queue, owner) <==>
                InQueue(n.queue, owner) || NodeApply(n, x).queue[|n.queue|].owner == owner
    {
      AskJoinsQueue(n.queue, NodeApply(n, x).queue[|n.queue|], owner);
    }
  }

  lemma OthersKeepWaiters(n: Node, x: NodeAction)
    requires WaitersQueued(n) && NodeEnabled(n, x)
    requires x.LoopActs? || x.LoopDone? || (RpcStep(x) && !x.RpcAsksRead?)
    ensures WaitersQueued(NodeApply(n, x))
  {
    assert NodeApply(n, x).queue == n.queue;
  }

  lemma LoopKeepsQueue(n: Node, x: NodeAction)
    requires QueueMatches(n) && NodeEnabled(n, x) && LoopStep(x)
    ensures QueueMatches(NodeApply(n, x))
  {
    var n' := NodeApply(n, x);
    forall k | 0 <= k < |n'.queue|
      ensures AskMatches(n', n'.queue[k])
    {
      assert k < |n.queue| ==> n'.queue[k] == n.queue[k] && AskMatches(n, n.queue[k]);
    }
  }

  /** A call that asks for the lock joins the queue. */
  lemma AskKeepsQueue(n: Node, x: NodeAction)
    requires QueueMatches(n) && NodeEnabled(n, x) && (x.StartRpc? || x.RpcAsksRead?)
    ensures QueueMatches(NodeApply(n, x))
  {
    var n' := NodeApply(n, x);
    forall k | 0 <= k < |n'.queue|
      ensures AskMatches(n', n'.queue[k])
    {
      assert k < |n.queue| ==> n'.queue[k] == n.queue[k] && AskMatches(n, n.queue[k]);
    }
  }

  /** A step of a call that does not wait leaves the queue alone. */
  lemma OtherKeepsQueue(n: Node, x: NodeAction)
    requires QueueMatches(n) && NodeEnabled(n, x) && RpcStep(x) && !x.RpcAsksRead?
    ensures QueueMatches(NodeApply(n, x))
  {
    var n' := NodeApply(n, x);
    assert n'.queue == n.queue && n'.loop == n.loop && |n'.rpcs| == |n.rpcs|;
    assert forall j :: 0 <= j < |n.rpcs| && j != x.i ==> n'.rpcs[j] == n.rpcs[j];
    forall k | 0 <= k < |n'.queue|
      ensures AskMatches(n', n'.queue[k])
    {
      assert AskMatches(n, n.queue[k]);
    }
  }

  lemma CallKeepsHandlers(n: Node, x: NodeAction)
    requires HoldersMatch(n) && HandlersMatch(n) && NodeEnabled(n, x) && !x.Inner? && ActorMatches(n, x)
    requires x.OuterGrant? ==> AskMatches(n, n.queue[0])
    ensures HandlersMatch(NodeApply(n, x))
  {
  }

  predicate DeliversCall(n: Node, x: NodeAction) {
    x.RpcCheck? || (x.LoopActs? && n.loop.LoopHas? && n.loop.job.CallJob?)
  }

  lemma DeliverKeepsGens(n: Node, x: NodeAction, g: nat)
    requires NodeEnabled(n, x) && DeliversCall(n, x) && g < |n.gens| && Inv(n.gens[g]) && n.gens[g].handler.Off?
    ensures g < |NodeApply(n, x).gens| && Inv(NodeApply(n, x).gens[g])
  {
    if g == |n.gens| - 1 {
      if x.RpcCheck? {
        DeliverKeepsInv(n.gens[g], n.me, RpcMessage(n.gens[g], n.rpcs[x.i]));
      } else {
        DeliverKeepsInv(n.gens[g], n.loop.job.from, n.loop.job.msg);
      }
    }
  }

  lemma ReturnKeepsGens(n: Node, x: NodeAction, g: nat)
    requires NodeEnabled(n, x) && (x.LoopDone? || x.RpcDone?) && g < |n.gens| && Inv(n.gens[g])
    ensures g < |NodeApply(n, x).gens| && Inv(NodeApply(n, x).gens[g])
  {
    if g == |n.gens| - 1 {
      ReturnKeepsInv(n.gens[g]);
    }
  }

  lemma OthersKeepGens(n: Node, x: NodeAction, g: nat)
    requires NodeEnabled(n, x) && !x.Inner? && !x.LoopDone? && !x.RpcDone? && !DeliversCall(n, x) && g < |n.gens|
    ensures g < |NodeApply(n, x).gens| && NodeApply(n, x).gens[g] == n.gens[g]
  {
  }

  /** A call is only delivered while no handler runs. */
  lemma DeliveredAtRest(n: Node, x: NodeAction, g: nat)
    requires HoldersMatch(n) && HandlersMatch(n) && NodeEnabled(n, x) && DeliversCall(n, x) && g < |n.gens|
    ensures n.gens[g].handler.Off?
  {
  }

  lemma CallKeepsGens(n: Node, x: NodeAction, g: nat)
    requires HoldersMatch(n) && HandlersMatch(n) && NodeEnabled(n, x) && !x.Inner?
    requires g < |n.gens| && Inv(n.gens[g])
    ensures g < |NodeApply(n, x).gens| && Inv(NodeApply(n, x).gens[g])
  {
    if DeliversCall(n, x) {
      DeliveredAtRest(n, x, g);
      DeliverKeepsGens(n, x, g);
    } else if x.LoopDone? || x.RpcDone? {
      ReturnKeepsGens(n, x, g);
    } else {
      OthersKeepGens(n, x, g);
    }
  }

  lemma CallKeepsAllGens(n: Node, x: NodeAction)
    requires GensMatch(n) && HoldersMatch(n) && HandlersMatch(n) && NodeEnabled(n, x) && !x.Inner?
    ensures GensMatch(NodeApply(n, x))
  {
    CallKeepsResults(n, x);
    forall g | 0 <= g < |NodeApply(n, x).gens|
      ensures Inv(NodeApply(n, x).gens[g]) && NodeApply(n, x).gens[g].me == NodeApply(n, x).me
    {
      if g < |n.gens| { CallKeepsGens(n, x, g); } else { InvNew(NodeApply(n, x).gens[g]); }
    }
  }

  /** Outside the orchestrators, nothing changes their states and tasks, and only an installation adds one. */
  lemma CallKeepsResults(n: Node, x: NodeAction)
    requires NodeEnabled(n, x) && !x.Inner?
    ensures var n' := NodeApply(n, x);
            && n'.me == n.me && |n'.gens| >= |n.gens| && |n'.rpcs| >= |n.rpcs|
            && (|n'.gens| > |n.gens| ==> x.LoopActs? && n.loop.job.InstallJob?)
            && forall g :: 0 <= g < |n.gens| ==> SameResults(n.gens[g], n'.gens[g])
  {
  }

  predicate SameResults(o: Orch, o': Orch) {
    && o'.state == o.state && o'.tasks == o.tasks
    && o'.me == o.me && o'.participants == o.participants && o'.partyAssignments == o.partyAssignments
    && (Stranded(o) ==> Stranded(o'))
  }

  lemma ServedWithSame(o: Orch, o': Orch, me: PeerId, r: Rpc)
    requires Served(o, me, r) && SameResults(o, o')
    ensures Served(o', me, r)
  {
  }

  lemma OthersKeepRpc(n: Node, x: NodeAction, i: nat)
    requires NodeEnabled(n, x) && !x.Inner? && i < |n.rpcs| && (RpcStep(x) ==> x.i != i)
    requires x.OuterGrant? ==> !n.rpcs[i].pc.WantWrite? && !n.rpcs[i].pc.WantRead?
    ensures i < |NodeApply(n, x).rpcs| && NodeApply(n, x).rpcs[i] == n.rpcs[i]
  {
  }

  /** A call that is not being handled only depends on states and tasks. */
  lemma RestingRpcKept(n: Node, n': Node, i: nat)
    requires i < |n.rpcs| && i < |n'.rpcs| && n'.rpcs[i] == n.rpcs[i] && !n.rpcs[i].pc.Handling? && RpcMatches(n, i)
    requires n'.me == n.me && |n'.gens| >= |n.gens| && (n.rpcs[i].pc.Polling? ==> |n'.gens| == |n.gens|)
    requires forall g :: 0 <= g < |n.gens| ==> SameResults(n.gens[g], n'.gens[g])
    ensures RpcMatches(n', i)
  {
    forall k | 0 <= k < |n.gens|
      ensures Served(n.gens[k], n.me, n.rpcs[i]) ==> Served(n'.gens[k], n.me, n.rpcs[i])
    {
      if Served(n.gens[k], n.me, n.rpcs[i]) { ServedWithSame(n.gens[k], n'.gens[k], n.me, n.rpcs[i]); }
    }
    RestingRpcMoves(n, n', i);
  }

  /** While a call is being handled, only its own steps and the orchestrator's touch the generations. */
  lemma HandlingIsAlone(n: Node, x: NodeAction, i: nat)
    requires HoldersMatch(n) && NodeEnabled(n, x) && !x.Inner? && i < |n.rpcs| && n.rpcs[i].pc.Handling?
    requires RpcStep(x) ==> x.i != i
    ensures NodeApply(n, x).gens == n.gens && NodeApply(n, x).me == n.me
  {
    assert n.writer == Some(RpcOwner(i));
    if RpcStep(x) {
      assert n.writer == Some(RpcOwner(x.i)) <==> HasHandler(n.rpcs[x.i].pc);
    }
  }

  lemma OtherStepKeepsRpc(n: Node, x: NodeAction, i: nat)
    requires HoldersMatch(n) && NodeEnabled(n, x) && !x.Inner? && (RpcStep(x) ==> x.i != i)
    requires i < |n.rpcs| && RpcMatches(n, i)
    requires x.OuterGrant? ==> !n.rpcs[i].pc.WantWrite? && !n.rpcs[i].pc.WantRead?
    ensures i < |NodeApply(n, x).rpcs| && RpcMatches(NodeApply(n, x), i)
  {
    OthersKeepRpc(n, x, i);
    if n.rpcs[i].pc.Handling? {
      HandlingIsAlone(n, x, i);
    } else {
      CallKeepsResults(n, x);
      RestingRpcKept(n, NodeApply(n, x), i);
    }
  }

  lemma GrantKeepsRpc(n: Node, i: nat)
    requires NodeEnabled(n, OuterGrant) && i < |n.rpcs| && RpcMatches(n, i)
    requires n.rpcs[i].pc.WantWrite? || n.rpcs[i].pc.WantRead?
    ensures i < |GrantOuter(n).rpcs| && RpcMatches(GrantOuter(n), i)
  {
    assert GrantOuter(n).gens == n.gens && GrantOuter(n).me == n.me;
  }

  lemma CheckKeepsRpc(n: Node, i: nat)
    requires NodeEnabled(n, RpcCheck(i)) && RpcMatches(n, i)
    ensures i < |NodeApply(n, RpcCheck(i)).rpcs| && RpcMatches(NodeApply(n, RpcCheck(i)), i)
  {
  }

  lemma DoneKeepsRpc(n: Node, i: nat)
    requires NodeEnabled(n, RpcDone(i)) && RpcMatches(n, i)
    ensures i < |NodeApply(n, RpcDone(i)).rpcs| && RpcMatches(NodeApply(n, RpcDone(i)), i)
  {
    if n.Current().handler.pc.result.Ok? {
      ServedWithSame(n.Current(), n.Current().(handler := Off), n.me, n.rpcs[i]);
    }
  }

  lemma OwnStepKeepsRpc(n: Node, x: NodeAction, i: nat)
    requires NodeEnabled(n, x) && RpcStep(x) && i < |n.rpcs| && RpcMatches(n, i) && x.i == i
    ensures i < |NodeApply(n, x).rpcs| && RpcMatches(NodeApply(n, x), i)
  {
    if x.RpcCheck? {
      CheckKeepsRpc(n, i);
    } else if x.RpcDone? {
      DoneKeepsRpc(n, i);
    }
  }

  lemma CallKeepsRpc(n: Node, x: NodeAction, i: nat)
    requires HoldersMatch(n) && HandlersMatch(n) && NodeEnabled(n, x) && !x.Inner? && ActorMatches(n, x)
    requires i < |NodeApply(n, x).rpcs| && (i < |n.rpcs| ==> RpcMatches(n, i))
    ensures RpcMatches(NodeApply(n, x), i)
  {
    if i < |n.rpcs| {
      if x.OuterGrant? && (n.rpcs[i].pc.WantWrite? || n.rpcs[i].pc.WantRead?) {
        GrantKeepsRpc(n, i);
      } else if RpcStep(x) && x.i == i {
        OwnStepKeepsRpc(n, x, i);
      } else {
        OtherStepKeepsRpc(n, x, i);
      }
    }
  }

  lemma CallKeepsOuter(n: Node, x: NodeAction)
    requires HoldersMatch(n) && HandlersMatch(n) && QueueMatches(n) && NodeEnabled(n, x) && !x.Inner?
    requires ActorMatches(n, x)
    ensures var n' := NodeApply(n, x); HoldersMatch(n') && HandlersMatch(n') && QueueMatches(n')
  {
    if x.OuterGrant? {
      assert AskMatches(n, n.queue[0]);
      GrantKeepsHolders(n);
      GrantKeepsQueue(n);
    } else if LoopStep(x) {
      LoopKeepsHolders(n, x);
      LoopKeepsQueue(n, x);
    } else {
      if x.StartRpc? || x.RpcAsksRead? {
        AskKeepsHolders(n, x);
        AskKeepsQueue(n, x);
      } else {
        if x.RpcPoll? || x.RpcTimeout? { PollKeepsHolders(n, x); } else { HandlerKeepsHolders(n, x); }
        OtherKeepsQueue(n, x);
      }
    }
    CallKeepsHandlers(n, x);
  }

  lemma CallKeepsWaiters(n: Node, x: NodeAction)
    requires WaitersQueued(n) && NodeEnabled(n, x) && !x.Inner?
    ensures WaitersQueued(NodeApply(n, x))
  {
    if x.OuterGrant? {
      GrantKeepsWaiters(n);
    } else if x.LoopTakes? || x.StartRpc? || x.RpcAsksRead? {
      AskKeepsWaiters(n, x);
    } else {
      OthersKeepWaiters(n, x);
    }
  }

  lemma CallKeepsNode(n: Node, x: NodeAction)
    requires NodeInv(n) && NodeEnabled(n, x) && !x.Inner?
    ensures NodeInv(NodeApply(n, x))
  {
    ActorInPlace(n, x);
    CallKeepsOuter(n, x);
    CallKeepsWaiters(n, x);
    CallKeepsAllGens(n, x);
    CallKeepsAllRpcs(n, x);
  }

  lemma ActorInPlace(n: Node, x: NodeAction)
    requires RpcsMatch(n) && NodeEnabled(n, x) && !x.Inner?
    ensures ActorMatches(n, x)
  {
  }

  lemma CallKeepsAllRpcs(n: Node, x: NodeAction)
    requires HoldersMatch(n) && HandlersMatch(n) && NodeEnabled(n, x) && !x.Inner? && ActorMatches(n, x)
    requires RpcsMatch(n)
    ensures RpcsMatch(NodeApply(n, x))
  {
    forall i | 0 <= i < |NodeApply(n, x).rpcs|
      ensures RpcMatches(NodeApply(n, x), i)
    {
      CallKeepsRpc(n, x, i);
    }
  }

  lemma NodeStepKeepsInv(n: Node, x: NodeAction)
    requires NodeInv(n) && NodeEnabled(n, x)
    ensures NodeInv(NodeApply(n, x))
  {
    if x.Inner? {
      InnerKeepsNode(n, x.g, x.a);
    } else {
      CallKeepsNode(n, x);
    }
  }

  lemma {:induction false} NodeRunKeepsInv(n: Node, xs: seq<NodeAction>)
    requires NodeInv(n) && NodeRuns(n, xs)
    ensures NodeInv(NodeAfter(n, xs))
    decreases |xs|
  {
    if xs != [] {
      NodeStepKeepsInv(n, xs[0]);
      NodeRunKeepsInv(NodeApply(n, xs[0]), xs[1..]);
    }
  }

  lemma NodeReachableInv(n: Node)
    requires NodeReachable(n)
    ensures NodeInv(n)
  {
    var xs :| NodeRuns(NewNode(n.me), xs) && n == NodeAfter(NewNode(n.me), xs);
    NodeRunKeepsInv(NewNode(n.me), xs);
  }
}

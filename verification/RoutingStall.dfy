/** A signing call polls for its signature while it shares the outer lock, and the event loop needs that lock for
    every protocol message it routes. Since the lock is served in arrival order, one exclusive request behind the
    poll shuts the event loop out, and with it the task the poll waits for. Exactly when, and what ends it. */
module RoutingStall {
  import opened Basics
  import opened Orchestration
  import opened OrchestrationProof
  import opened NodeRuntime
  import opened NodeRuntimeProof
  import opened NodeRouting
  import Routing

  /** The requests ahead of the event loop's. */
  function AheadOfLoop(queue: seq<Ask>): seq<Ask> {
    if queue == [] || queue[0].owner == EventLoop then [] else [queue[0]] + AheadOfLoop(queue[1..])
  }

  predicate NoWrite(queue: seq<Ask>) {
    forall k :: 0 <= k < |queue| ==> queue[k].mode.Read?
  }

  /** There is another participant to hear from and a running task to hear it. */
  predicate CanReceive(n: Node) {
    && n.gens != []
    && (exists p :: p in n.Current().partyAssignments && p != n.me)
    && (exists i :: 0 <= i < |n.Current().tasks| && n.Current().tasks[i].pc.Running?)
  }

  /** The event loop is not occupied with an exclusive request of its own, none is ahead of it, and what it is about
      to route can be handed over, or no exclusive request at all keeps it from routing the next message. */
  predicate RoutingOpen(n: Node) {
    match n.loop
    case LoopFree => NoWrite(n.queue) && CanReceive(n)
    case LoopAsks(job) =>
      job.RouteJob? && NoWrite(AheadOfLoop(n.queue))
      && (Deliverable(n, job.wire) || (NoWrite(n.queue) && CanReceive(n)))
    case LoopHas(job) => job.RouteJob? && (Deliverable(n, job.wire) || (NoWrite(n.queue) && CanReceive(n)))
    case LoopCalls => false
  }

  predicate IsPolling(n: Node, i: nat) {
    i < |n.rpcs| && n.rpcs[i].pc.Polling?
  }

  // ---------------------------------------------------------------------------
  // Messages, channels and the queue
  // ---------------------------------------------------------------------------

  /** Whoever can receive can be sent something. */
  lemma MessageFor(n: Node) returns (wire: Routing.Wire)
    requires CanReceive(n)
    ensures wire.from != n.me && Deliverable(n, wire)
  {
    var p :| p in n.Current().partyAssignments && p != n.me;
    var i :| 0 <= i < |n.Current().tasks| && n.Current().tasks[i].pc.Running?;
    var protocol := match n.Current().tasks[i].job
                    case AuxJob(_, _, _) => Routing.AuxProtocol
                    case KeygenJob(_, _, _, _, _) => Routing.KeygenProtocol
                    case SigningJob(_, _, _, _, _, _) => Routing.SigningProtocol;
    wire := Routing.Wire(protocol, p, None, "broadcast", []);
    assert Listens(n.Current(), protocol, i);
  }

  /** Nobody new can receive anything. */
  predicate NoMoreReception(n: Node, n': Node) {
    && n'.me == n.me && |n'.gens| == |n.gens|
    && (n.gens != [] ==>
          && n'.Current().partyAssignments == n.Current().partyAssignments
          && |n'.Current().tasks| == |n.Current().tasks|
          && forall i :: 0 <= i < |n.Current().tasks| ==>
               && n'.Current().tasks[i].job == n.Current().tasks[i].job
               && (n'.Current().tasks[i].pc.Running? ==> n.Current().tasks[i].pc.Running?))
  }

  lemma ReceptionMeans(n: Node, n': Node)
    requires NoMoreReception(n, n')
    ensures CanReceive(n') ==> CanReceive(n)
    ensures forall wire :: Deliverable(n', wire) ==> Deliverable(n, wire)
  {
    forall wire | Deliverable(n', wire)
      ensures Deliverable(n, wire)
    {
      var i :| 0 <= i < |n'.Current().tasks| && Listens(n'.Current(), wire.protocol, i);
      assert Listens(n.Current(), wire.protocol, i);
    }
  }

  lemma SameReceptionMeans(n: Node, n': Node)
    requires n'.gens == n.gens && n'.me == n.me
    ensures CanReceive(n') <==> CanReceive(n)
    ensures forall wire :: Deliverable(n', wire) <==> Deliverable(n, wire)
  {
    ReceptionMeans(n, n');
    ReceptionMeans(n', n);
  }

  lemma IdleHandlerSpawnsNothing(o: Orch, a: Action)
    requires Enabled(o, a) && !a.DoDeliver? && o.handler.Off?
    ensures Apply(o, a).partyAssignments == o.partyAssignments && |Apply(o, a).tasks| == |o.tasks|
    ensures forall i :: 0 <= i < |o.tasks| ==>
              && Apply(o, a).tasks[i].job == o.tasks[i].job
              && (Apply(o, a).tasks[i].pc.Running? ==> o.tasks[i].pc.Running?)
  {
  }

  /** While a call polls, no handler runs and nothing is installed. */
  lemma PollIsQuiet(n: Node, i: nat)
    requires NodeInv(n) && IsPolling(n, i)
    ensures n.writer.None? && RpcOwner(i) in n.readers && n.gens != [] && n.Current().handler.Off?
    ensures !n.loop.LoopCalls? && (n.loop.LoopHas? ==> n.loop.job.RouteJob?)
  {
    assert RpcMatches(n, i);
  }

  lemma InnerKeepsReception(n: Node, g: nat, a: Action)
    requires NodeEnabled(n, Inner(g, a)) && n.Current().handler.Off?
    ensures NoMoreReception(n, NodeApply(n, Inner(g, a)))
  {
    if g == |n.gens| - 1 {
      IdleHandlerSpawnsNothing(n.Current(), a);
    }
  }

  lemma CallKeepsGenerations(n: Node, x: NodeAction)
    requires HoldersMatch(n) && n.writer.None? && NodeEnabled(n, x) && !x.Inner?
    requires n.loop.LoopHas? ==> n.loop.job.RouteJob?
    requires !n.loop.LoopCalls?
    ensures NodeApply(n, x).gens == n.gens && NodeApply(n, x).me == n.me
  {
    forall i | 0 <= i < |n.rpcs|
      ensures !HasHandler(n.rpcs[i].pc)
    {
      assert n.writer == Some(RpcOwner(i)) <==> HasHandler(n.rpcs[i].pc);
    }
  }

  lemma ReceptionKept(n: Node, x: NodeAction, i: nat)
    requires NodeInv(n) && IsPolling(n, i) && NodeEnabled(n, x)
    ensures NoMoreReception(n, NodeApply(n, x))
    ensures !x.Inner? ==> NodeApply(n, x).gens == n.gens && NodeApply(n, x).me == n.me
  {
    PollIsQuiet(n, i);
    if x.Inner? {
      InnerKeepsReception(n, x.g, x.a);
    } else {
      CallKeepsGenerations(n, x);
    }
  }

  lemma {:induction false} AheadWithout(queue: seq<Ask>)
    requires forall k :: 0 <= k < |queue| ==> queue[k].owner != EventLoop
    ensures AheadOfLoop(queue) == queue
  {
    if queue != [] {
      AheadWithout(queue[1..]);
    }
  }

  lemma NoLoopInQueue(n: Node)
    requires QueueMatches(n) && n.loop.LoopFree?
    ensures AheadOfLoop(n.queue) == n.queue
  {
    forall k | 0 <= k < |n.queue|
      ensures n.queue[k].owner != EventLoop
    {
      assert AskMatches(n, n.queue[k]);
    }
    AheadWithout(n.queue);
  }

  /** Joining the queue puts nobody's request away, and nothing ahead of the event loop's. */
  lemma {:induction false} AheadGrows(queue: seq<Ask>, ask: Ask)
    ensures NoWrite(AheadOfLoop(queue + [ask])) ==> NoWrite(AheadOfLoop(queue))
    ensures ask.owner == EventLoop ==> AheadOfLoop(queue + [ask]) == AheadOfLoop(queue)
  {
    if queue == [] {
      assert queue + [ask] == [ask];
    } else if queue[0].owner != EventLoop {
      AheadGrows(queue[1..], ask);
      assert (queue + [ask])[1..] == queue[1..] + [ask];
      var rest, rest' := AheadOfLoop(queue[1..]), AheadOfLoop(queue[1..] + [ask]);
      if NoWrite([queue[0]] + rest') {
        assert forall k :: 0 <= k < |rest'| ==> rest'[k] == ([queue[0]] + rest')[k + 1];
        assert NoWrite(rest') && ([queue[0]] + rest')[0].mode.Read?;
      }
    }
  }

  lemma QueueGrows(queue: seq<Ask>, ask: Ask)
    ensures NoWrite(queue + [ask]) <==> NoWrite(queue) && ask.mode.Read?
  {
    var longer := queue + [ask];
    assert longer[|queue|] == ask && forall k :: 0 <= k < |queue| ==> longer[k] == queue[k];
  }

  lemma AheadShrinks(queue: seq<Ask>)
    requires queue != [] && queue[0].owner != EventLoop && queue[0].mode.Read?
    ensures NoWrite(AheadOfLoop(queue[1..])) <==> NoWrite(AheadOfLoop(queue))
  {
    var rest := AheadOfLoop(queue[1..]);
    assert forall k :: 0 <= k < |rest| ==> rest[k] == ([queue[0]] + rest)[k + 1];
  }

  lemma QueueShrinks(queue: seq<Ask>)
    requires queue != [] && queue[0].mode.Read?
    ensures NoWrite(queue[1..]) <==> NoWrite(queue)
  {
    assert forall k :: 0 < k < |queue| ==> queue[k] == queue[1..][k - 1];
  }

  lemma {:induction false} AheadIsPart(queue: seq<Ask>)
    requires NoWrite(queue)
    ensures NoWrite(AheadOfLoop(queue))
  {
    if queue != [] && queue[0].owner != EventLoop {
      QueueShrinks(queue);
      AheadIsPart(queue[1..]);
      AheadShrinks(queue);
    }
  }

  // ---------------------------------------------------------------------------
  // A closed route stays closed
  // ---------------------------------------------------------------------------

  /** A grant while a call polls is a shared one, and leaves the route as it is. */
  lemma GrantKeepsRoute(n: Node, i: nat)
    requires NodeInv(n) && IsPolling(n, i) && NodeEnabled(n, OuterGrant)
    ensures RoutingOpen(GrantOuter(n)) <==> RoutingOpen(n)
  {
    PollIsQuiet(n, i);
    assert AskMatches(n, n.queue[0]);
    ReceptionKept(n, OuterGrant, i);
    SameReceptionMeans(n, GrantOuter(n));
    QueueShrinks(n.queue);
    if n.queue[0].owner != EventLoop {
      AheadShrinks(n.queue);
    }
  }

  lemma ClosedTake(n: Node, x: NodeAction)
    requires QueueMatches(n) && !RoutingOpen(n) && NodeEnabled(n, x) && x.LoopTakes?
    ensures !RoutingOpen(NodeApply(n, x))
  {
    var n' := NodeApply(n, x);
    var ask := Ask(EventLoop, x.job.Mode());
    NoLoopInQueue(n);
    AheadGrows(n.queue, ask);
    QueueGrows(n.queue, ask);
    ReceptionMeans(n, n');
  }

  lemma ClosedAsk(n: Node, x: NodeAction)
    requires !RoutingOpen(n) && NodeEnabled(n, x) && (x.StartRpc? || x.RpcAsksRead?)
    ensures !RoutingOpen(NodeApply(n, x))
  {
    var n' := NodeApply(n, x);
    AheadGrows(n.queue, n'.queue[|n.queue|]);
    QueueGrows(n.queue, n'.queue[|n.queue|]);
    ReceptionMeans(n, n');
  }

  lemma ClosedRoute(n: Node, i: nat)
    requires NodeInv(n) && IsPolling(n, i) && !RoutingOpen(n) && n.loop.LoopHas?
    ensures !RoutingOpen(LoopWork(n)) && LoopWork(n).routed == n.routed
  {
    PollIsQuiet(n, i);
    RouteDecided(n, n.loop.job.wire);
    SameReceptionMeans(n, LoopWork(n));
  }

  /** While the poll goes on, no step opens a closed route or hands over a message. */
  lemma ClosedStep(n: Node, x: NodeAction, i: nat)
    requires NodeInv(n) && IsPolling(n, i) && !RoutingOpen(n) && NodeEnabled(n, x)
    ensures !RoutingOpen(NodeApply(n, x)) && NodeApply(n, x).routed == n.routed
  {
    if x.OuterGrant? {
      GrantKeepsRoute(n, i);
    } else if x.LoopTakes? {
      ClosedTake(n, x);
    } else if x.StartRpc? || x.RpcAsksRead? {
      ClosedAsk(n, x);
    } else if x.LoopActs? {
      ClosedRoute(n, i);
    } else {
      PollIsQuiet(n, i);
      ReceptionKept(n, x, i);
      ClosedElse(n, x);
    }
  }

  /** The other steps touch neither the event loop nor the queue. */
  lemma ClosedElse(n: Node, x: NodeAction)
    requires !RoutingOpen(n) && NodeEnabled(n, x) && NoMoreReception(n, NodeApply(n, x)) && !n.loop.LoopCalls?
    requires !x.OuterGrant? && !x.LoopTakes? && !x.StartRpc? && !x.RpcAsksRead? && !x.LoopActs?
    ensures !RoutingOpen(NodeApply(n, x)) && NodeApply(n, x).routed == n.routed
  {
    ReceptionMeans(n, NodeApply(n, x));
    assert !x.LoopDone?;
    assert NodeApply(n, x).loop == n.loop && NodeApply(n, x).queue == n.queue;
  }

  lemma PolledOnce(n: Node, x: NodeAction, i: nat)
    requires NodeEnabled(n, x) && i < |n.rpcs| && (n.rpcs[i].pc.Signed? || n.rpcs[i].pc.Unsigned?)
    ensures i < |NodeApply(n, x).rpcs| && NodeApply(n, x).rpcs[i] == n.rpcs[i]
  {
  }

  lemma {:induction false} PollIsOver(n: Node, xs: seq<NodeAction>, i: nat)
    requires NodeRuns(n, xs) && i < |n.rpcs| && (n.rpcs[i].pc.Signed? || n.rpcs[i].pc.Unsigned?)
    ensures !IsPolling(NodeAfter(n, xs), i)
    decreases |xs|
  {
    if xs != [] {
      PolledOnce(n, xs[0], i);
      PollIsOver(NodeApply(n, xs[0]), xs[1..], i);
    }
  }

  /** A poll goes on or is over for good. */
  lemma PollStep(n: Node, x: NodeAction, i: nat)
    requires NodeEnabled(n, x) && IsPolling(n, i)
    ensures i < |NodeApply(n, x).rpcs|
    ensures var pc := NodeApply(n, x).rpcs[i].pc; pc == n.rpcs[i].pc || pc.Signed? || pc.Unsigned?
  {
  }

  lemma {:induction false} ClosedRun(n: Node, xs: seq<NodeAction>, i: nat)
    requires NodeInv(n) && NodeRuns(n, xs) && IsPolling(n, i) && !RoutingOpen(n) && IsPolling(NodeAfter(n, xs), i)
    ensures NodeAfter(n, xs).routed == n.routed
    decreases |xs|
  {
    if xs != [] {
      ClosedStep(n, xs[0], i);
      NodeStepKeepsInv(n, xs[0]);
      PollStep(n, xs[0], i);
      if !IsPolling(NodeApply(n, xs[0]), i) {
        PollIsOver(NodeApply(n, xs[0]), xs[1..], i);
      } else {
        ClosedRun(NodeApply(n, xs[0]), xs[1..], i);
      }
    }
  }

  // ---------------------------------------------------------------------------
  // An open route is used
  // ---------------------------------------------------------------------------

  /** A run that hands over a message while call `i` polls on. */
  ghost predicate RoutesDuring(n: Node, xs: seq<NodeAction>, i: nat) {
    NodeRuns(n, xs) && IsPolling(NodeAfter(n, xs), i) && NodeAfter(n, xs).routed != n.routed
  }

  lemma ConsRoutes(n: Node, x: NodeAction, xs: seq<NodeAction>, i: nat)
    requires NodeEnabled(n, x) && NodeApply(n, x).routed == n.routed && RoutesDuring(NodeApply(n, x), xs, i)
    ensures RoutesDuring(n, [x] + xs, i)
  {
    assert ([x] + xs)[1..] == xs;
  }

  lemma RouteNow(n: Node, i: nat)
    requires NodeInv(n) && IsPolling(n, i)
    requires n.loop.LoopHas? && n.loop.job.RouteJob? && Deliverable(n, n.loop.job.wire)
    ensures RoutesDuring(n, [LoopActs], i)
  {
    RouteDecided(n, n.loop.job.wire);
    assert |LoopWork(n).routed| == |n.routed| + 1;
    assert [LoopActs][1..] == [];
    assert NodeRuns(NodeApply(n, LoopActs), []);
  }

  /** How far the event loop is from handing a message over. */
  function Distance(n: Node): nat {
    match n.loop
    case LoopHas(job) => if job.RouteJob? && Deliverable(n, job.wire) then 0 else 3
    case LoopAsks(job) => if job.RouteJob? && Deliverable(n, job.wire) then 1 else 4
    case LoopFree => 2
    case LoopCalls => 5
  }

  lemma NextIsShared(n: Node, i: nat)
    requires NodeInv(n) && IsPolling(n, i) && RoutingOpen(n) && n.loop.LoopAsks?
    ensures NodeEnabled(n, OuterGrant) && n.queue[0].mode.Read?
    ensures n.queue[0].owner != EventLoop ==> n.queue[0].owner.i < |n.rpcs| && n.rpcs[n.queue[0].owner.i].pc.WantRead?
  {
    PollIsQuiet(n, i);
    assert InQueue(n.queue, EventLoop);
    assert AskMatches(n, n.queue[0]);
    if n.queue[0].owner != EventLoop {
      assert AheadOfLoop(n.queue)[0].mode.Read?;
    }
  }

  lemma OnwardGrant(n: Node, i: nat)
    requires NodeInv(n) && IsPolling(n, i) && RoutingOpen(n) && n.loop.LoopAsks?
    ensures NodeEnabled(n, OuterGrant) && RoutingOpen(GrantOuter(n)) && IsPolling(GrantOuter(n), i)
    ensures |GrantOuter(n).queue| < |n.queue| && Distance(GrantOuter(n)) <= Distance(n)
    ensures GrantOuter(n).routed == n.routed
  {
    NextIsShared(n, i);
    GrantKeepsRoute(n, i);
    ReceptionKept(n, OuterGrant, i);
    SameReceptionMeans(n, GrantOuter(n));
  }

  lemma OnwardTake(n: Node, wire: Routing.Wire, i: nat)
    requires NodeInv(n) && IsPolling(n, i) && RoutingOpen(n) && n.loop.LoopFree?
    requires wire.from != n.me && Deliverable(n, wire)
    ensures var x := LoopTakes(RouteJob(wire));
            NodeEnabled(n, x) && RoutingOpen(NodeApply(n, x)) && Distance(NodeApply(n, x)) == 1
  {
    NoLoopInQueue(n);
    AheadGrows(n.queue, Ask(EventLoop, Read));
    SameReceptionMeans(n, NodeApply(n, LoopTakes(RouteJob(wire))));
  }

  lemma OnwardSkip(n: Node, i: nat)
    requires NodeInv(n) && IsPolling(n, i) && RoutingOpen(n) && n.loop.LoopHas? && !Deliverable(n, n.loop.job.wire)
    ensures RoutingOpen(LoopWork(n)) && LoopWork(n).loop.LoopFree? && LoopWork(n).routed == n.routed
  {
    RouteDecided(n, n.loop.job.wire);
    SameReceptionMeans(n, LoopWork(n));
  }

  /** A step that brings the event loop nearer. */
  lemma OnwardStep(n: Node, i: nat) returns (x: NodeAction)
    requires NodeInv(n) && IsPolling(n, i) && RoutingOpen(n) && Distance(n) > 0
    ensures NodeEnabled(n, x) && RoutingOpen(NodeApply(n, x)) && IsPolling(NodeApply(n, x), i)
    ensures NodeApply(n, x).routed == n.routed
    ensures var n' := NodeApply(n, x);
            Distance(n') < Distance(n) || (Distance(n') == Distance(n) && |n'.queue| < |n.queue|)
  {
    x := OuterGrant;
    match n.loop {
      case LoopAsks(_) => OnwardGrant(n, i);
      case LoopFree =>
        var wire := MessageFor(n);
        x := LoopTakes(RouteJob(wire));
        OnwardTake(n, wire, i);
      case LoopHas(_) =>
        x := LoopActs;
        OnwardSkip(n, i);
    }
  }

  lemma {:induction false} OpenRoutes(n: Node, i: nat) returns (xs: seq<NodeAction>)
    requires NodeInv(n) && IsPolling(n, i) && RoutingOpen(n)
    ensures RoutesDuring(n, xs, i)
    decreases Distance(n), |n.queue|
  {
    if Distance(n) == 0 {
      RouteNow(n, i);
      xs := [LoopActs];
    } else {
      var x := OnwardStep(n, i);
      NodeStepKeepsInv(n, x);
      var rest := OpenRoutes(NodeApply(n, x), i);
      ConsRoutes(n, x, rest, i);
      xs := [x] + rest;
    }
  }

  /** While a signing call polls, a protocol message can still reach a task if and only if the event loop wants no
      exclusive hold, no exclusive request is ahead of it, and there is somebody to hear from and a running task
      to hear it. Otherwise nothing reaches any task before the poll is over. */
  lemma RoutingGoesOnExactly(n: Node, i: nat)
    requires NodeReachable(n) && IsPolling(n, i)
    ensures (exists xs :: RoutesDuring(n, xs, i)) <==> RoutingOpen(n)
  {
    NodeReachableInv(n);
    if RoutingOpen(n) {
      var xs := OpenRoutes(n, i);
      assert RoutesDuring(n, xs, i);
    } else {
      forall xs | NodeRuns(n, xs) && IsPolling(NodeAfter(n, xs), i)
        ensures NodeAfter(n, xs).routed == n.routed
      {
        ClosedRun(n, xs, i);
      }
    }
  }

  // ---------------------------------------------------------------------------
  // What ends the poll
  // ---------------------------------------------------------------------------

  /** Another message has been handed to the signing task of generation `g` since `had` had been routed. */
  predicate Fed(n: Node, g: nat, had: nat) {
    exists k :: had <= k < |n.routed| && n.routed[k].g == g && n.routed[k].task == 2
  }

  /** In this run the signing task of generation `g` ends only once it has been fed: it needs another message. */
  ghost predicate TaskWaits(n: Node, xs: seq<NodeAction>, g: nat, had: nat)
    requires NodeRuns(n, xs)
    decreases |xs|
  {
    xs == []
    || (&& (xs[0].Inner? && xs[0].g == g && xs[0].a.DoFinish? && xs[0].a.i == 2 ==> Fed(n, g, had))
        && TaskWaits(NodeApply(n, xs[0]), xs[1..], g, had))
  }

  predicate TaskRuns(n: Node, g: nat) {
    g < |n.gens| && |n.gens[g].tasks| == 3 && n.gens[g].tasks[2].pc.Running?
  }

  lemma RunningTaskKept(n: Node, x: NodeAction, g: nat)
    requires NodeInv(n) && NodeEnabled(n, x) && TaskRuns(n, g)
    requires !(x.Inner? && x.g == g && x.a.DoFinish? && x.a.i == 2)
    ensures TaskRuns(NodeApply(n, x), g)
  {
    if x.Inner? {
      if x.g == g {
        RunningKept(n.gens[g], x.a);
      }
    } else {
      CallKeepsResults(n, x);
    }
  }

  lemma RunningKept(o: Orch, a: Action)
    requires Inv(o) && Enabled(o, a) && |o.tasks| == 3 && o.tasks[2].pc.Running? && !(a.DoFinish? && a.i == 2)
    ensures |Apply(o, a).tasks| == 3 && Apply(o, a).tasks[2].pc.Running?
  {
    if a.DoHandler? {
      HandlerKeepsInv(o);
      assert forall i :: 0 <= i < |o.tasks| ==> HandlerWork(o).tasks[i] == o.tasks[i];
    } else {
      RunningUntouched(o, a);
    }
  }

  lemma RunningUntouched(o: Orch, a: Action)
    requires Enabled(o, a) && |o.tasks| == 3 && o.tasks[2].pc.Running? && !(a.DoFinish? && a.i == 2) && !a.DoHandler?
    ensures |Apply(o, a).tasks| == 3 && Apply(o, a).tasks[2].pc.Running?
  {
  }

  lemma StillSigning(o: Orch)
    requires Inv(o) && |o.tasks| == 3 && o.tasks[2].pc.Running?
    ensures !o.state.SigningCompleted? && !o.state.Failed?
  {
  }

  lemma StalledStep(n: Node, x: NodeAction, i: nat)
    requires NodeInv(n) && NodeEnabled(n, x) && IsPolling(n, i) && TaskRuns(n, n.rpcs[i].pc.at) && x != RpcTimeout(i)
    ensures IsPolling(NodeApply(n, x), i) && NodeApply(n, x).rpcs[i].pc == n.rpcs[i].pc
  {
    StillSigning(n.gens[n.rpcs[i].pc.at]);
    if x.RpcPoll? {
      PollTurn(n, x.i, i);
    } else {
      PollKept(n, x, i);
    }
  }

  lemma PollTurn(n: Node, j: nat, i: nat)
    requires NodeEnabled(n, RpcPoll(j)) && IsPolling(n, i)
    requires var at := n.rpcs[i].pc.at;
             at < |n.gens| && !n.gens[at].state.SigningCompleted? && !n.gens[at].state.Failed?
    ensures var n' := NodeApply(n, RpcPoll(j)); IsPolling(n', i) && n'.rpcs[i].pc == n.rpcs[i].pc
  {
  }

  lemma PollKept(n: Node, x: NodeAction, i: nat)
    requires NodeEnabled(n, x) && IsPolling(n, i) && !x.RpcPoll? && x != RpcTimeout(i)
    ensures IsPolling(NodeApply(n, x), i) && NodeApply(n, x).rpcs[i].pc == n.rpcs[i].pc
  {
  }

  lemma {:induction false} UnsignedForGood(n: Node, xs: seq<NodeAction>, i: nat)
    requires NodeRuns(n, xs) && i < |n.rpcs| && n.rpcs[i].pc.Unsigned?
    ensures i < |NodeAfter(n, xs).rpcs| && NodeAfter(n, xs).rpcs[i].pc.Unsigned?
    decreases |xs|
  {
    if xs != [] {
      PolledOnce(n, xs[0], i);
      UnsignedForGood(NodeApply(n, xs[0]), xs[1..], i);
    }
  }

  /** Once the route is closed, a poll whose task still needs a message can only end by its timeout, whatever the
      node does: it waits for the task, the task for the event loop, and the event loop for the poll. */
  lemma {:induction false} StallEndsByTimeout(n: Node, xs: seq<NodeAction>, i: nat)
    requires NodeInv(n) && NodeRuns(n, xs) && IsPolling(n, i) && !RoutingOpen(n)
    requires TaskRuns(n, n.rpcs[i].pc.at) && TaskWaits(n, xs, n.rpcs[i].pc.at, |n.routed|)
    ensures IsPolling(NodeAfter(n, xs), i)
            || (RpcTimeout(i) in xs && i < |NodeAfter(n, xs).rpcs| && NodeAfter(n, xs).rpcs[i].pc.Unsigned?)
    decreases |xs|
  {
    if xs != [] {
      NodeStepKeepsInv(n, xs[0]);
      if xs[0] == RpcTimeout(i) {
        UnsignedForGood(NodeApply(n, xs[0]), xs[1..], i);
      } else {
        StalledStep(n, xs[0], i);
        ClosedStep(n, xs[0], i);
        RunningTaskKept(n, xs[0], n.rpcs[i].pc.at);
        StallEndsByTimeout(NodeApply(n, xs[0]), xs[1..], i);
      }
    }
  }
}

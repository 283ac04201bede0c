/** Progress across the outer lock and the inner ones: when a node can take no further step by itself, only polls
    hold anything up. */
module NodeProgress {
  import opened Basics
  import opened Orchestration
  import opened OrchestrationProof
  import opened LockOrder
  import opened NodeRuntime
  import opened NodeRuntimeProof
  import SignaturePoll

  /** Steps the node takes by itself: everything but new calls, new jobs, the end of cryptography, and the turns of
      a poll that find nothing or run into the timeout. */
  predicate ByItself(n: Node, x: NodeAction) {
    match x
    case Inner(_, a) => Internal(a)
    case LoopTakes(_) => false
    case StartRpc(_, _, _) => false
    case RpcTimeout(_) => false
    case RpcPoll(i) =>
      && i < |n.rpcs| && n.rpcs[i].pc.Polling? && n.rpcs[i].pc.at < |n.gens|
      && SignaturePoll.Ended(n.gens[n.rpcs[i].pc.at].state)
    case _ => true
  }

  ghost predicate Stuck(n: Node) {
    forall x :: ByItself(n, x) ==> !NodeEnabled(n, x)
  }

  /** The orchestrator can take no step by itself, short of the end of a call. */
  ghost predicate QuietInside(o: Orch) {
    forall a :: Internal(a) && (a.DoReturn? ==> o.handler.On? && o.handler.pc.level > 0) ==> !Enabled(o, a)
  }

  /** The call is past the outer lock or has nothing to do with it, or it polls for what is not there yet. */
  predicate CallRests(n: Node, i: nat)
    requires i < |n.rpcs|
  {
    var pc := n.rpcs[i].pc;
    && !HasHandler(pc) && !pc.Released?
    && (pc.Polling? ==> pc.at < |n.gens| && !SignaturePoll.Ended(n.gens[pc.at].state))
  }

  /** A poll holds the outer lock. */
  predicate SomebodyPolls(n: Node) {
    exists i :: 0 <= i < |n.rpcs| && n.rpcs[i].pc.Polling?
  }

  /** Nobody holds the outer lock but polls, and whoever waits for it waits behind an exclusive request. */
  ghost predicate OnlyPollsRemain(n: Node) {
    && (forall g :: 0 <= g < |n.gens| ==> QuietInside(n.gens[g]))
    && (n.loop.LoopFree? || n.loop.LoopAsks?)
    && (forall i :: 0 <= i < |n.rpcs| ==> CallRests(n, i))
    && (n.queue != [] ==> n.queue[0].mode.Write? && SomebodyPolls(n))
  }

  // ---------------------------------------------------------------------------
  // Inside an orchestrator
  // ---------------------------------------------------------------------------

  lemma QuietMeansNobodyWaits(o: Orch, t: Thread)
    requires Inv(o) && QuietInside(o) && o.Has(t)
    ensures o.Wants(t).None?
  {
    if o.Wants(t).Some? {
      var a := WaiterLeadsToStep(o, t);
      assert false;
    }
  }

  lemma QuietMeansNobodyHolds(o: Orch, t: Thread, l: Lock)
    requires Inv(o) && QuietInside(o) && o.Has(t)
    ensures o.Holds(t, l).None?
  {
    QuietMeansNobodyWaits(o, t);
    if o.Holds(t, l).Some? {
      var a := HolderCanStep(o, t, l);
      assert false;
    }
  }

  lemma QuietIsReadable(o: Orch)
    requires Inv(o) && QuietInside(o)
    ensures StateReadable(o)
  {
    QuietMeansNobodyHolds(o, HandlerThread, StateLock);
    forall i | 0 <= i < |o.tasks|
      ensures o.tasks[i].Holds(StateLock).None?
    {
      QuietMeansNobodyHolds(o, TaskThread(i), StateLock);
    }
  }

  /** A call in a quiet orchestrator is over. */
  lemma QuietCallIsOver(o: Orch)
    requires Inv(o) && QuietInside(o) && o.handler.On?
    ensures o.handler.pc.Returning? && o.handler.pc.level == 0
  {
    QuietMeansNobodyWaits(o, HandlerThread);
    QuietMeansNobodyHolds(o, HandlerThread, StateLock);
  }

  // ---------------------------------------------------------------------------
  // The node
  // ---------------------------------------------------------------------------

  lemma StuckIsQuietInside(n: Node, g: nat)
    requires Stuck(n) && g < |n.gens|
    ensures QuietInside(n.gens[g])
  {
    forall a | Internal(a) && (a.DoReturn? ==> n.gens[g].handler.On? && n.gens[g].handler.pc.level > 0)
      ensures !Enabled(n.gens[g], a)
    {
      assert ByItself(n, Inner(g, a));
    }
  }

  lemma StuckLoop(n: Node)
    requires NodeInv(n) && Stuck(n)
    ensures n.loop.LoopFree? || n.loop.LoopAsks?
  {
    assert ByItself(n, LoopActs) && ByItself(n, LoopDone);
    if n.loop.LoopCalls? {
      StuckIsQuietInside(n, |n.gens| - 1);
      QuietCallIsOver(n.Current());
    }
  }

  lemma StuckCall(n: Node, i: nat)
    requires NodeInv(n) && Stuck(n) && i < |n.rpcs|
    ensures CallRests(n, i)
  {
    assert ByItself(n, RpcAsksRead(i));
    assert RpcMatches(n, i);
    var pc := n.rpcs[i].pc;
    if pc.HoldWrite? {
      NotHolding(n, i);
    } else if pc.Handling? {
      NotHandling(n, i);
    } else if pc.Polling? {
      NotEnded(n, i);
    }
  }

  lemma NotHolding(n: Node, i: nat)
    requires forall g :: 0 <= g < |n.gens| ==> Inv(n.gens[g])
    requires Stuck(n) && i < |n.rpcs|
    ensures !n.rpcs[i].pc.HoldWrite?
  {
    assert ByItself(n, RpcCheck(i));
    if n.gens != [] {
      StuckIsQuietInside(n, |n.gens| - 1);
      QuietIsReadable(n.Current());
    }
  }

  lemma NotHandling(n: Node, i: nat)
    requires forall g :: 0 <= g < |n.gens| ==> Inv(n.gens[g])
    requires Stuck(n) && i < |n.rpcs| && RpcMatches(n, i)
    ensures !n.rpcs[i].pc.Handling?
  {
    assert ByItself(n, RpcDone(i));
    if n.gens != [] && n.Current().handler.On? {
      StuckIsQuietInside(n, |n.gens| - 1);
      QuietCallIsOver(n.Current());
    }
  }

  lemma NotEnded(n: Node, i: nat)
    requires forall g :: 0 <= g < |n.gens| ==> Inv(n.gens[g])
    requires Stuck(n) && i < |n.rpcs| && n.rpcs[i].pc.Polling? && n.rpcs[i].pc.at < |n.gens|
    ensures !SignaturePoll.Ended(n.gens[n.rpcs[i].pc.at].state)
  {
    var at := n.rpcs[i].pc.at;
    StuckIsQuietInside(n, at);
    QuietIsReadable(n.gens[at]);
    assert SignaturePoll.Ended(n.gens[at].state) ==> ByItself(n, RpcPoll(i)) && NodeEnabled(n, RpcPoll(i));
  }

  lemma StuckQueue(n: Node)
    requires NodeInv(n) && Stuck(n) && n.queue != []
    ensures n.queue[0].mode.Write? && SomebodyPolls(n)
  {
    StuckLoop(n);
    assert ByItself(n, OuterGrant);
    assert AskMatches(n, n.queue[0]);
    match n.queue[0].owner {
      case EventLoop =>
      case RpcOwner(i) => assert RpcMatches(n, i);
    }
    NoWriter(n);
    assert n.readers != {};
    var o :| o in n.readers;
    assert o.RpcOwner? && n.rpcs[o.i].pc.Polling?;
  }

  lemma NoWriter(n: Node)
    requires NodeInv(n) && Stuck(n)
    ensures n.writer.None?
  {
    StuckLoop(n);
    if n.writer.Some? && n.writer.value.RpcOwner? {
      StuckCall(n, n.writer.value.i);
    }
  }

  lemma RestIsStuck(n: Node, x: NodeAction)
    requires NodeInv(n) && OnlyPollsRemain(n) && ByItself(n, x)
    ensures !NodeEnabled(n, x)
  {
    if x.OuterGrant? && n.queue != [] {
      var i :| 0 <= i < |n.rpcs| && n.rpcs[i].pc.Polling?;
      assert RpcOwner(i) in n.readers;
    } else if x.Inner? && x.g < |n.gens| {
      assert QuietInside(n.gens[x.g]);
    } else if RpcStep(x) && x.i < |n.rpcs| {
      assert CallRests(n, x.i);
    }
  }

  /** In every reachable node: it can take no step by itself if and only if every orchestrator is quiet, the event
      loop and all calls are through or wait for the outer lock, and if anybody waits, then behind an exclusive
      request that a poll holds up. */
  lemma StuckExactly(n: Node)
    requires NodeReachable(n)
    ensures Stuck(n) <==> OnlyPollsRemain(n)
  {
    NodeReachableInv(n);
    if Stuck(n) {
      StuckLoop(n);
      forall g | 0 <= g < |n.gens|
        ensures QuietInside(n.gens[g])
      {
        StuckIsQuietInside(n, g);
      }
      forall i | 0 <= i < |n.rpcs|
        ensures CallRests(n, i)
      {
        StuckCall(n, i);
      }
      if n.queue != [] {
        StuckQueue(n);
      }
    }
    if OnlyPollsRemain(n) {
      forall x | ByItself(n, x)
        ensures !NodeEnabled(n, x)
      {
        RestIsStuck(n, x);
      }
    }
  }

  /** Somebody waits for the outer lock, or has it and is not a poll, or waits for a lock of an orchestrator. */
  ghost predicate SomebodyWaits(n: Node) {
    || !n.loop.LoopFree?
    || (exists i :: 0 <= i < |n.rpcs| && Waiting(n.rpcs[i].pc))
    || (exists g, t :: 0 <= g < |n.gens| && n.gens[g].Has(t) && n.gens[g].Wants(t).Some?)
  }

  predicate Waiting(pc: RpcPc) {
    pc.WantWrite? || pc.WantRead? || pc.Released? || HasHandler(pc)
  }

  /** While anybody waits, the node can take a step by itself, or it is a poll that holds everything up, and its
      timeout is possible. */
  lemma ProgressOrTimeout(n: Node)
    requires NodeReachable(n) && SomebodyWaits(n)
    ensures (exists x :: ByItself(n, x) && NodeEnabled(n, x)) || (exists i :: NodeEnabled(n, RpcTimeout(i)))
  {
    NodeReachableInv(n);
    StuckExactly(n);
    if Stuck(n) {
      NobodyWaitsInside(n);
      WaitersMakeQueue(n);
      var i :| 0 <= i < |n.rpcs| && n.rpcs[i].pc.Polling?;
      assert NodeEnabled(n, RpcTimeout(i));
    }
  }

  lemma NobodyWaitsInside(n: Node)
    requires NodeInv(n) && OnlyPollsRemain(n)
    ensures forall g, t :: 0 <= g < |n.gens| && n.gens[g].Has(t) ==> n.gens[g].Wants(t).None?
  {
    forall g, t | 0 <= g < |n.gens| && n.gens[g].Has(t)
      ensures n.gens[g].Wants(t).None?
    {
      QuietMeansNobodyWaits(n.gens[g], t);
    }
  }

  lemma WaitersMakeQueue(n: Node)
    requires NodeInv(n) && OnlyPollsRemain(n) && SomebodyWaits(n)
    requires forall g, t :: 0 <= g < |n.gens| && n.gens[g].Has(t) ==> n.gens[g].Wants(t).None?
    ensures n.queue != []
  {
    if n.loop.LoopFree? {
      var i :| 0 <= i < |n.rpcs| && Waiting(n.rpcs[i].pc);
      assert CallRests(n, i);
      assert InQueue(n.queue, RpcOwner(i));
    } else {
      assert InQueue(n.queue, EventLoop);
    }
  }

  // ---------------------------------------------------------------------------
  // A node left to itself comes to rest
  // ---------------------------------------------------------------------------

  function GensWork(gens: seq<Orch>): nat {
    if gens == [] then 0 else GensWork(gens[..|gens| - 1]) + WorkLeft(gens[|gens| - 1])
  }

  /** Units of work left to a call; delivering one to an orchestrator makes 18 there. */
  function RpcWork(pc: RpcPc): nat {
    match pc
    case WantWrite => 24
    case HoldWrite => 23
    case Handling(_) => 4
    case Released(_) => 3
    case WantRead(_) => 2
    case Polling(_, _) => 1
    case _ => 0
  }

  function RpcsWork(rpcs: seq<Rpc>): nat {
    if rpcs == [] then 0 else RpcsWork(rpcs[..|rpcs| - 1]) + RpcWork(rpcs[|rpcs| - 1].pc)
  }

  function LoopWorkLeft(loop: LoopPc): nat {
    match loop
    case LoopFree => 0
    case LoopAsks(_) => 22
    case LoopHas(_) => 21
    case LoopCalls => 2
  }

  function NodeWork(n: Node): nat {
    GensWork(n.gens) + RpcsWork(n.rpcs) + LoopWorkLeft(n.loop)
  }

  lemma {:induction false} GensWorkUpdate(gens: seq<Orch>, g: nat, o: Orch)
    requires g < |gens|
    ensures GensWork(gens[g := o]) == GensWork(gens) - WorkLeft(gens[g]) + WorkLeft(o)
    decreases |gens|
  {
    var k := |gens| - 1;
    if g < k {
      GensWorkUpdate(gens[..k], g, o);
      assert gens[g := o][..k] == gens[..k][g := o];
    } else {
      assert gens[g := o][..k] == gens[..k];
    }
  }

  lemma {:induction false} RpcsWorkUpdate(rpcs: seq<Rpc>, i: nat, r: Rpc)
    requires i < |rpcs|
    ensures RpcsWork(rpcs[i := r]) == RpcsWork(rpcs) - RpcWork(rpcs[i].pc) + RpcWork(r.pc)
    decreases |rpcs|
  {
    var k := |rpcs| - 1;
    if i < k {
      RpcsWorkUpdate(rpcs[..k], i, r);
      assert rpcs[i := r][..k] == rpcs[..k][i := r];
    } else {
      assert rpcs[i := r][..k] == rpcs[..k];
    }
  }

  lemma DeliveryWork(o: Orch, from: PeerId, msg: CoordinationMessage)
    requires o.handler.Off?
    ensures WorkLeft(Deliver(o, from, msg)) <= WorkLeft(o) + 18
  {
  }

  lemma ReturnWork(o: Orch)
    ensures WorkLeft(o.(handler := Off)) <= WorkLeft(o)
  {
  }

  lemma InnerUsesWork(n: Node, g: nat, a: Action)
    requires NodeEnabled(n, Inner(g, a)) && Internal(a) && Inv(n.gens[g])
    ensures NodeWork(NodeApply(n, Inner(g, a))) < NodeWork(n)
  {
    StepUsesWork(n.gens[g], a);
    GensWorkUpdate(n.gens, g, Apply(n.gens[g], a));
  }

  lemma InstallUsesWork(n: Node)
    requires n.loop.LoopHas? && n.loop.job.InstallJob?
    ensures NodeWork(LoopWork(n)) < NodeWork(n)
  {
    assert LoopWork(n).gens[..|n.gens|] == n.gens;
  }

  lemma CallUsesWork(n: Node)
    requires n.loop.LoopHas? && n.loop.job.CallJob? && (n.gens != [] ==> n.Current().handler.Off?)
    ensures NodeWork(LoopWork(n)) < NodeWork(n)
  {
    if n.gens != [] {
      DeliveryWork(n.Current(), n.loop.job.from, n.loop.job.msg);
      GensWorkUpdate(n.gens, |n.gens| - 1, Deliver(n.Current(), n.loop.job.from, n.loop.job.msg));
    }
  }

  lemma RouteUsesWork(n: Node)
    requires n.loop.LoopHas? && n.loop.job.RouteJob?
    ensures NodeWork(LoopWork(n)) < NodeWork(n)
  {
    assert LoopWork(n).gens == n.gens && LoopWork(n).rpcs == n.rpcs;
  }

  lemma LoopUsesWork(n: Node)
    requires HoldersMatch(n) && HandlersMatch(n) && NodeEnabled(n, LoopActs)
    ensures NodeWork(LoopWork(n)) < NodeWork(n)
  {
    match n.loop.job
    case InstallJob(_, _) => InstallUsesWork(n);
    case CallJob(_, _) =>
      if n.gens != [] {
        DeliveredAtRest(n, LoopActs, |n.gens| - 1);
      }
      CallUsesWork(n);
    case RouteJob(_) => RouteUsesWork(n);
  }

  lemma LoopDoneUsesWork(n: Node)
    requires NodeEnabled(n, LoopDone)
    ensures NodeWork(NodeApply(n, LoopDone)) < NodeWork(n)
  {
    ReturnWork(n.Current());
    GensWorkUpdate(n.gens, |n.gens| - 1, n.Current().(handler := Off));
  }

  lemma GrantUsesOuterWork(n: Node)
    requires NodeEnabled(n, OuterGrant)
    ensures NodeWork(GrantOuter(n)) < NodeWork(n)
  {
    match n.queue[0].owner
    case EventLoop =>
    case RpcOwner(i) => RpcsWorkUpdate(n.rpcs, i, GrantOuter(n).rpcs[i]);
  }

  lemma CheckUsesWork(n: Node, i: nat)
    requires HoldersMatch(n) && HandlersMatch(n) && NodeEnabled(n, RpcCheck(i))
    ensures NodeWork(NodeApply(n, RpcCheck(i))) < NodeWork(n)
  {
    RpcsWorkUpdate(n.rpcs, i, NodeApply(n, RpcCheck(i)).rpcs[i]);
    if n.gens != [] && RpcRefusal(n.Current(), n.rpcs[i].kind).None? {
      DeliveredAtRest(n, RpcCheck(i), |n.gens| - 1);
      DeliveryWork(n.Current(), n.me, RpcMessage(n.Current(), n.rpcs[i]));
      GensWorkUpdate(n.gens, |n.gens| - 1, Deliver(n.Current(), n.me, RpcMessage(n.Current(), n.rpcs[i])));
    }
  }

  lemma DoneUsesWork(n: Node, i: nat)
    requires NodeEnabled(n, RpcDone(i))
    ensures NodeWork(NodeApply(n, RpcDone(i))) < NodeWork(n)
  {
    RpcsWorkUpdate(n.rpcs, i, NodeApply(n, RpcDone(i)).rpcs[i]);
    ReturnWork(n.Current());
    GensWorkUpdate(n.gens, |n.gens| - 1, n.Current().(handler := Off));
  }

  lemma RestUsesWork(n: Node, x: NodeAction)
    requires NodeEnabled(n, x) && ByItself(n, x) && (x.RpcAsksRead? || x.RpcPoll?)
    ensures NodeWork(NodeApply(n, x)) < NodeWork(n)
  {
    RpcsWorkUpdate(n.rpcs, x.i, NodeApply(n, x).rpcs[x.i]);
  }

  lemma OwnStepUsesWork(n: Node, x: NodeAction)
    requires NodeInv(n) && NodeEnabled(n, x) && ByItself(n, x)
    ensures NodeWork(NodeApply(n, x)) < NodeWork(n)
  {
    match x
    case Inner(g, a) => InnerUsesWork(n, g, a);
    case OuterGrant => GrantUsesOuterWork(n);
    case LoopActs => LoopUsesWork(n);
    case LoopDone => LoopDoneUsesWork(n);
    case RpcCheck(i) => CheckUsesWork(n, i);
    case RpcDone(i) => DoneUsesWork(n, i);
    case _ => RestUsesWork(n, x);
  }

  /** A run of steps the node takes by itself. */
  ghost predicate OwnRun(n: Node, xs: seq<NodeAction>)
    requires NodeRuns(n, xs)
    decreases |xs|
  {
    xs == [] || (ByItself(n, xs[0]) && OwnRun(NodeApply(n, xs[0]), xs[1..]))
  }

  /** However its threads interleave, a node left to itself stops after a bounded number of steps. */
  lemma {:induction false} OwnRunsAreBounded(n: Node, xs: seq<NodeAction>)
    requires NodeInv(n) && NodeRuns(n, xs) && OwnRun(n, xs)
    ensures |xs| + NodeWork(NodeAfter(n, xs)) <= NodeWork(n)
    decreases |xs|
  {
    if xs != [] {
      OwnStepUsesWork(n, xs[0]);
      NodeStepKeepsInv(n, xs[0]);
      OwnRunsAreBounded(NodeApply(n, xs[0]), xs[1..]);
    }
  }
}

/** One node: the event loop, any number of concurrent RPC calls, and the orchestrators they share.

    The installed orchestrator sits behind an outer lock, which serves its requests in arrival order. The event
    loop takes it exclusively for every handler call and every installation, and shared to route a protocol
    message; while it waits it does nothing else. An RPC call takes it exclusively; a signing call then gives it
    back and takes it shared to poll for its signature. Installing replaces the orchestrator; tasks of the replaced
    one live on, so all generations are kept. */
module NodeRuntime {
  import opened Basics
  import opened Orchestration
  import Routing

  datatype RpcKind =
    | AuxRpc
    | KeygenRpc(threshold: u16)
    | SigningRpc(message: Bytes, signers: seq<u16>)

  datatype RpcError =
    | NotInitialized
    | BadThreshold
    | NoSigners
    | BadSigner
    | BadState
    | LocalFailure(error: HandlerError)

  /** `g` is the generation that handled the call, `at` the one it polls. */
  datatype RpcPc =
    | WantWrite
    | HoldWrite
    | Handling(g: nat)
    | Released(g: nat)
    | WantRead(g: nat)
    | Polling(g: nat, at: nat)
    | Refused(error: RpcError)
    | Succeeded(g: nat)
    | Signed(g: nat, at: nat, signature: string)
    | Unsigned

  /** An RPC call: its parameters, its clock reading, the execution id it derives, where it is. */
  datatype Rpc = Rpc(kind: RpcKind, time: Seconds, executionId: Bytes, pc: RpcPc)

  /** What the event loop takes the outer lock for. */
  datatype LoopJob =
    | InstallJob(participants: seq<PeerId>, partyAssignments: map<PeerId, u16>)
    | CallJob(from: PeerId, msg: CoordinationMessage)
    | RouteJob(wire: Routing.Wire)
  {
    function Mode(): Mode {
      if RouteJob? then Read else Write
    }
  }

  datatype LoopPc =
    | LoopFree
    | LoopAsks(job: LoopJob)
    | LoopHas(job: LoopJob)
    | LoopCalls              // inside a handler call

  datatype Owner = EventLoop | RpcOwner(i: nat)

  datatype Ask = Ask(owner: Owner, mode: Mode)

  /** A protocol message handed to the channel of a task of generation `g`. */
  datatype Routed = Routed(g: nat, task: nat, msg: Routing.Incoming)

  datatype Node = Node(
    me: PeerId,
    gens: seq<Orch>,            // every orchestrator ever installed, the current one last
    loop: LoopPc,
    queue: seq<Ask>,            // outstanding requests for the outer lock, oldest first
    writer: Option<Owner>,      // exclusive holder of the outer lock
    readers: set<Owner>,        // those who share it
    rpcs: seq<Rpc>,
    broadcast: seq<CoordinationMessage>,  // what RPC calls have handed to the network
    routed: seq<Routed>)
  {
    function Current(): Orch
      requires gens != []
    {
      gens[|gens| - 1]
    }

    function WithCurrent(o: Orch): Node
      requires gens != []
    {
      this.(gens := gens[|gens| - 1 := o])
    }

    function WithRpc(i: nat, pc: RpcPc): Node
      requires i < |rpcs|
    {
      this.(rpcs := rpcs[i := rpcs[i].(pc := pc)])
    }

    function Asks(owner: Owner, mode: Mode): Node {
      this.(queue := queue + [Ask(owner, mode)])
    }
  }

  function NewNode(me: PeerId): Node {
    Node(me, [], LoopFree, [], None, {}, [], [], [])
  }

  /** The coordination message an RPC call broadcasts and handles locally. */
  function RpcMessage(o: Orch, r: Rpc): CoordinationMessage {
    match r.kind
    case AuxRpc => InitiateAux(r.executionId, o.participants, o.partyAssignments, r.time)
    case KeygenRpc(threshold) => InitiateKeygen(r.executionId, threshold, Cast(|o.participants|), r.time)
    case SigningRpc(message, signers) => InitiateSigning(r.executionId, message, signers, r.time)
  }

  predicate StateAllows(kind: RpcKind, state: ProtocolState) {
    match kind
    case AuxRpc => state.Idle?
    case KeygenRpc(_) => state.AuxCompleted? || state.Idle?
    case SigningRpc(_, _) => state.KeygenCompleted? || state.Idle?
  }

  /** The checks an RPC call makes before it broadcasts anything, in the order of the source. */
  function RpcRefusal(o: Orch, kind: RpcKind): Option<RpcError> {
    var total := Cast(|o.participants|);
    if kind.KeygenRpc? && (kind.threshold == 0 || kind.threshold > total) then Some(BadThreshold)
    else if kind.SigningRpc? && kind.signers == [] then Some(NoSigners)
    else if kind.SigningRpc? && exists s :: s in kind.signers && s >= total then Some(BadSigner)
    else if !StateAllows(kind, o.state) then Some(BadState)
    else None
  }

  datatype NodeAction =
    | Inner(g: nat, a: Action)
    | LoopTakes(job: LoopJob)
    | OuterGrant
    | LoopActs
    | LoopDone
    | StartRpc(kind: RpcKind, time: Seconds, executionId: Bytes)
    | RpcCheck(i: nat)
    | RpcDone(i: nat)
    | RpcAsksRead(i: nat)
    | RpcPoll(i: nat)
    | RpcTimeout(i: nat)

  predicate OuterAllows(n: Node, mode: Mode) {
    n.writer.None? && (mode.Write? ==> n.readers == {})
  }

  predicate HandlerOver(n: Node) {
    n.gens != [] && n.Current().handler.On? && n.Current().handler.pc.Returning? && n.Current().handler.pc.level == 0
  }

  /** No thread holds the state lock of `o` exclusively, so a reader gets in. */
  predicate StateReadable(o: Orch) {
    && o.handler.Holds(StateLock).None?
    && forall i :: 0 <= i < |o.tasks| ==> o.tasks[i].Holds(StateLock).None?
  }

  /** The head of the queue belongs to somebody who waits. */
  predicate HeadWaits(n: Node) {
    && n.queue != []
    && match n.queue[0].owner
       case EventLoop => n.loop.LoopAsks?
       case RpcOwner(i) =>
         i < |n.rpcs| && (n.rpcs[i].pc.WantWrite? || (n.rpcs[i].pc.WantRead? && n.gens != []))
  }

  /** The event loop drops what the node itself has published. */
  predicate FromOthers(me: PeerId, job: LoopJob) {
    match job
    case InstallJob(_, _) => true
    case CallJob(from, _) => from != me
    case RouteJob(wire) => wire.from != me
  }

  ghost predicate NodeEnabled(n: Node, x: NodeAction) {
    match x
    case Inner(g, a) =>
      g < |n.gens| && !a.DoDeliver? && Enabled(n.gens[g], a) && (a.DoReturn? ==> n.gens[g].handler.pc.level > 0)
    case LoopTakes(job) => n.loop.LoopFree? && FromOthers(n.me, job)
    case OuterGrant => HeadWaits(n) && OuterAllows(n, n.queue[0].mode)
    case LoopActs => n.loop.LoopHas?
    case LoopDone => n.loop.LoopCalls? && HandlerOver(n)
    case StartRpc(_, _, _) => true
    case RpcCheck(i) => i < |n.rpcs| && n.rpcs[i].pc.HoldWrite? && (n.gens != [] ==> StateReadable(n.Current()))
    case RpcDone(i) => i < |n.rpcs| && n.rpcs[i].pc.Handling? && HandlerOver(n)
    case RpcAsksRead(i) => i < |n.rpcs| && n.rpcs[i].pc.Released?
    case RpcPoll(i) =>
      && i < |n.rpcs| && n.rpcs[i].pc.Polling?
      && n.rpcs[i].pc.at < |n.gens| && StateReadable(n.gens[n.rpcs[i].pc.at])
    case RpcTimeout(i) => i < |n.rpcs| && n.rpcs[i].pc.Polling?
  }

  function Grantee(n: Node): Node
    requires HeadWaits(n)
  {
    var n1 := n.(queue := n.queue[1..]);
    match n.queue[0].owner
    case EventLoop => n1.(loop := LoopHas(n.loop.job))
    case RpcOwner(i) =>
      if n.rpcs[i].pc.WantWrite? then n1.WithRpc(i, HoldWrite)
      else n1.WithRpc(i, Polling(n.rpcs[i].pc.g, |n.gens| - 1))
  }

  /** The oldest request is granted. */
  function GrantOuter(n: Node): Node
    requires HeadWaits(n)
  {
    var ask := n.queue[0];
    if ask.mode.Write? then Grantee(n).(writer := Some(ask.owner))
    else Grantee(n).(readers := n.readers + {ask.owner})
  }

  /** The task whose channel the current orchestrator's sender for the protocol feeds. */
  function ChannelFor(o: Orch, protocol: Routing.Protocol): Option<nat> {
    match protocol
    case AuxProtocol => o.auxTx
    case KeygenProtocol => o.keygenTx
    case SigningProtocol => o.signingTx
  }

  /** A message is handed to the sender of its protocol; the send fails once the receiving task has ended. */
  function Route(n: Node, wire: Routing.Wire): Node {
    if n.gens == [] then n
    else
      var msg := Routing.Unwrap(n.me, n.Current().partyAssignments, wire);
      var task := ChannelFor(n.Current(), wire.protocol);
      if msg.Some? && task.Some? && task.value < |n.Current().tasks| && n.Current().tasks[task.value].pc.Running? then
        n.(routed := n.routed + [Routed(|n.gens| - 1, task.value, msg.value)])
      else n
  }

  function LoopWork(n: Node): Node
    requires n.loop.LoopHas?
  {
    match n.loop.job
    case InstallJob(participants, assignments) =>
      n.(gens := n.gens + [New(n.me, participants, assignments)], loop := LoopFree, writer := None)
    case CallJob(from, msg) =>
      if n.gens == [] then n.(loop := LoopFree, writer := None)
      else n.(loop := LoopCalls).WithCurrent(Deliver(n.Current(), from, msg))
    case RouteJob(wire) => Route(n, wire).(loop := LoopFree, readers := n.readers - {EventLoop})
  }

  ghost function NodeApply(n: Node, x: NodeAction): Node
    requires NodeEnabled(n, x)
  {
    match x
    case Inner(g, a) => n.(gens := n.gens[g := Apply(n.gens[g], a)])
    case LoopTakes(job) => n.(loop := LoopAsks(job)).Asks(EventLoop, job.Mode())
    case OuterGrant => GrantOuter(n)
    case LoopActs => LoopWork(n)
    case LoopDone => n.(loop := LoopFree, writer := None).WithCurrent(n.Current().(handler := Off))
    case StartRpc(kind, time, id) =>
      n.(rpcs := n.rpcs + [Rpc(kind, time, id, WantWrite)]).Asks(RpcOwner(|n.rpcs|), Write)
    case RpcCheck(i) =>
      if n.gens == [] then n.(writer := None).WithRpc(i, Refused(NotInitialized))
      else
        var refusal := RpcRefusal(n.Current(), n.rpcs[i].kind);
        if refusal.Some? then n.(writer := None).WithRpc(i, Refused(refusal.value))
        else
          var msg := RpcMessage(n.Current(), n.rpcs[i]);
          n.(broadcast := n.broadcast + [msg]).WithCurrent(Deliver(n.Current(), n.me, msg))
           .WithRpc(i, Handling(|n.gens| - 1))
    case RpcDone(i) =>
      var g := n.rpcs[i].pc.g;
      var result := n.Current().handler.pc.result;
      n.(writer := None).WithCurrent(n.Current().(handler := Off))
       .WithRpc(i, if result.Err? then Refused(LocalFailure(result.error))
                   else if n.rpcs[i].kind.SigningRpc? then Released(g) else Succeeded(g))
    case RpcAsksRead(i) => n.WithRpc(i, WantRead(n.rpcs[i].pc.g)).Asks(RpcOwner(i), Read)
    case RpcPoll(i) =>
      var pc := n.rpcs[i].pc;
      var state := n.gens[pc.at].state;
      if state.SigningCompleted? then
        n.(readers := n.readers - {RpcOwner(i)}).WithRpc(i, Signed(pc.g, pc.at, state.signature))
      else if state.Failed? then n.(readers := n.readers - {RpcOwner(i)}).WithRpc(i, Unsigned)
      else n
    case RpcTimeout(i) => n.(readers := n.readers - {RpcOwner(i)}).WithRpc(i, Unsigned)
  }

  ghost predicate NodeRuns(n: Node, xs: seq<NodeAction>)
    decreases |xs|
  {
    xs == [] || (NodeEnabled(n, xs[0]) && NodeRuns(NodeApply(n, xs[0]), xs[1..]))
  }

  ghost function NodeAfter(n: Node, xs: seq<NodeAction>): Node
    requires NodeRuns(n, xs)
    decreases |xs|
  {
    if xs == [] then n else NodeAfter(NodeApply(n, xs[0]), xs[1..])
  }

  ghost predicate NodeReachable(n: Node) {
    exists xs :: NodeRuns(NewNode(n.me), xs) && n == NodeAfter(NewNode(n.me), xs)
  }
}

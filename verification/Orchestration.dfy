/** The per-node protocol orchestrator as an interleaving of its handlers and spawned tasks.

    The orchestrator's three locks (`state`, `aux_info`, `key_share`) are fair reader-writer locks: requests
    are served in arrival order. What a thread holds and what it waits for follows from its program counter;
    every request draws a ticket, and a request is granted once no holder conflicts with it and no earlier
    request for the same lock is outstanding.

    A step contains at most one action another thread can see (a lock request, a grant, a release, a spawn);
    writes to a cell happen while its lock is held exclusively, so they need no step of their own. */
module Orchestration {
  import opened Basics

  type AuxInfo = nat
  datatype KeyShare = KeyShare(publicKey: string, secret: nat)

  datatype Phase = AuxPhase | KeygenPhase | SigningPhase

  datatype ProtocolState =
    | Idle
    | AuxGeneration(initiator: PeerId, executionId: Bytes)
    | AuxCompleted
    | Keygen(initiator: PeerId, executionId: Bytes, threshold: u16)
    | KeygenCompleted(publicKey: string)
    | Signing(initiator: PeerId, executionId: Bytes, message: Bytes, signers: seq<u16>)
    | SigningCompleted(signature: string)
    | Failed(phase: Phase, reason: string)

  datatype CoordinationMessage =
    | InitiateAux(executionId: Bytes, participants: seq<PeerId>, partyAssignments: map<PeerId, u16>,
                  timestamp: Seconds)
    | ReportAux(partyId: PeerId, success: bool)
    | InitiateKeygen(executionId: Bytes, threshold: u16, totalParties: u16, timestamp: Seconds)
    | ReportKeygen(partyId: PeerId, publicKey: Bytes, success: bool)
    | InitiateSigning(executionId: Bytes, message: Bytes, signers: seq<u16>, timestamp: Seconds)
    | ReportSigning(partyId: PeerId, signature: Bytes, success: bool)
    | ReportFailure(partyId: PeerId, phase: string, error: string)
  {
    predicate Initiates() {
      InitiateAux? || InitiateKeygen? || InitiateSigning?
    }
  }

  datatype HandlerError =
    | InvalidTimestamp
    | WrongState(current: ProtocolState)
    | NotAssigned
    | ThresholdZero
    | ThresholdTooLarge
    | AuxInfoMissing
    | KeyShareMissing

  // ---------------------------------------------------------------------------
  // Threads
  // ---------------------------------------------------------------------------

  datatype Lock = StateLock | AuxLock | KeyLock
  datatype Mode = Read | Write

  /** What a spawned task was given to compute. */
  datatype Job =
    | AuxJob(partyId: u16, total: u16, timestamp: u64)
    | KeygenJob(partyId: u16, total: u16, threshold: u16, timestamp: u64, auxInfo: AuxInfo)
    | SigningJob(partyId: u16, signers: seq<u16>, message: Bytes, timestamp: u64,
                 keyShare: KeyShare, auxInfo: AuxInfo)
  {
    function ThePhase(): Phase {
      match this case AuxJob(_, _, _) => AuxPhase case KeygenJob(_, _, _, _, _) => KeygenPhase
      case SigningJob(_, _, _, _, _, _) => SigningPhase
    }
  }

  /** How the cryptographic library call of a task ended. */
  datatype Outcome =
    | Pending
    | AuxOk(info: AuxInfo)
    | KeygenOk(share: KeyShare)
    | SigningOk(signature: string)
    | TaskErr(reason: string)

  datatype TaskPc =
    | Running      // inside the cryptographic protocol
    | WantAux      // aux task: waiting for aux_info (write)
    | HasAux       // aux task: aux_info held, result not stored yet
    | WantState    // waiting for state (write)
    | HasState     // state held, not written yet
    | Wrote        // state written, guard alive
    | BeforeKey    // keygen task: state released, key_share not requested yet
    | WantKey      // keygen task: waiting for key_share (write)
    | HasKey       // keygen task: key_share held, share not stored yet
    | LastGuard    // the outermost remaining guard is alive
    | Done

  /** A spawned task. `initiator` and `executionId` record which initiation spawned it. */
  datatype Task = Task(initiator: PeerId, executionId: Bytes, job: Job, outcome: Outcome,
                       pc: TaskPc, ticket: nat)
  {
    /** The locks held at each program point; the aux task keeps its aux_info guard across the state write. */
    function Holds(l: Lock): Option<Mode> {
      match l
      case StateLock => if pc.HasState? || pc.Wrote? then Some(Write) else None
      case AuxLock =>
        if pc.HasAux? || (outcome.AuxOk? && (pc.WantState? || pc.HasState? || pc.Wrote? || pc.LastGuard?))
        then Some(Write) else None
      case KeyLock => if outcome.KeygenOk? && (pc.HasKey? || pc.LastGuard?) then Some(Write) else None
    }

    function Wants(): Option<Lock> {
      match pc
      case WantAux => Some(AuxLock)
      case WantState => Some(StateLock)
      case WantKey => Some(KeyLock)
      case _ => None
    }

    function ThePhase(): Phase {
      job.ThePhase()
    }
  }

  /** A handler acquires state (write), aux_info (read) and key_share (read) in this order and only in this
      order, so what it holds is a level. */
  datatype HandlerPc =
    | Waiting(level: nat)                                // holds `level` locks, waits for the next one
    | Working(level: nat)                                // holds `level` locks
    | Returning(level: nat, result: Result<HandlerError>) // dropping its guards, innermost first

  /** `entry` records the protocol state in which the handler made its state check. */
  datatype Handler =
    | Off
    | On(from: PeerId, msg: CoordinationMessage, pc: HandlerPc, ticket: nat, entry: Option<ProtocolState>)
  {
    function Holds(l: Lock): Option<Mode> {
      if Off? then None
      else match l
        case StateLock => if pc.level > 0 then Some(Write) else None
        case AuxLock => if pc.level > 1 then Some(Read) else None
        case KeyLock => if pc.level > 2 then Some(Read) else None
    }

    function Wants(): Option<Lock> {
      if On? && pc.Waiting? then
        Some(if pc.level == 0 then StateLock else if pc.level == 1 then AuxLock else KeyLock)
      else None
    }

    function WantedMode(): Mode {
      if On? && pc.level == 0 then Write else Read
    }

    /** Past the state write, before the task is spawned. */
    predicate Committed() {
      On? && ((pc.Waiting? && pc.level > 0) || (pc.Working? && pc.level > 1))
    }
  }

  /** One read of the protocol state by `get_state` or by a turn of the signature poll. */
  datatype Poll = PollWant(ticket: nat) | PollHas | PollDone(seen: ProtocolState)

  datatype Thread = HandlerThread | TaskThread(i: nat) | PollThread(i: nat)

  datatype Orch = Orch(
    me: PeerId,
    participants: seq<PeerId>,
    partyAssignments: map<PeerId, u16>,
    state: ProtocolState,
    auxInfo: Option<AuxInfo>,
    keyShare: Option<KeyShare>,
    auxTx: Option<nat>,      // the task whose channel each sender feeds
    keygenTx: Option<nat>,
    signingTx: Option<nat>,
    handler: Handler,
    tasks: seq<Task>,        // every task ever spawned
    polls: seq<Poll>,
    tickets: nat)
  {
    predicate Has(t: Thread) {
      match t case HandlerThread => true case TaskThread(i) => i < |tasks| case PollThread(i) => i < |polls|
    }

    function Holds(t: Thread, l: Lock): Option<Mode>
      requires Has(t)
    {
      match t
      case HandlerThread => handler.Holds(l)
      case TaskThread(i) => tasks[i].Holds(l)
      case PollThread(i) => if l.StateLock? && polls[i].PollHas? then Some(Read) else None
    }

    function Wants(t: Thread): Option<Lock>
      requires Has(t)
    {
      match t
      case HandlerThread => handler.Wants()
      case TaskThread(i) => tasks[i].Wants()
      case PollThread(i) => if polls[i].PollWant? then Some(StateLock) else None
    }

    function WantedMode(t: Thread): Mode
      requires Has(t)
    {
      match t
      case HandlerThread => handler.WantedMode()
      case TaskThread(i) => Write
      case PollThread(i) => Read
    }

    function Ticket(t: Thread): nat
      requires Has(t)
    {
      match t
      case HandlerThread => if handler.On? then handler.ticket else 0
      case TaskThread(i) => tasks[i].ticket
      case PollThread(i) => if polls[i].PollWant? then polls[i].ticket else 0
    }

    /** `t` cannot be granted its request before `u` moves. */
    ghost predicate WaitsFor(t: Thread, u: Thread) {
      && t != u && Has(t) && Has(u)
      && Wants(t).Some?
      && var l := Wants(t).value;
         || (Holds(u, l).Some? && (Holds(u, l).value.Write? || WantedMode(t).Write?))
         || (Wants(u) == Some(l) && Ticket(u) < Ticket(t))
    }

    ghost predicate Grantable(t: Thread) {
      Has(t) && Wants(t).Some? && forall u :: !WaitsFor(t, u)
    }
  }

  /** `MPCOrchestrator::new`. */
  function New(me: PeerId, participants: seq<PeerId>, partyAssignments: map<PeerId, u16>): Orch {
    Orch(me, participants, partyAssignments, Idle, None, None, None, None, None, Off, [], [], 0)
  }

  // ---------------------------------------------------------------------------
  // Handler steps
  // ---------------------------------------------------------------------------

  const AUX_TOTAL_PARTIES: u16 := 3

  /** A call of `handle_coordination_message`: the report handlers return at once, an initiation with a
      timestamp before the epoch is refused before any lock is touched. */
  function Deliver(s: Orch, from: PeerId, msg: CoordinationMessage): Orch {
    if !msg.Initiates() then s.(handler := On(from, msg, Returning(0, Ok), 0, None))
    else if msg.timestamp < 0 then s.(handler := On(from, msg, Returning(0, Err(InvalidTimestamp)), 0, None))
    else s.(handler := On(from, msg, Waiting(0), s.tickets, None), tickets := s.tickets + 1)
  }

  function Refuse(s: Orch, e: HandlerError): Orch
    requires s.handler.On?
  {
    s.(handler := s.handler.(pc := Returning(s.handler.pc.level, Err(e))))
  }

  /** The handler holds one more lock than before and asks for the next. */
  function AskNext(s: Orch): Orch
    requires s.handler.On?
  {
    s.(handler := s.handler.(pc := Waiting(s.handler.pc.level), ticket := s.tickets), tickets := s.tickets + 1)
  }

  function Spawn(s: Orch, job: Job): Orch
    requires s.handler.On? && s.handler.msg.Initiates()
  {
    s.(tasks := s.tasks + [Task(s.handler.from, s.handler.msg.executionId, job, Pending, Running, 0)],
       handler := s.handler.(pc := Returning(s.handler.pc.level, Ok)))
  }

  /** The checks made under the state lock, in the order of the source. */
  function AdmissionError(s: Orch, msg: CoordinationMessage): Option<HandlerError>
    requires msg.Initiates()
  {
    match msg
    case InitiateAux(_, _, assignments, _) =>
      if !s.state.Idle? then Some(WrongState(s.state))
      else if s.me !in assignments then Some(NotAssigned)
      else None
    case InitiateKeygen(_, threshold, total, _) =>
      if !s.state.AuxCompleted? && !s.state.Idle? then Some(WrongState(s.state))
      else if threshold == 0 then Some(ThresholdZero)
      else if threshold > total then Some(ThresholdTooLarge)
      else if s.me !in s.partyAssignments then Some(NotAssigned)
      else None
    case InitiateSigning(_, _, _, _) =>
      if !s.state.KeygenCompleted? && !s.state.Idle? then Some(WrongState(s.state))
      else if s.me !in s.partyAssignments then Some(NotAssigned)
      else None
  }

  /** What a running handler has established by the time it holds its current locks. */
  predicate HandlerReady(s: Orch) {
    && s.handler.On? && s.handler.pc.Working? && s.handler.msg.Initiates() && s.handler.msg.timestamp >= 0
    && (s.handler.pc.level > 1 ==> !s.handler.msg.InitiateAux? && s.me in s.partyAssignments)
    && (s.handler.pc.level > 2 ==> s.handler.msg.InitiateSigning? && s.auxInfo.Some?)
  }

  /** The handler's code between two lock requests. */
  function HandlerWork(s: Orch): Orch
    requires HandlerReady(s)
  {
    var h := s.handler;
    if h.pc.level <= 1 then
      var error := AdmissionError(s, h.msg);
      var s1 := s.(handler := h.(entry := Some(s.state)));
      if error.Some? then Refuse(s1, error.value)
      else
        match h.msg
        case InitiateAux(id, _, assignments, time) =>
          Spawn(s1.(state := AuxGeneration(h.from, id), auxTx := Some(|s.tasks|)),
                AuxJob(assignments[s.me], AUX_TOTAL_PARTIES, time))
        case InitiateKeygen(id, threshold, _, _) =>
          AskNext(s1.(state := Keygen(h.from, id, threshold)))
        case InitiateSigning(id, message, signers, _) =>
          var s2 := s1.(state := Signing(h.from, id, message, signers));
          if s.partyAssignments[s.me] in signers then AskNext(s2)
          else s2.(handler := s2.handler.(pc := Returning(h.pc.level, Ok)))
    else if h.pc.level == 2 then
      if s.auxInfo.None? then Refuse(s, AuxInfoMissing)
      else if h.msg.InitiateKeygen? then
        Spawn(s.(keygenTx := Some(|s.tasks|)),
              KeygenJob(s.partyAssignments[s.me], h.msg.totalParties, h.msg.threshold, h.msg.timestamp,
                        s.auxInfo.value))
      else AskNext(s)
    else if s.keyShare.None? then Refuse(s, KeyShareMissing)
    else
      Spawn(s.(signingTx := Some(|s.tasks|)),
            SigningJob(s.partyAssignments[s.me], h.msg.signers, h.msg.message, h.msg.timestamp,
                       s.keyShare.value, s.auxInfo.value))
  }

  /** Dropping one guard, or leaving the handler once none is left. */
  function HandlerReturn(s: Orch): Orch
    requires s.handler.On? && s.handler.pc.Returning?
  {
    var pc := s.handler.pc;
    if pc.level == 0 then s.(handler := Off)
    else s.(handler := s.handler.(pc := Returning(pc.level - 1, pc.result)))
  }

  // ---------------------------------------------------------------------------
  // Task steps
  // ---------------------------------------------------------------------------

  predicate Fits(job: Job, outcome: Outcome) {
    match outcome
    case Pending => false
    case AuxOk(_) => job.AuxJob?
    case KeygenOk(_) => job.KeygenJob?
    case SigningOk(_) => job.SigningJob?
    case TaskErr(_) => true
  }

  /** The library call of task `i` ends and the task asks for its first lock. */
  function Finish(s: Orch, i: nat, outcome: Outcome): Orch
    requires i < |s.tasks|
  {
    var pc := if outcome.AuxOk? then WantAux else WantState;
    s.(tasks := s.tasks[i := s.tasks[i].(outcome := outcome, pc := pc, ticket := s.tickets)],
       tickets := s.tickets + 1)
  }

  /** The state a finished task writes, whatever the state is at that moment. */
  function FinalState(t: Task): ProtocolState {
    match t.outcome
    case AuxOk(_) => AuxCompleted
    case KeygenOk(share) => KeygenCompleted(share.publicKey)
    case SigningOk(signature) => SigningCompleted(signature)
    case TaskErr(reason) => Failed(t.ThePhase(), reason)
    case Pending => Idle
  }

  predicate TaskCanStep(t: Task) {
    t.pc.HasAux? || t.pc.HasState? || t.pc.Wrote? || t.pc.BeforeKey? || t.pc.HasKey? || t.pc.LastGuard?
  }

  function WithTask(s: Orch, i: nat, t: Task): Orch
    requires i < |s.tasks|
  {
    s.(tasks := s.tasks[i := t])
  }

  /** The code of task `i` between two lock operations. */
  function TaskStep(s: Orch, i: nat): Orch
    requires i < |s.tasks| && TaskCanStep(s.tasks[i])
  {
    var t := s.tasks[i];
    match t.pc
    case HasAux =>
      WithTask(s.(auxInfo := if t.outcome.AuxOk? then Some(t.outcome.info) else s.auxInfo,
                  tickets := s.tickets + 1),
               i, t.(pc := WantState, ticket := s.tickets))
    case HasState => WithTask(s.(state := FinalState(t)), i, t.(pc := Wrote))
    case Wrote =>
      WithTask(s, i, t.(pc := if t.outcome.AuxOk? then LastGuard else if t.outcome.KeygenOk? then BeforeKey else Done))
    case BeforeKey => WithTask(s.(tickets := s.tickets + 1), i, t.(pc := WantKey, ticket := s.tickets))
    case HasKey =>
      WithTask(s.(keyShare := if t.outcome.KeygenOk? then Some(t.outcome.share) else s.keyShare),
               i, t.(pc := LastGuard))
    case _ => WithTask(s, i, t.(pc := Done))
  }

  // ---------------------------------------------------------------------------
  // Grants, polls, runs
  // ---------------------------------------------------------------------------

  function Grant(s: Orch, t: Thread): Orch
    requires s.Has(t) && s.Wants(t).Some?
  {
    match t
    case HandlerThread => s.(handler := s.handler.(pc := Working(s.handler.pc.level + 1)))
    case TaskThread(i) =>
      var pc := match s.tasks[i].pc case WantAux => HasAux case WantKey => HasKey case _ => HasState;
      WithTask(s, i, s.tasks[i].(pc := pc))
    case PollThread(i) => s.(polls := s.polls[i := PollHas])
  }

  function StartPoll(s: Orch): Orch {
    s.(polls := s.polls + [PollWant(s.tickets)], tickets := s.tickets + 1)
  }

  datatype Action =
    | DoDeliver(from: PeerId, msg: CoordinationMessage)
    | DoHandler
    | DoReturn
    | DoFinish(i: nat, outcome: Outcome)
    | DoTask(i: nat)
    | DoGrant(t: Thread)
    | DoStartPoll
    | DoPoll(i: nat)

  ghost predicate Enabled(s: Orch, a: Action) {
    match a
    case DoDeliver(_, _) => s.handler.Off?
    case DoHandler => HandlerReady(s)
    case DoReturn => s.handler.On? && s.handler.pc.Returning?
    case DoFinish(i, outcome) => i < |s.tasks| && s.tasks[i].pc.Running? && Fits(s.tasks[i].job, outcome)
    case DoTask(i) => i < |s.tasks| && TaskCanStep(s.tasks[i])
    case DoGrant(t) => s.Grantable(t)
    case DoStartPoll => true
    case DoPoll(i) => i < |s.polls| && s.polls[i].PollHas?
  }

  ghost function Apply(s: Orch, a: Action): Orch
    requires Enabled(s, a)
  {
    match a
    case DoDeliver(from, msg) => Deliver(s, from, msg)
    case DoHandler => HandlerWork(s)
    case DoReturn => HandlerReturn(s)
    case DoFinish(i, outcome) => Finish(s, i, outcome)
    case DoTask(i) => TaskStep(s, i)
    case DoGrant(t) => Grant(s, t)
    case DoStartPoll => StartPoll(s)
    case DoPoll(i) => s.(polls := s.polls[i := PollDone(s.state)])
  }

  ghost predicate IsNew(s: Orch) {
    s == New(s.me, s.participants, s.partyAssignments)
  }

  /** `acts` can be performed one after the other from `s`. */
  ghost predicate Runs(s: Orch, acts: seq<Action>)
    decreases |acts|
  {
    acts == [] || (Enabled(s, acts[0]) && Runs(Apply(s, acts[0]), acts[1..]))
  }

  ghost function After(s: Orch, acts: seq<Action>): Orch
    requires Runs(s, acts)
    decreases |acts|
  {
    if acts == [] then s else After(Apply(s, acts[0]), acts[1..])
  }

  ghost predicate Reachable(s: Orch) {
    exists s0, acts :: IsNew(s0) && Runs(s0, acts) && s == After(s0, acts)
  }
}

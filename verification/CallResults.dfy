/** When a call of the message handler ends with which result: for whole calls under every interleaving, and for
    undisturbed ones. */
module CallResults {
  import opened Basics
  import opened Orchestration
  import opened OrchestrationProof
  import opened OrchestrationTheorems
  import opened Uninterrupted

  // ---------------------------------------------------------------------------
  // What a request needs
  // ---------------------------------------------------------------------------

  predicate StateAllowed(msg: CoordinationMessage, x: ProtocolState)
    requires msg.Initiates()
  {
    match msg
    case InitiateAux(_, _, _, _) => x.Idle?
    case InitiateKeygen(_, _, _, _) => x.AuxCompleted? || x.Idle?
    case InitiateSigning(_, _, _, _) => x.KeygenCompleted? || x.Idle?
  }

  /** The map that counts, the message's for aux and the orchestrator's own otherwise, names the node. */
  predicate Named(me: PeerId, own: map<PeerId, u16>, msg: CoordinationMessage)
    requires msg.Initiates()
  {
    if msg.InitiateAux? then me in msg.partyAssignments else me in own
  }

  predicate ThresholdFits(msg: CoordinationMessage) {
    msg.InitiateKeygen? ==> 0 < msg.threshold <= msg.totalParties
  }

  predicate Admissible(me: PeerId, own: map<PeerId, u16>, msg: CoordinationMessage, x: ProtocolState)
    requires msg.Initiates()
  {
    StateAllowed(msg, x) && ThresholdFits(msg) && Named(me, own, msg)
  }

  /** The request goes on to look for stored results at this node. */
  predicate LooksUp(me: PeerId, own: map<PeerId, u16>, msg: CoordinationMessage) {
    msg.InitiateKeygen? || (msg.InitiateSigning? && me in own && own[me] in msg.signers)
  }

  /** The state an admitted request leaves behind. */
  predicate Entered(from: PeerId, msg: CoordinationMessage, x: ProtocolState)
    requires msg.Initiates()
  {
    match msg
    case InitiateAux(id, _, _, _) => x == AuxGeneration(from, id)
    case InitiateKeygen(id, threshold, _, _) => x == Keygen(from, id, threshold)
    case InitiateSigning(id, message, signers, _) => x == Signing(from, id, message, signers)
  }

  // ---------------------------------------------------------------------------
  // The checks under the state lock
  // ---------------------------------------------------------------------------

  /** The handler's first piece of code, run in state `s.state`: each refusal exactly under its condition, in the
      order state, threshold, assignment; the state is written exactly if nothing is refused. */
  lemma AdmissionDecided(s: Orch)
    requires Reachable(s) && s.handler.On? && s.handler.pc == Working(1)
    ensures HandlerReady(s)
    ensures var m, h := s.handler.msg, HandlerWork(s).handler;
            && h.On? && h.from == s.handler.from && h.msg == m && h.entry == Some(s.state)
            && (h.pc == Returning(1, Err(WrongState(s.state))) <==> !StateAllowed(m, s.state))
            && (h.pc == Returning(1, Err(ThresholdZero)) <==>
                  StateAllowed(m, s.state) && m.InitiateKeygen? && m.threshold == 0)
            && (h.pc == Returning(1, Err(ThresholdTooLarge)) <==>
                  StateAllowed(m, s.state) && m.InitiateKeygen? && 0 < m.threshold && m.threshold > m.totalParties)
            && (h.pc == Returning(1, Err(NotAssigned)) <==>
                  StateAllowed(m, s.state) && ThresholdFits(m) && !Named(s.me, s.partyAssignments, m))
    ensures var m, h := s.handler.msg, HandlerWork(s).handler;
            if Admissible(s.me, s.partyAssignments, m, s.state) then
              && Entered(s.handler.from, m, HandlerWork(s).state)
              && h.pc == (if LooksUp(s.me, s.partyAssignments, m) then Waiting(1) else Returning(1, Ok))
            else HandlerWork(s).state == s.state && h.pc.Returning? && h.pc.result.Err?
  {
    ReachableInv(s);
  }

  // ---------------------------------------------------------------------------
  // Whole calls, however they interleave
  // ---------------------------------------------------------------------------

  /** What the result says about the request and the state `x` that the call found. */
  predicate Explains(me: PeerId, own: map<PeerId, u16>, msg: CoordinationMessage, x: ProtocolState,
                     r: Result<HandlerError>)
    requires msg.Initiates()
  {
    && (r.Err? && r.error.WrongState? <==> !StateAllowed(msg, x))
    && (r.Err? && r.error.WrongState? ==> r.error.current == x)
    && (r == Err(ThresholdZero) <==> StateAllowed(msg, x) && msg.InitiateKeygen? && msg.threshold == 0)
    && (r == Err(ThresholdTooLarge) <==>
          StateAllowed(msg, x) && msg.InitiateKeygen? && 0 < msg.threshold && msg.threshold > msg.totalParties)
    && (r == Err(NotAssigned) <==> StateAllowed(msg, x) && ThresholdFits(msg) && !Named(me, own, msg))
    && (r == Err(AuxInfoMissing) <==> Admissible(me, own, msg, x) && LooksUp(me, own, msg) && x.Idle?)
    && (r == Err(KeyShareMissing) ==>
          Admissible(me, own, msg, x) && msg.InitiateSigning? && LooksUp(me, own, msg) && x.KeygenCompleted?)
    && (r == Ok <==>
          && Admissible(me, own, msg, x) && r != Err(KeyShareMissing)
          && (LooksUp(me, own, msg) ==> !x.Idle?))
  }

  predicate Explained(s: Orch) {
    var h := s.handler;
    && (h.On? && h.pc.Returning? && !h.msg.Initiates() ==> h.pc.result == Ok)
    && (h.On? && h.pc.Returning? && h.msg.Initiates() ==>
          if h.msg.timestamp < 0 then h.pc.result == Err(InvalidTimestamp)
          else
            && h.pc.result != Err(InvalidTimestamp) && h.entry.Some?
            && Explains(s.me, s.partyAssignments, h.msg, h.entry.value, h.pc.result))
    && (h.On? && h.Committed() ==>
          && h.msg.Initiates() && h.msg.timestamp >= 0 && h.entry.Some?
          && Admissible(s.me, s.partyAssignments, h.msg, h.entry.value) && LooksUp(s.me, s.partyAssignments, h.msg))
  }

  lemma AdmissionExplained(s: Orch)
    requires HandlerReady(s) && s.handler.pc.level <= 1
    ensures Explained(HandlerWork(s))
  {
  }

  lemma LookupExplained(s: Orch)
    requires Inv(s) && HandlerReady(s) && s.handler.pc.level > 1 && Explained(s)
    ensures Explained(HandlerWork(s))
  {
    FailedLookups(s);
  }

  lemma StepExplained(s: Orch, a: Action)
    requires Inv(s) && Enabled(s, a) && Explained(s)
    ensures Explained(Apply(s, a))
  {
    match a
    case DoHandler =>
      if s.handler.pc.level <= 1 {
        AdmissionExplained(s);
      } else {
        LookupExplained(s);
      }
    case _ => OthersExplained(s, a);
  }

  lemma OthersExplained(s: Orch, a: Action)
    requires Enabled(s, a) && !a.DoHandler? && Explained(s)
    ensures Explained(Apply(s, a))
  {
    if a.DoTask? {
      assert TaskStep(s, a.i).handler == s.handler;
    }
  }

  lemma {:induction false} RunExplained(s: Orch, acts: seq<Action>)
    requires Inv(s) && Runs(s, acts) && Explained(s)
    ensures Explained(After(s, acts))
    decreases |acts|
  {
    if acts != [] {
      StepExplained(s, acts[0]);
      StepKeepsInv(s, acts[0]);
      RunExplained(Apply(s, acts[0]), acts[1..]);
    }
  }

  /** A call that is on its way back, in any interleaving: a report is always fine; a request with a time before the
      epoch, and no other, is refused for it; otherwise the result is explained by the state the call found. */
  lemma ResultExplained(s: Orch)
    requires Reachable(s) && s.handler.On? && s.handler.pc.Returning?
    ensures var m, r := s.handler.msg, s.handler.pc.result;
            && (!m.Initiates() ==> r == Ok)
            && (m.Initiates() ==> (r == Err(InvalidTimestamp) <==> m.timestamp < 0))
            && (m.Initiates() && m.timestamp >= 0 ==>
                  s.handler.entry.Some? && Explains(s.me, s.partyAssignments, m, s.handler.entry.value, r))
  {
    var s0, acts :| IsNew(s0) && Runs(s0, acts) && s == After(s0, acts);
    InvNew(s0);
    RunExplained(s0, acts);
  }

  // ---------------------------------------------------------------------------
  // Undisturbed calls
  // ---------------------------------------------------------------------------

  /** An undisturbed call in any orchestrator: its result, and the state and number of tasks it leaves behind. */
  lemma UndisturbedDecided(s: Orch, from: PeerId, msg: CoordinationMessage)
    ensures var (s', r) := Handle(s, from, msg);
            if !msg.Initiates() then r == Ok && s' == s
            else if msg.timestamp < 0 then r == Err(InvalidTimestamp) && s' == s
            else
              var admitted := Admissible(s.me, s.partyAssignments, msg, s.state);
              var looks := LooksUp(s.me, s.partyAssignments, msg);
              && (r == Err(WrongState(s.state)) <==> !StateAllowed(msg, s.state))
              && (r == Err(ThresholdZero) <==>
                    StateAllowed(msg, s.state) && msg.InitiateKeygen? && msg.threshold == 0)
              && (r == Err(ThresholdTooLarge) <==>
                    && StateAllowed(msg, s.state) && msg.InitiateKeygen? && 0 < msg.threshold
                    && msg.threshold > msg.totalParties)
              && (r == Err(NotAssigned) <==>
                    StateAllowed(msg, s.state) && ThresholdFits(msg) && !Named(s.me, s.partyAssignments, msg))
              && (r == Err(AuxInfoMissing) <==> admitted && looks && s.auxInfo.None?)
              && (r == Err(KeyShareMissing) <==>
                    admitted && looks && s.auxInfo.Some? && msg.InitiateSigning? && s.keyShare.None?)
              && (r == Ok <==>
                    && admitted && (looks ==> s.auxInfo.Some?)
                    && (looks && msg.InitiateSigning? ==> s.keyShare.Some?))
              && (if admitted then Entered(from, msg, s'.state) else s'.state == s.state)
              && |s'.tasks| == |s.tasks| + (if r == Ok && (msg.InitiateAux? || looks) then 1 else 0)
  {
  }
}

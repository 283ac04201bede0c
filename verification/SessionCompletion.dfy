/** Exactly which sessions can still be brought to their end, and what blocks the others for good. */
module SessionCompletion {
  import opened Basics
  import opened Assignment
  import opened Handshake
  import opened HandshakeProof
  import opened HandshakeTheorems

  /** The coordinator has got the acceptance of `q`. */
  predicate Answered(s: System, id: SessionId, q: PeerId)
    requires id in s.requests && q in s.requests[id]
  {
    id.coordinator in s.nodes && AcceptanceOf(s, q, id) in s.nodes[id.coordinator].seen
  }

  /** Somebody besides the coordinator is assigned, and all assigned nodes are there and have either not taken the
      request yet or published their acceptance. */
  predicate Completable(s: System, id: SessionId) {
    && id in s.requests && |s.requests[id]| >= 2
    && forall q :: q in s.requests[id] ==>
         q in s.nodes && (q == id.coordinator || !Silent(s, id, q))
  }

  /** The node has taken the request without publishing its acceptance. */
  predicate Silent(s: System, id: SessionId, q: PeerId)
    requires id in s.requests && q in s.requests[id] && q in s.nodes
  {
    RequestOf(s, id) in s.nodes[q].seen && AcceptanceOf(s, q, id) !in s.nodes[q].published
  }

  /** Besides, no event loop of the session is busy. */
  predicate Open(s: System, id: SessionId) {
    Completable(s, id) && forall q :: q in s.requests[id] ==> LoopFree(s, q)
  }

  function Unanswered(s: System, id: SessionId): set<PeerId>
    requires id in s.requests
  {
    set q | q in s.requests[id] && q != id.coordinator && !Answered(s, id, q)
  }

  lemma EmitTaken(s: System, p: PeerId, e: Envelope) returns (s': System)
    requires Reachable(s) && LoopFree(s, p) && e in s.nodes[p].published
    ensures Enabled(s, Emit(p, e)) && s' == Apply(s, Emit(p, e)) && Reachable(s')
    ensures s'.nodes == s.nodes && s'.requests == s.requests && e in s'.sent
  {
    s' := Apply(s, Emit(p, e));
    ReachableStep(s, Emit(p, e));
  }

  /** Node `q` takes the request and publishes its acceptance. */
  lemma RequestTaken(s: System, id: SessionId, q: PeerId) returns (s': System)
    requires Reachable(s) && id in s.requests && q in s.requests[id] && q != id.coordinator
    requires LoopFree(s, q) && RequestOf(s, id) in s.sent && RequestOf(s, id) !in s.nodes[q].seen
    ensures Enabled(s, Deliver(q, RequestOf(s, id), true)) && s' == Apply(s, Deliver(q, RequestOf(s, id), true))
    ensures Reachable(s') && s'.requests == s.requests && OnlyChanges(s, s', q)
    ensures s'.nodes[q].local.installing.Some? && AcceptanceOf(s, q, id) in s'.nodes[q].published
  {
    var e := RequestOf(s, id);
    DeliveryNeverBlocked(s, q, e, true);
    s' := Apply(s, Deliver(q, e, true));
    ReachableStep(s, Deliver(q, e, true));
    ReachableInv(s);
    InvOfNode(s, q);
    RequestAnswered(s, id, q);
  }

  lemma RequestAnswered(s: System, id: SessionId, q: PeerId)
    requires id in s.requests && q in s.requests[id] && q != id.coordinator
    requires q in s.nodes && s.nodes[q].local.id == q && SessionsSound(s.nodes[q].local)
    ensures var s' := DoDeliver(s, q, RequestOf(s, id), true);
            && s'.requests == s.requests && OnlyChanges(s, s', q)
            && s'.nodes[q].local.installing.Some? && AcceptanceOf(s, q, id) in s'.nodes[q].published
  {
  }

  lemma LockTaken(s: System, p: PeerId) returns (s': System)
    requires Reachable(s) && p in s.nodes && s.nodes[p].local.installing.Some?
    ensures Enabled(s, TakeLock(p)) && s' == Apply(s, TakeLock(p)) && Reachable(s')
    ensures s'.requests == s.requests && OnlyChanges(s, s', p) && LoopFree(s', p)
    ensures s'.nodes[p].published == s.nodes[p].published && s'.nodes[p].seen == s.nodes[p].seen
  {
    s' := Apply(s, TakeLock(p));
    ReachableStep(s, TakeLock(p));
  }

  lemma AcceptanceTaken(s: System, id: SessionId, q: PeerId) returns (s': System)
    requires Reachable(s) && id in s.requests && q in s.requests[id] && q != id.coordinator
    requires LoopFree(s, id.coordinator) && AcceptanceOf(s, q, id) in s.sent && !Answered(s, id, q)
    ensures var a := Deliver(id.coordinator, AcceptanceOf(s, q, id), true); Enabled(s, a) && s' == Apply(s, a)
    ensures Reachable(s') && s'.requests == s.requests && OnlyChanges(s, s', id.coordinator)
    ensures s'.nodes[id.coordinator].seen == s.nodes[id.coordinator].seen + {AcceptanceOf(s, q, id)}
  {
    var e := AcceptanceOf(s, q, id);
    DeliveryNeverBlocked(s, id.coordinator, e, true);
    s' := Apply(s, Deliver(id.coordinator, e, true));
    ReachableStep(s, Deliver(id.coordinator, e, true));
    AcceptanceEffect(s, Deliver(id.coordinator, e, true));
  }

  /** The round trip to one peer: what it does to the system. */
  ghost predicate Asked(s: System, s': System, id: SessionId, q: PeerId) {
    && Reachable(s') && s'.requests == s.requests && id in s.requests && q in s.requests[id]
    && s'.nodes.Keys == s.nodes.Keys && id.coordinator in s.nodes
    && (forall p :: p in s.nodes && p != q && p != id.coordinator ==> s'.nodes[p] == s.nodes[p])
    && LoopFree(s', q) && LoopFree(s', id.coordinator)
    && s'.nodes[id.coordinator].seen == s.nodes[id.coordinator].seen + {AcceptanceOf(s, q, id)}
    && AcceptanceOf(s, q, id) in s'.nodes[q].published
  }

  lemma AskPeer(s: System, id: SessionId, q: PeerId) returns (steps: seq<Step>)
    requires Reachable(s) && Open(s, id) && q in Unanswered(s, id)
    ensures Runs(s, steps) && Asked(s, After(s, steps), id, q)
  {
    CoordinatorAssigned(s, id);
    var half, s3 := Ask(s, id, q);
    var s4 := EmitTaken(s3, q, AcceptanceOf(s, q, id));
    var s5 := AcceptanceTaken(s4, id, q);
    steps := Answer(s, half, s3, s4, s5, id, q);
  }

  /** The first half: if that has not happened yet, the request goes out, and the peer accepts it and installs. */
  lemma Ask(s: System, id: SessionId, q: PeerId) returns (steps: seq<Step>, s3: System)
    requires Reachable(s) && Open(s, id) && q in Unanswered(s, id)
    ensures Runs(s, steps) && After(s, steps) == s3 && Reachable(s3) && s3.requests == s.requests
    ensures OnlyChanges(s, s3, q) && LoopFree(s3, q) && AcceptanceOf(s, q, id) in s3.nodes[q].published
  {
    CoordinatorAssigned(s, id);
    if AcceptanceOf(s, q, id) in s.nodes[q].published {
      assert Runs(s, []) && s.nodes == s.nodes[q := s.nodes[q]];
      steps, s3 := [], s;
    } else {
      steps, s3 := AskAfresh(s, id, q);
    }
  }

  lemma AskAfresh(s: System, id: SessionId, q: PeerId) returns (steps: seq<Step>, s3: System)
    requires Reachable(s) && id in s.requests && q in s.requests[id] && q != id.coordinator
    requires LoopFree(s, id.coordinator) && LoopFree(s, q) && RequestOf(s, id) !in s.nodes[q].seen
    ensures Runs(s, steps) && After(s, steps) == s3 && Reachable(s3) && s3.requests == s.requests
    ensures OnlyChanges(s, s3, q) && LoopFree(s3, q) && AcceptanceOf(s, q, id) in s3.nodes[q].published
  {
    var a, b := Emit(id.coordinator, RequestOf(s, id)), Deliver(q, RequestOf(s, id), true);
    var s2 := RequestAccepted(s, id, q);
    s3 := LockTaken(s2, q);
    RunExtends(s, [a] + [b], TakeLock(q));
    steps := [a] + [b] + [TakeLock(q)];
  }

  lemma RequestAccepted(s: System, id: SessionId, q: PeerId) returns (s2: System)
    requires Reachable(s) && id in s.requests && q in s.requests[id] && q != id.coordinator
    requires LoopFree(s, id.coordinator) && LoopFree(s, q) && RequestOf(s, id) !in s.nodes[q].seen
    ensures var a, b := Emit(id.coordinator, RequestOf(s, id)), Deliver(q, RequestOf(s, id), true);
            Runs(s, [a] + [b]) && After(s, [a] + [b]) == s2
    ensures Reachable(s2) && s2.requests == s.requests && OnlyChanges(s, s2, q)
    ensures s2.nodes[q].local.installing.Some? && AcceptanceOf(s, q, id) in s2.nodes[q].published
  {
    var s1 := RequestSent(s, id);
    s2 := RequestTaken(s1, id, q);
    RunExtends(s, [Emit(id.coordinator, RequestOf(s, id))], Deliver(q, RequestOf(s, id), true));
  }

  lemma RequestSent(s: System, id: SessionId) returns (s': System)
    requires Reachable(s) && id in s.requests && LoopFree(s, id.coordinator)
    ensures var a := Emit(id.coordinator, RequestOf(s, id)); Runs(s, [a]) && After(s, [a]) == s'
    ensures Reachable(s') && s'.nodes == s.nodes && s'.requests == s.requests && RequestOf(s, id) in s'.sent
  {
    RequestPublished(s, id);
    s' := EmitTaken(s, id.coordinator, RequestOf(s, id));
    OneStep(s, Emit(id.coordinator, RequestOf(s, id)));
  }

  lemma RequestPublished(s: System, id: SessionId)
    requires Reachable(s) && id in s.requests
    ensures id.coordinator in s.nodes && RequestOf(s, id) in s.nodes[id.coordinator].published
  {
    ReachableInv(s);
    assert RequestSound(s, id);
  }

  lemma CoordinatorAssigned(s: System, id: SessionId)
    requires Reachable(s) && id in s.requests
    ensures id.coordinator in s.requests[id]
  {
    ReachableInv(s);
    assert RequestSound(s, id);
  }

  lemma OneStep(s: System, a: Step)
    requires Enabled(s, a)
    ensures Runs(s, [a]) && After(s, [a]) == Apply(s, a)
  {
    assert Runs(Apply(s, a), []) && [a][1..] == [];
  }

  /** The second half of the round trip, after which the coordinator installs if that was the last answer. */
  lemma Answer(s: System, half: seq<Step>, s3: System, s4: System, s5: System, id: SessionId, q: PeerId)
    returns (steps: seq<Step>)
    requires Runs(s, half) && After(s, half) == s3 && id in s3.requests && q in s3.requests[id]
    requires var a := Emit(q, AcceptanceOf(s3, q, id)); Enabled(s3, a) && s4 == Apply(s3, a)
    requires var b := Deliver(id.coordinator, AcceptanceOf(s3, q, id), true); Enabled(s4, b) && s5 == Apply(s4, b)
    requires s3.requests == s.requests && s3.nodes.Keys == s.nodes.Keys && q != id.coordinator
    requires s4.nodes == s3.nodes && OnlyChanges(s4, s5, id.coordinator) && s5.requests == s.requests
    requires forall p :: p in s.nodes && p != q ==> s3.nodes[p] == s.nodes[p]
    requires Reachable(s5) && LoopFree(s3, q) && AcceptanceOf(s, q, id) in s3.nodes[q].published
    requires s5.nodes[id.coordinator].seen == s4.nodes[id.coordinator].seen + {AcceptanceOf(s, q, id)}
    ensures Runs(s, steps) && Asked(s, After(s, steps), id, q)
  {
    var a, b := Emit(q, AcceptanceOf(s3, q, id)), Deliver(id.coordinator, AcceptanceOf(s3, q, id), true);
    RunExtends(s, half, a);
    RunExtends(s, half + [a], b);
    steps := half + [a] + [b];
    if s5.nodes[id.coordinator].local.installing.Some? {
      var s6 := LockTaken(s5, id.coordinator);
      RunExtends(s, steps, TakeLock(id.coordinator));
      steps := steps + [TakeLock(id.coordinator)];
    }
  }

  lemma AskedStaysOpen(s: System, s': System, id: SessionId, q: PeerId)
    requires Open(s, id) && q in Unanswered(s, id) && Asked(s, s', id, q)
    ensures Open(s', id) && Unanswered(s', id) == Unanswered(s, id) - {q}
  {
    forall p | p in s.requests[id]
      ensures Answered(s', id, p) <==> Answered(s, id, p) || p == q
    {
      assert AcceptanceOf(s', p, id) == AcceptanceOf(s, p, id);
    }
  }

  lemma {:induction false} RunsConcatenate(s: System, first: seq<Step>, second: seq<Step>)
    requires Runs(s, first) && Runs(After(s, first), second)
    ensures Runs(s, first + second) && After(s, first + second) == After(After(s, first), second)
    decreases |first|
  {
    if first == [] {
      assert first + second == second;
    } else {
      assert (first + second)[1..] == first[1..] + second;
      RunsConcatenate(Apply(s, first[0]), first[1..], second);
    }
  }

  predicate EverybodyInstalled(s: System, id: SessionId) {
    && id in s.requests && forall q :: q in s.requests[id] ==> q in s.nodes && HasInstalled(s.nodes[q].local, id)
  }

  lemma AllAnsweredMeansInstalled(s: System, id: SessionId)
    requires Reachable(s) && Open(s, id) && Unanswered(s, id) == {}
    ensures EverybodyInstalled(s, id)
  {
    CoordinatorAssigned(s, id);
    forall q | q in s.requests[id] && q != id.coordinator
      ensures Answered(s, id, q)
    {
      assert q !in Unanswered(s, id);
    }
    CoordinatorInstallsExactlyWhenAllAccepted(s, id);
    forall q | q in s.requests[id]
      ensures HasInstalled(s.nodes[q].local, id)
    {
      if q != id.coordinator {
        ReadinessBarrier(s, id, q);
      }
    }
  }

  lemma {:induction false} OpenCompletes(s: System, id: SessionId) returns (steps: seq<Step>)
    requires Reachable(s) && Open(s, id)
    ensures Runs(s, steps) && EverybodyInstalled(After(s, steps), id)
    decreases |Unanswered(s, id)|
  {
    if Unanswered(s, id) == {} {
      AllAnsweredMeansInstalled(s, id);
      steps := [];
    } else {
      var q :| q in Unanswered(s, id);
      var round := AskPeer(s, id, q);
      CoordinatorAssigned(s, id);
      AskedStaysOpen(s, After(s, round), id, q);
      var rest := OpenCompletes(After(s, round), id);
      RunsConcatenate(s, round, rest);
      steps := round + rest;
    }
  }

  function Busy(s: System, id: SessionId): set<PeerId>
    requires id in s.requests
  {
    set q | q in s.requests[id] && q in s.nodes && s.nodes[q].local.installing.Some?
  }

  lemma TakenStaysCompletable(s: System, s': System, id: SessionId, q: PeerId)
    requires Completable(s, id) && q in Busy(s, id) && s'.requests == s.requests && OnlyChanges(s, s', q)
    requires LoopFree(s', q) && s'.nodes[q].seen == s.nodes[q].seen && s'.nodes[q].published == s.nodes[q].published
    ensures Completable(s', id) && Busy(s', id) == Busy(s, id) - {q}
  {
    forall p | p in s.requests[id] && p != id.coordinator
      ensures p in s'.nodes && !Silent(s', id, p)
    {
      assert !Silent(s, id, p);
    }
  }

  /** Busy event loops get their lock first. */
  lemma {:induction false} CompletableCompletes(s: System, id: SessionId) returns (steps: seq<Step>)
    requires Reachable(s) && Completable(s, id)
    ensures Runs(s, steps) && EverybodyInstalled(After(s, steps), id)
    decreases |Busy(s, id)|
  {
    if Busy(s, id) == {} {
      forall q | q in s.requests[id]
        ensures LoopFree(s, q)
      {
        assert q !in Busy(s, id);
      }
      steps := OpenCompletes(s, id);
    } else {
      var q :| q in Busy(s, id);
      var s' := LockTaken(s, q);
      TakenStaysCompletable(s, s', id, q);
      var rest := CompletableCompletes(s', id);
      OneStep(s, TakeLock(q));
      RunsConcatenate(s, [TakeLock(q)], rest);
      steps := [TakeLock(q)] + rest;
    }
  }

  // ---------------------------------------------------------------------------
  // What blocks a session
  // ---------------------------------------------------------------------------

  /** A node takes a request once, so one that has not accepted it then never will. */
  lemma SilentStep(s: System, a: Step, id: SessionId, q: PeerId)
    requires Reachable(s) && Enabled(s, a) && id in s.requests && q in s.requests[id] && q in s.nodes
    requires Silent(s, id, q)
    ensures var s' := Apply(s, a);
            id in s'.requests && q in s'.requests[id] && q in s'.nodes && Silent(s', id, q)
  {
    StepGrows(s, a);
    if a.p == q && a.Deliver? {
      TakenKeepsSilent(s, a, id);
    }
  }

  lemma StepGrows(s: System, a: Step)
    requires Reachable(s) && Enabled(s, a)
    ensures Grows(s, Apply(s, a), a.p)
  {
    ReachableInv(s);
    StepIsSound(s, a);
  }

  lemma TakenKeepsSilent(s: System, a: Step, id: SessionId)
    requires Reachable(s) && Enabled(s, a) && a.Deliver? && id in s.requests && a.p in s.requests[id]
    requires Silent(s, id, a.p)
    ensures AcceptanceOf(s, a.p, id) !in Apply(s, a).nodes[a.p].published
  {
    OwnNodeAndMessage(s, a);
    if a.e.msg.Request? {
      RequestEffect(s, a);
      OtherRequest(s, Apply(s, a), a.p, a.e, id);
    } else {
      AcceptanceEffect(s, a);
    }
  }

  lemma OwnNodeAndMessage(s: System, a: Step)
    requires Reachable(s) && Enabled(s, a) && a.Deliver?
    ensures s.nodes[a.p].local.id == a.p && EnvelopeSound(s, a.e)
  {
    ReachableInv(s);
    SentIsSound(s, a.e);
    InvOfNode(s, a.p);
  }

  lemma OtherRequest(s: System, s': System, p: PeerId, e: Envelope, id: SessionId)
    requires RequestDone(s, s', p, e) && e !in s.nodes[p].seen && EnvelopeSound(s, e)
    requires id in s.requests && p in s.requests[id] && Silent(s, id, p)
    ensures AcceptanceOf(s, p, id) !in s'.nodes[p].published
  {
    assert e.msg.session != id;
  }

  lemma BlockedStep(s: System, a: Step, id: SessionId)
    requires Reachable(s) && Enabled(s, a) && id in s.requests && !Completable(s, id)
    ensures id in Apply(s, a).requests && !Completable(Apply(s, a), id)
  {
    StepGrows(s, a);
    if |s.requests[id]| >= 2 && forall q :: q in s.requests[id] ==> q in s.nodes {
      var q :| q in s.requests[id] && q != id.coordinator && Silent(s, id, q);
      SilentStep(s, a, id, q);
    }
  }

  lemma BlockedIsIncomplete(s: System, id: SessionId)
    requires Reachable(s) && id in s.requests && EverybodyInstalled(s, id)
    ensures Completable(s, id)
  {
    CoordinatorAssigned(s, id);
    CoordinatorInstallsExactlyWhenAllAccepted(s, id);
    forall q | q in s.requests[id] && q != id.coordinator
      ensures !Silent(s, id, q)
    {
      ReadinessBarrier(s, id, q);
    }
  }

  lemma {:induction false} BlockedForGood(s: System, id: SessionId, steps: seq<Step>)
    requires Reachable(s) && id in s.requests && !Completable(s, id) && Runs(s, steps)
    ensures !EverybodyInstalled(After(s, steps), id)
    decreases |steps|
  {
    if steps == [] {
      if EverybodyInstalled(s, id) {
        BlockedIsIncomplete(s, id);
      }
    } else {
      BlockedStep(s, steps[0], id);
      ReachableStep(s, steps[0]);
      BlockedForGood(Apply(s, steps[0]), id, steps[1..]);
    }
  }

  /** From any reachable state, whatever else has happened in the system: a session can still be run to the point
      where every one of its nodes has installed its orchestrator if and only if it has at least two nodes, all
      of them are there, and none has taken the request without publishing its acceptance. */
  lemma SessionCompletesExactly(s: System, id: SessionId)
    requires Reachable(s) && id in s.requests
    ensures (exists steps :: CompletedBy(s, steps, id)) <==> Completable(s, id)
  {
    if Completable(s, id) {
      var steps := CompletableCompletes(s, id);
      assert CompletedBy(s, steps, id);
    } else {
      forall steps | Runs(s, steps)
        ensures !CompletedBy(s, steps, id)
      {
        BlockedForGood(s, id, steps);
      }
    }
  }

  ghost predicate CompletedBy(s: System, steps: seq<Step>, id: SessionId) {
    Runs(s, steps) && EverybodyInstalled(After(s, steps), id)
  }

  /** One failed publish of an acceptance blocks the session for good: the handler only logs the failure. */
  lemma FailedPublishBlocks(s: System, id: SessionId, q: PeerId, steps: seq<Step>)
    requires Reachable(s) && id in s.requests && q in s.requests[id] && q != id.coordinator
    requires Enabled(s, Deliver(q, RequestOf(s, id), false))
    requires Runs(Apply(s, Deliver(q, RequestOf(s, id), false)), steps)
    ensures !EverybodyInstalled(After(Apply(s, Deliver(q, RequestOf(s, id), false)), steps), id)
  {
    var a := Deliver(q, RequestOf(s, id), false);
    ReachableStep(s, a);
    NotAcceptedBefore(s, id, q);
    FailureIsSilent(s, id, q);
    BlockedForGood(Apply(s, a), id, steps);
  }

  lemma NotAcceptedBefore(s: System, id: SessionId, q: PeerId)
    requires Reachable(s) && id in s.requests && q in s.requests[id] && q != id.coordinator && q in s.nodes
    requires RequestOf(s, id) !in s.nodes[q].seen
    ensures AcceptanceOf(s, q, id) !in s.nodes[q].published && s.nodes[q].local.id == q
  {
    ReachableInv(s);
    InvOfNode(s, q);
    NotJoinedUnheard(s, id, q);
  }

  lemma NotJoinedUnheard(s: System, id: SessionId, q: PeerId)
    requires id in s.requests && q != id.coordinator && InstallsSound(s, q) && RequestOf(s, id) !in s.nodes[q].seen
    ensures !Joined(s.nodes[q].local, id)
  {
    var n := s.nodes[q].local;
    forall i | 0 <= i < |n.installed|
      ensures n.installed[i].session != id
    {
      assert InstallSound(s, q, n.installed[i]);
    }
  }

  lemma FailureIsSilent(s: System, id: SessionId, q: PeerId)
    requires id in s.requests && q in s.requests[id] && q != id.coordinator && q in s.nodes
    requires s.nodes[q].local.id == q && AcceptanceOf(s, q, id) !in s.nodes[q].published
    requires SessionsSound(s.nodes[q].local)
    ensures var s' := DoDeliver(s, q, RequestOf(s, id), false);
            id in s'.requests && q in s'.requests[id] && q in s'.nodes && Silent(s', id, q)
  {
  }

  /** A session is open right after the call that creates it, if the node has peers, and they are there and free;
      and then any of them can take the request and fail to publish. */
  lemma FreshSessionIsOpen(s: System, p: PeerId, now: nat, q: PeerId) returns (s': System)
    requires Reachable(s) && Enabled(s, Assign(p, now)) && LoopFree(s, p)
    requires forall k :: k in s.nodes[p].local.peers ==> LoopFree(s, k)
    requires q in s.nodes[p].local.peers
    ensures Reachable(DoAssign(s, p, now)) && Open(DoAssign(s, p, now), SessionId(p, now))
    ensures var id := SessionId(p, now);
            && Reachable(s') && id in s'.requests && q in s'.requests[id] && q != p
            && Enabled(s', Deliver(q, RequestOf(s', id), false))
  {
    var id, s1 := SessionId(p, now), DoAssign(s, p, now);
    ReachableStep(s, Assign(p, now));
    FreshIsUnseen(s, p, now);
    CoordinatorAssigned(s1, id);
    s' := EmitTaken(s1, p, RequestOf(s1, id));
    DeliveryNeverBlocked(s', q, RequestOf(s', id), false);
  }

  lemma FreshIsUnseen(s: System, p: PeerId, now: nat)
    requires Reachable(s) && Enabled(s, Assign(p, now))
    requires forall k :: k in s.nodes[p].local.peers ==> k in s.nodes
    ensures var id, s' := SessionId(p, now), DoAssign(s, p, now);
            && id in s'.requests && |s'.requests[id]| == |s.nodes[p].local.peers| + 1
            && RequestOf(s', id) in s'.nodes[p].published && p !in s.nodes[p].local.peers
            && (forall q :: q in s'.requests[id] <==> q == p || q in s.nodes[p].local.peers)
            && forall q :: q in s'.nodes ==> RequestOf(s', id) !in s'.nodes[q].seen
  {
    var id, s' := SessionId(p, now), DoAssign(s, p, now);
    OwnPeers(s, p, now);
    IndicesDense(p, s.nodes[p].local.peers);
    forall q | q in s'.nodes
      ensures RequestOf(s', id) !in s'.nodes[q].seen
    {
      UnseenYet(s, id, q);
    }
  }

  lemma OwnPeers(s: System, p: PeerId, now: nat)
    requires Reachable(s) && Enabled(s, Assign(p, now))
    ensures s.nodes[p].local.id == p && PeersSound(s.nodes[p].local) && SessionId(p, now) !in s.requests
  {
    ReachableInv(s);
    InvOfNode(s, p);
    NewSessionId(s, p, now);
  }

  lemma UnseenYet(s: System, id: SessionId, q: PeerId)
    requires Reachable(s) && q in s.nodes && id !in s.requests
    ensures forall e :: e in s.nodes[q].seen ==> e.msg.session != id
  {
    ReachableInv(s);
    NothingSeenYet(s, q, id);
  }
}

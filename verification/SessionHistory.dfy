/** What a node has stored about each session, said in terms of the events it has seen, whatever events and messages
    arrive. */
module SessionHistory {
  import opened Basics
  import opened Roster
  import opened Assignment
  import opened PeerHistory

  predicate AcceptanceFor(e: Event, session: SessionId, p: PeerId) {
    e.Incoming? && e.msg.Acceptance? && e.msg.session == session && e.msg.peer == p
  }

  predicate RequestFor(e: Event, id: PeerId, session: SessionId) {
    e.Incoming? && e.msg.Request? && e.msg.session == session && id in e.msg.assignments
  }

  /** The event that the stored session comes from: the latest assign call that made it, and if there was none, the
      first request for it that names the node. */
  function StoredAt(id: PeerId, events: seq<Event>, session: SessionId): Option<nat> {
    if events == [] then None
    else
      var k := |events| - 1;
      var before := StoredAt(id, events[..k], session);
      if events[k].AssignCall? && session == SessionId(id, events[k].now) then Some(k)
      else if before.None? && RequestFor(events[k], id, session) then Some(k)
      else before
  }

  /** An acceptance of `p` for the session has arrived after event `k`. */
  predicate AcceptedSince(events: seq<Event>, k: nat, session: SessionId, p: PeerId) {
    exists j :: k < j < |events| && AcceptanceFor(events[j], session, p)
  }

  lemma AcceptedLast(events: seq<Event>, k: nat, session: SessionId, p: PeerId)
    requires events != [] && k < |events| - 1
    ensures AcceptedSince(events, k, session, p) <==>
              || AcceptedSince(events[..|events| - 1], k, session, p)
              || AcceptanceFor(events[|events| - 1], session, p)
  {
    var front := events[..|events| - 1];
    if AcceptedSince(front, k, session, p) {
      var j :| k < j < |front| && AcceptanceFor(front[j], session, p);
      assert AcceptanceFor(events[j], session, p);
    }
    if AcceptedSince(events, k, session, p) {
      var j :| k < j < |events| && AcceptanceFor(events[j], session, p);
      assert j < |front| ==> AcceptanceFor(front[j], session, p);
    }
  }

  /** What the event stores: a call's numbering of the peers listed then, or the request as it came. */
  ghost predicate MadeBy(info: SessionInfo, id: PeerId, events: seq<Event>, k: nat)
    requires k < |events|
  {
    match events[k]
    case AssignCall(now) =>
      info.coordinator == id && info.assignments == Indices(id, AfterEvents(NewLocal(id), events[..k]).peers)
    case Incoming(Request(coordinator, assignments, _), _) =>
      info.coordinator == coordinator && info.assignments == assignments
    case _ => false
  }

  lemma MadeByLonger(info: SessionInfo, id: PeerId, events: seq<Event>, k: nat)
    requires events != [] && k < |events| - 1
    ensures MadeBy(info, id, events[..|events| - 1], k) == MadeBy(info, id, events, k)
  {
    assert events[..|events| - 1][..k] == events[..k];
  }

  ghost predicate RecordIs(info: SessionInfo, id: PeerId, events: seq<Event>, session: SessionId, k: nat)
    requires k < |events|
  {
    && info.session == session && MadeBy(info, id, events, k) && info.totalNodes == |info.assignments|
    && forall p :: p in info.acceptances <==> AcceptedSince(events, k, session, p)
  }

  /** One event: it stores the session anew, or adds the acceptance it brings, or leaves it. */
  lemma StepRecord(n: Local, e: Event, session: SessionId)
    requires SessionsSound(n)
    ensures var n' := OnEvent(n, e);
            if e.AssignCall? && session == SessionId(n.id, e.now) then
              session in n'.sessions && n'.sessions[session] == NewSession(session, n.id, Indices(n.id, n.peers))
            else if session !in n.sessions && RequestFor(e, n.id, session) then
              && session in n'.sessions
              && n'.sessions[session] == NewSession(session, e.msg.coordinator, e.msg.assignments)
            else
              && (session in n'.sessions <==> session in n.sessions)
              && (session in n.sessions ==>
                    && n'.sessions[session] ==
                         n.sessions[session].(acceptances := n'.sessions[session].acceptances)
                    && forall p :: p in n'.sessions[session].acceptances <==>
                                     p in n.sessions[session].acceptances || AcceptanceFor(e, session, p))
  {
  }

  lemma RecordMade(info: SessionInfo, id: PeerId, events: seq<Event>, session: SessionId)
    requires events != [] && MadeBy(info, id, events, |events| - 1)
    requires info.session == session && info.totalNodes == |info.assignments| && info.acceptances == map[]
    ensures RecordIs(info, id, events, session, |events| - 1)
  {
  }

  lemma RecordGrows(before: SessionInfo, info: SessionInfo, id: PeerId, events: seq<Event>, session: SessionId, k: nat)
    requires events != [] && k < |events| - 1 && RecordIs(before, id, events[..|events| - 1], session, k)
    requires info == before.(acceptances := info.acceptances)
    requires forall p :: p in info.acceptances <==>
                           p in before.acceptances || AcceptanceFor(events[|events| - 1], session, p)
    ensures RecordIs(info, id, events, session, k)
  {
    MadeByLonger(before, id, events, k);
    forall p
      ensures p in info.acceptances <==> AcceptedSince(events, k, session, p)
    {
      AcceptedLast(events, k, session, p);
    }
  }

  /** The stored session is exactly what its event stored, and the acceptances recorded for it are exactly those that
      have arrived since. */
  lemma {:induction false} RecordExactly(id: PeerId, events: seq<Event>, session: SessionId)
    ensures var n, k := AfterEvents(NewLocal(id), events), StoredAt(id, events, session);
            && (session in n.sessions <==> k.Some?)
            && (k.Some? ==> k.value < |events| && RecordIs(n.sessions[session], id, events, session, k.value))
    decreases |events|
  {
    if events != [] {
      var last := |events| - 1;
      var front, e := events[..last], events[last];
      assert events == front + [e];
      AfterLast(NewLocal(id), front, e);
      RecordExactly(id, front, session);
      var n, n' := AfterEvents(NewLocal(id), front), AfterEvents(NewLocal(id), events);
      StepRecord(n, e, session);
      var k := StoredAt(id, events, session);
      if k == Some(last) {
        RecordMade(n'.sessions[session], id, events, session);
      } else if k.Some? {
        RecordGrows(n.sessions[session], n'.sessions[session], id, events, session, k.value);
      }
    }
  }
}

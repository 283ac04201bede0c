/** What a node's peer list, numbering, counter and current session are, said in terms of the events it has seen,
    whatever events and messages arrive. */
module PeerHistory {
  import opened Basics
  import opened Roster
  import opened Assignment

  // ---------------------------------------------------------------------------
  // The order of the list
  // ---------------------------------------------------------------------------

  /** `a` is listed before `b`. */
  predicate Before(peers: seq<PeerId>, a: PeerId, b: PeerId) {
    exists i, j :: 0 <= i < j < |peers| && peers[i] == a && peers[j] == b
  }

  lemma BeforeFirst(x: PeerId, rest: seq<PeerId>, a: PeerId, b: PeerId)
    ensures Before([x] + rest, a, b) <==> (x == a && b in rest) || Before(rest, a, b)
  {
    var all := [x] + rest;
    assert forall k :: 0 <= k < |rest| ==> all[k + 1] == rest[k];
    if x == a && b in rest {
      var j :| 0 <= j < |rest| && rest[j] == b;
      assert all[0] == a && all[j + 1] == b;
    } else if Before(rest, a, b) {
      var i, j :| 0 <= i < j < |rest| && rest[i] == a && rest[j] == b;
      assert all[i + 1] == a && all[j + 1] == b;
    }
    if Before(all, a, b) {
      var i, j :| 0 <= i < j < |all| && all[i] == a && all[j] == b;
      assert rest[j - 1] == b;
      if i > 0 {
        assert rest[i - 1] == a;
      }
    }
  }

  lemma BeforeLast(peers: seq<PeerId>, x: PeerId, a: PeerId, b: PeerId)
    ensures Before(peers + [x], a, b) <==> Before(peers, a, b) || (a in peers && b == x)
  {
    var all := peers + [x];
    assert forall k :: 0 <= k < |peers| ==> all[k] == peers[k];
    if a in peers && b == x {
      var i :| 0 <= i < |peers| && peers[i] == a;
      assert all[i] == a && all[|peers|] == b;
    } else if Before(peers, a, b) {
      var i, j :| 0 <= i < j < |peers| && peers[i] == a && peers[j] == b;
      assert all[i] == a && all[j] == b;
    }
  }

  /** A close removes the peer and leaves the others in their order. */
  lemma {:induction false} CloseKeepsOrder(peers: seq<PeerId>, q: PeerId, a: PeerId, b: PeerId)
    requires a != q && b != q
    ensures Before(Without(peers, q), a, b) <==> Before(peers, a, b)
    ensures a in Without(peers, q) <==> a in peers
  {
    if peers != [] {
      CloseKeepsOrder(peers[1..], q, a, b);
      CloseKeepsOrder(peers[1..], q, b, a);
      assert peers == [peers[0]] + peers[1..];
      BeforeFirst(peers[0], peers[1..], a, b);
      BeforeFirst(peers[0], Without(peers[1..], q), a, b);
    }
  }

  /** A close of a peer that is not listed leaves the list as it is. */
  lemma {:induction false} CloseOfUnlisted(peers: seq<PeerId>, q: PeerId)
    requires q !in peers
    ensures Without(peers, q) == peers
  {
    if peers != [] {
      CloseOfUnlisted(peers[1..], q);
    }
  }

  lemma CloseKeepsAll(peers: seq<PeerId>, q: PeerId)
    requires NoDuplicates(peers)
    ensures var left := Without(peers, q);
            && (forall p :: p in left <==> p in peers && p != q)
            && (forall a, b :: a != q && b != q ==> (Before(left, a, b) <==> Before(peers, a, b)))
            && (q !in peers ==> left == peers)
  {
    WithoutSound(peers, q);
    forall a, b | a != q && b != q
      ensures Before(Without(peers, q), a, b) <==> Before(peers, a, b)
    {
      CloseKeepsOrder(peers, q, a, b);
    }
    if q !in peers {
      CloseOfUnlisted(peers, q);
    }
  }

  // ---------------------------------------------------------------------------
  // Over all events
  // ---------------------------------------------------------------------------

  lemma {:induction false} AfterLast(n: Local, events: seq<Event>, e: Event)
    requires SessionsSound(n) && PeersSound(n)
    ensures AfterEvents(n, events + [e]) == OnEvent(AfterEvents(n, events), e)
    decreases |events|
  {
    EventKeepsSound(n, (events + [e])[0]);
    if events == [] {
      assert (events + [e])[1..] == [] && events + [e] == [e];
    } else {
      assert (events + [e])[1..] == events[1..] + [e];
      AfterLast(OnEvent(n, events[0]), events[1..], e);
    }
  }

  /** When `p` was last identified anew: not identified already, or its connection closed since. */
  function JoinedAt(id: PeerId, events: seq<Event>, p: PeerId): Option<nat> {
    if events == [] then None
    else
      var k := |events| - 1;
      var before := JoinedAt(id, events[..k], p);
      match events[k]
      case Identify(q) => if q == p && p != id && before.None? then Some(k) else before
      case Closed(q) => if q == p then None else before
      case _ => before
  }

  lemma {:induction false} JoinedBound(id: PeerId, events: seq<Event>, p: PeerId)
    ensures JoinedAt(id, events, p).Some? ==> JoinedAt(id, events, p).value < |events|
  {
    if events != [] {
      JoinedBound(id, events[..|events| - 1], p);
    }
  }

  /** Exactly those peers are listed that have been identified and not closed since. */
  lemma {:induction false} ListedExactly(id: PeerId, events: seq<Event>, p: PeerId)
    ensures p in AfterEvents(NewLocal(id), events).peers <==> JoinedAt(id, events, p).Some?
    decreases |events|
  {
    if events != [] {
      var k := |events| - 1;
      assert events == events[..k] + [events[k]];
      AfterLast(NewLocal(id), events[..k], events[k]);
      ListedExactly(id, events[..k], p);
      var n := AfterEvents(NewLocal(id), events[..k]);
      if events[k].Closed? {
        WithoutSound(n.peers, events[k].peer);
      }
    }
  }

  /** The list is in the order in which the peers on it have joined. */
  lemma {:induction false} ListInOrder(id: PeerId, events: seq<Event>, a: PeerId, b: PeerId)
    requires JoinedAt(id, events, a).Some? && JoinedAt(id, events, b).Some?
    ensures Before(AfterEvents(NewLocal(id), events).peers, a, b) <==>
              JoinedAt(id, events, a).value < JoinedAt(id, events, b).value
    decreases |events|
  {
    var k := |events| - 1;
    var front, e := events[..k], events[k];
    assert events == front + [e];
    AfterLast(NewLocal(id), front, e);
    ListedExactly(id, front, a);
    ListedExactly(id, front, b);
    JoinedBound(id, front, a);
    JoinedBound(id, front, b);
    var n := AfterEvents(NewLocal(id), front);
    if JoinedAt(id, front, a).Some? && JoinedAt(id, front, b).Some? {
      ListInOrder(id, front, a, b);
    }
    if e.Closed? {
      CloseKeepsOrder(n.peers, e.peer, a, b);
    } else if e.Identify? && e.peer != id && e.peer !in n.peers {
      BeforeLast(n.peers, e.peer, a, b);
      NotBeforeUnlisted(n.peers, a, b);
    }
  }

  lemma NotBeforeUnlisted(peers: seq<PeerId>, a: PeerId, b: PeerId)
    ensures Before(peers, a, b) ==> a in peers && b in peers
  {
  }

  /** An assign call numbers the peers in the order in which they have joined. */
  lemma NumberedInOrder(id: PeerId, events: seq<Event>, now: nat, a: PeerId, b: PeerId)
    requires JoinedAt(id, events, a).Some? && JoinedAt(id, events, b).Some?
    ensures var m := OnAssign(AfterEvents(NewLocal(id), events), now).1;
            && m.Request? && m.session == SessionId(id, now) && m.coordinator == id
            && a in m.assignments && b in m.assignments
            && (m.assignments[a] < m.assignments[b] <==>
                  JoinedAt(id, events, a).value < JoinedAt(id, events, b).value)
  {
    var n := AfterEvents(NewLocal(id), events);
    ListedExactly(id, events, a);
    ListedExactly(id, events, b);
    ListInOrder(id, events, a, b);
    var i :| 0 <= i < |n.peers| && n.peers[i] == a;
    var j :| 0 <= j < |n.peers| && n.peers[j] == b;
    IndicesUpToValues(id, n.peers, |n.peers|, i);
    IndicesUpToValues(id, n.peers, |n.peers|, j);
    PlacesAreOrder(n.peers, i, j);
  }

  lemma PlacesAreOrder(peers: seq<PeerId>, i: nat, j: nat)
    requires NoDuplicates(peers) && i < |peers| && j < |peers|
    ensures Before(peers, peers[i], peers[j]) <==> i < j
  {
  }

  // ---------------------------------------------------------------------------
  // The counter
  // ---------------------------------------------------------------------------

  lemma {:induction false} ExactToTheEnd(n: Local, events: seq<Event>)
    requires SessionsSound(n) && PeersSound(n) && CounterExact(n, events)
    ensures AfterEvents(n, events).peerCount == |AfterEvents(n, events).peers|
    decreases |events|
  {
    if events != [] {
      EventKeepsSound(n, events[0]);
      ExactToTheEnd(OnEvent(n, events[0]), events[1..]);
    }
  }

  /** As long as no close event strays, there are sufficient peers exactly if that many are listed. */
  lemma SufficientExactly(id: PeerId, events: seq<Event>, target: nat)
    requires NeverStrays(NewLocal(id), events)
    ensures HaveSufficientPeers(AfterEvents(NewLocal(id), events), target) <==>
              |AfterEvents(NewLocal(id), events).peers| >= target
  {
    CounterExactIffNoStray(NewLocal(id), events);
    ExactToTheEnd(NewLocal(id), events);
  }

  // ---------------------------------------------------------------------------
  // The current session
  // ---------------------------------------------------------------------------

  /** The session of the latest assign call or request that names the node. */
  function LatestSession(id: PeerId, events: seq<Event>): Option<SessionId> {
    if events == [] then None
    else
      var k := |events| - 1;
      match events[k]
      case AssignCall(now) => Some(SessionId(id, now))
      case Incoming(m, _) =>
        if m.Request? && id in m.assignments then Some(m.session) else LatestSession(id, events[..k])
      case _ => LatestSession(id, events[..k])
  }

  /** The current session is the latest one, whether its acceptance could be published or not. */
  lemma {:induction false} CurrentIsLatest(id: PeerId, events: seq<Event>)
    ensures AfterEvents(NewLocal(id), events).current == LatestSession(id, events)
    decreases |events|
  {
    if events != [] {
      var k := |events| - 1;
      assert events == events[..k] + [events[k]];
      AfterLast(NewLocal(id), events[..k], events[k]);
      CurrentIsLatest(id, events[..k]);
    }
  }
}

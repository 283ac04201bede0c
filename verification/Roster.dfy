/** From an assignment (peer to index) to what an orchestrator is created with: the map of 16-bit party indices
    and the sorted list of participants. */
module Roster {
  import opened Basics

  predicate Ascending(s: seq<PeerId>) {
    forall i, j :: 0 <= i < j < |s| ==> s[i] < s[j]
  }

  function Elements(s: seq<PeerId>): set<PeerId> {
    set p | p in s
  }

  /** `Vec::sort`. */
  function Insert(p: PeerId, s: seq<PeerId>): (r: seq<PeerId>)
    ensures Elements(r) == Elements(s) + {p} && |r| == |s| + 1
  {
    if s == [] || p <= s[0] then
      assert Elements([p] + s) == Elements(s) + {p};
      [p] + s
    else
      assert Elements(s) == {s[0]} + Elements(s[1..]);
      assert Elements([s[0]] + Insert(p, s[1..])) == {s[0]} + Elements(Insert(p, s[1..]));
      [s[0]] + Insert(p, s[1..])
  }

  function Sort(s: seq<PeerId>): (r: seq<PeerId>)
    ensures Elements(r) == Elements(s) && |r| == |s|
  {
    if s == [] then []
    else
      assert Elements(s) == {s[0]} + Elements(s[1..]);
      Insert(s[0], Sort(s[1..]))
  }

  lemma {:induction false} InsertAscends(p: PeerId, s: seq<PeerId>)
    requires Ascending(s) && p !in s
    ensures Ascending(Insert(p, s))
  {
    if s != [] && p > s[0] {
      InsertAscends(p, s[1..]);
      var r := Insert(p, s[1..]);
      forall q | q in r
        ensures s[0] < q
      {
        assert q in Elements(r) && q in Elements(s[1..]) + {p};
        assert q != p ==> q in s[1..];
      }
      AscendingFrom(s[0], r);
    }
  }

  lemma AscendingFrom(p: PeerId, s: seq<PeerId>)
    requires Ascending(s) && forall q :: q in s ==> p < q
    ensures Ascending([p] + s)
  {
    var r := [p] + s;
    forall i, j | 0 <= i < j < |r|
      ensures r[i] < r[j]
    {
      assert r[j] == s[j - 1] && s[j - 1] in s;
      if i > 0 {
        assert r[i] == s[i - 1] && s[i - 1] < s[j - 1];
      }
    }
  }

  lemma {:induction false} SortAscends(s: seq<PeerId>)
    requires forall i, j :: 0 <= i < j < |s| ==> s[i] != s[j]
    ensures Ascending(Sort(s))
  {
    if s != [] {
      SortAscends(s[1..]);
      assert s[0] !in s[1..];
      assert s[0] !in Elements(s[1..]);
      InsertAscends(s[0], Sort(s[1..]));
    }
  }

  /** A set has only one ascending enumeration. */
  lemma {:induction false} AscendingUnique(s: seq<PeerId>, t: seq<PeerId>)
    requires Ascending(s) && Ascending(t) && Elements(s) == Elements(t)
    ensures s == t
  {
    NonEmptyElements(s);
    NonEmptyElements(t);
    if s != [] {
      assert s[0] in Elements(t);
      assert t[0] in Elements(s);
      assert s[0] == t[0];
      forall q
        ensures q in Elements(s[1..]) <==> q in Elements(t[1..])
      {
        assert q in Elements(s[1..]) <==> q in Elements(s) && q != s[0] by { TailElements(s, q); }
        assert q in Elements(t[1..]) <==> q in Elements(t) && q != t[0] by { TailElements(t, q); }
      }
      AscendingUnique(s[1..], t[1..]);
    }
  }

  lemma NonEmptyElements(s: seq<PeerId>)
    ensures s != [] <==> Elements(s) != {}
  {
    if s != [] {
      assert s[0] in Elements(s);
    }
  }

  lemma TailElements(s: seq<PeerId>, q: PeerId)
    requires Ascending(s) && s != []
    ensures q in Elements(s[1..]) <==> q in Elements(s) && q != s[0]
  {
    assert s == [s[0]] + s[1..];
  }

  /** What `MPCOrchestrator::new` receives. */
  datatype Party = Party(assignments: map<PeerId, u16>, participants: seq<PeerId>)

  /** `party` is the roster of `assignments`: every index cast to 16 bits, every peer listed once, ascending. */
  predicate IsRoster(party: Party, assignments: map<PeerId, nat>) {
    && party.assignments == (map p | p in assignments :: Cast(assignments[p]))
    && Ascending(party.participants) && Elements(party.participants) == assignments.Keys
  }

  /** Two nodes that build their roster from the same assignment hold the same map and the same sequence. */
  lemma RosterUnique(a: Party, b: Party, assignments: map<PeerId, nat>)
    requires IsRoster(a, assignments) && IsRoster(b, assignments)
    ensures a == b
  {
    AscendingUnique(a.participants, b.participants);
  }

  lemma {:induction false} AscendingLength(s: seq<PeerId>)
    requires Ascending(s)
    ensures |Elements(s)| == |s|
  {
    if s != [] {
      AscendingLength(s[1..]);
      assert Elements(s) == {s[0]} + Elements(s[1..]);
    }
  }

  lemma RosterSize(party: Party, assignments: map<PeerId, nat>)
    requires IsRoster(party, assignments)
    ensures |party.participants| == |assignments|
  {
    AscendingLength(party.participants);
    assert |assignments.Keys| == |assignments|;
  }

  /** The loop over the assignment map. The map yields its entries in any order; the roster does not depend
      on it. */
  method BuildRoster(assignments: map<PeerId, nat>) returns (party: Party)
    ensures IsRoster(party, assignments)
    ensures |party.participants| == |assignments|
  {
    var partyAssignments: map<PeerId, u16> := map[];
    var participants: seq<PeerId> := [];
    var rest := assignments.Keys;
    while rest != {}
      invariant rest <= assignments.Keys
      invariant partyAssignments == map p | p in assignments && p !in rest :: Cast(assignments[p])
      invariant Elements(participants) == assignments.Keys - rest
      invariant forall i, j :: 0 <= i < j < |participants| ==> participants[i] != participants[j]
      decreases rest
    {
      var peer :| peer in rest;
      assert peer !in Elements(participants);
      assert Elements(participants + [peer]) == Elements(participants) + {peer};
      partyAssignments := partyAssignments[peer := Cast(assignments[peer])];
      participants := participants + [peer];
      rest := rest - {peer};
    }
    SortAscends(participants);
    party := Party(partyAssignments, Sort(participants));
    RosterSize(party, assignments);
  }

  /** The roster as a function, for specifications. */
  ghost function RosterOf(assignments: map<PeerId, nat>): (party: Party)
    ensures IsRoster(party, assignments)
  {
    RosterExists(assignments);
    var party :| IsRoster(party, assignments);
    party
  }

  lemma {:induction false} RosterExists(assignments: map<PeerId, nat>)
    ensures exists party :: IsRoster(party, assignments)
  {
    var s := Enumeration(assignments.Keys);
    SortAscends(s);
    assert IsRoster(Party(map p | p in assignments :: Cast(assignments[p]), Sort(s)), assignments);
  }

  lemma {:induction false} Enumeration(keys: set<PeerId>) returns (s: seq<PeerId>)
    ensures Elements(s) == keys && forall i, j :: 0 <= i < j < |s| ==> s[i] != s[j]
  {
    if keys == {} {
      s := [];
    } else {
      var p :| p in keys;
      var rest := Enumeration(keys - {p});
      s := [p] + rest;
      assert p !in Elements(rest);
      assert Elements(s) == {p} + Elements(rest);
    }
  }
}

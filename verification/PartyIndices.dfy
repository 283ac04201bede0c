/** Indices after the cast to 16 bits, and the signers an RPC accepts. */
module PartyIndices {
  import opened Basics
  import opened Roster
  import opened Assignment
  import opened Routing
  import NodeRuntime
  import Orchestration

  /** The signing RPC's check of one signer index. */
  predicate SignerAccepted(party: Party, i: u16) {
    i < Cast(|party.participants|)
  }

  lemma PeerAt(assignments: map<PeerId, nat>, c: PeerId, i: nat) returns (p: PeerId)
    requires Dense(c, assignments) && i < |assignments|
    ensures p in assignments && assignments[p] == i
  {
    assert Taken(assignments, i);
    p :| p in assignments && assignments[p] == i;
  }

  /** The index of a node in the roster is its number, unless there are too many nodes. */
  lemma PartyIndexOf(c: PeerId, assignments: map<PeerId, nat>, party: Party, p: PeerId)
    requires Dense(c, assignments) && IsRoster(party, assignments) && p in assignments
    ensures p in party.assignments && party.assignments[p] == Cast(assignments[p])
    ensures assignments[p] < |assignments|
  {
  }

  lemma CastOfSmall(n: nat)
    requires n <= 0xFFFF
    ensures Cast(n) == n
  {
  }

  /** The cast keeps party indices apart exactly up to 65536 nodes. */
  lemma CastInjective(c: PeerId, assignments: map<PeerId, nat>, party: Party)
    requires Dense(c, assignments) && IsRoster(party, assignments)
    ensures DistinctParties(party.assignments) <==> |assignments| <= 0x1_0000
  {
    if |assignments| > 0x1_0000 {
      CastCollides(c, assignments, party);
    } else {
      forall p, q | p in party.assignments && q in party.assignments && party.assignments[p] == party.assignments[q]
        ensures p == q
      {
        PartyIndexOf(c, assignments, party, p);
        PartyIndexOf(c, assignments, party, q);
        CastOfSmall(assignments[p]);
        CastOfSmall(assignments[q]);
      }
    }
  }

  lemma CastCollides(c: PeerId, assignments: map<PeerId, nat>, party: Party)
    requires Dense(c, assignments) && IsRoster(party, assignments) && |assignments| > 0x1_0000
    ensures !DistinctParties(party.assignments)
  {
    var p := PeerAt(assignments, c, 0);
    var q := PeerAt(assignments, c, 0x1_0000);
    PartyIndexOf(c, assignments, party, p);
    PartyIndexOf(c, assignments, party, q);
    assert p != q && party.assignments[p] == party.assignments[q];
  }

  /** With up to 65535 nodes, an index is a participant's exactly if it is below their number. */
  lemma SmallRoster(c: PeerId, assignments: map<PeerId, nat>, party: Party, i: u16)
    requires Dense(c, assignments) && IsRoster(party, assignments) && |assignments| <= 0xFFFF
    ensures IsParty(party.assignments, i) <==> i < |assignments|
  {
    if i < |assignments| {
      var p := PeerAt(assignments, c, i);
      PartyIndexOf(c, assignments, party, p);
      CastOfSmall(i);
    }
    forall p | p in party.assignments
      ensures party.assignments[p] < |assignments|
    {
      PartyIndexOf(c, assignments, party, p);
      CastOfSmall(assignments[p]);
    }
  }

  lemma AcceptsBelowCount(assignments: map<PeerId, nat>, party: Party, i: u16)
    requires IsRoster(party, assignments) && |assignments| <= 0xFFFF
    ensures SignerAccepted(party, i) <==> i < |assignments|
  {
    RosterSize(party, assignments);
    CastOfSmall(|assignments|);
  }

  lemma RefusesParticipant(c: PeerId, assignments: map<PeerId, nat>, party: Party)
    requires Dense(c, assignments) && IsRoster(party, assignments) && |assignments| > 0xFFFF
    ensures IsParty(party.assignments, 0xFFFF) && !SignerAccepted(party, 0xFFFF)
  {
    RosterSize(party, assignments);
    var p := PeerAt(assignments, c, 0xFFFF);
    PartyIndexOf(c, assignments, party, p);
    CastOfSmall(0xFFFF);
  }

  /** The signing RPC accepts precisely the participants' indices exactly up to 65535 nodes; with more, the
      16-bit party count wraps around and indices of participants are refused. */
  lemma AcceptsExactlyParticipants(c: PeerId, assignments: map<PeerId, nat>, party: Party)
    requires Dense(c, assignments) && IsRoster(party, assignments)
    ensures (forall i: u16 :: SignerAccepted(party, i) <==> IsParty(party.assignments, i)) <==> |assignments| <= 0xFFFF
  {
    if |assignments| <= 0xFFFF {
      forall i: u16
        ensures SignerAccepted(party, i) <==> IsParty(party.assignments, i)
      {
        SmallRoster(c, assignments, party, i);
        AcceptsBelowCount(assignments, party, i);
      }
    } else {
      RefusesParticipant(c, assignments, party);
    }
  }

  /** Every accepted signer index belongs to exactly one node. */
  lemma SignerIsOneNode(c: PeerId, assignments: map<PeerId, nat>, party: Party, i: u16)
    returns (p: PeerId)
    requires Dense(c, assignments) && IsRoster(party, assignments) && |assignments| <= 0xFFFF
    requires SignerAccepted(party, i)
    ensures p in party.assignments && party.assignments[p] == i
    ensures forall q :: q in party.assignments && party.assignments[q] == i ==> q == p
  {
    AcceptsBelowCount(assignments, party, i);
    SmallRoster(c, assignments, party, i);
    CastInjective(c, assignments, party);
    p :| p in party.assignments && party.assignments[p] == i;
  }

  /** A signing call is refused for its signers exactly if the list is empty or names an index nobody has. */
  lemma SigningRefusedForSigners(c: PeerId, assignments: map<PeerId, nat>, o: Orchestration.Orch,
                                 message: Bytes, signers: seq<u16>)
    requires Dense(c, assignments) && |assignments| <= 0xFFFF
    requires IsRoster(Party(o.partyAssignments, o.participants), assignments)
    ensures var refusal := NodeRuntime.RpcRefusal(o, NodeRuntime.SigningRpc(message, signers));
            refusal == Some(NodeRuntime.NoSigners) || refusal == Some(NodeRuntime.BadSigner) <==>
              signers == [] || exists i :: i in signers && !IsParty(o.partyAssignments, i)
  {
    var party := Party(o.partyAssignments, o.participants);
    AcceptsExactlyParticipants(c, assignments, party);
    forall i: u16
      ensures i >= Cast(|o.participants|) <==> !IsParty(party.assignments, i)
    {
      assert SignerAccepted(party, i) <==> IsParty(party.assignments, i);
    }
  }
}

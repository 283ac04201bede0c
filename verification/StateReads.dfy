/** What a read of the protocol state returns, as `get_state` and the signature poll make it. */
module StateReads {
  import opened Orchestration

  lemma {:induction false} RunShortens(s: Orch, acts: seq<Action>)
    requires Runs(s, acts) && acts != []
    ensures var k := |acts| - 1;
            && Runs(s, acts[..k]) && Enabled(After(s, acts[..k]), acts[k])
            && After(s, acts) == Apply(After(s, acts[..k]), acts[k])
    decreases |acts|
  {
    var k := |acts| - 1;
    if k > 0 {
      RunShortens(Apply(s, acts[0]), acts[1..]);
      assert acts[..k][1..] == acts[1..][..k - 1];
    }
  }

  lemma StepKeepsReads(s: Orch, a: Action, i: nat)
    requires Enabled(s, a) && i < |s.polls| && a != DoPoll(i)
    ensures i < |Apply(s, a).polls|
    ensures Apply(s, a).polls[i].PollDone? <==> s.polls[i].PollDone?
    ensures s.polls[i].PollDone? ==> Apply(s, a).polls[i] == s.polls[i]
  {
    if a.DoHandler? {
      assert HandlerWork(s).polls == s.polls;
    }
  }

  lemma StepAddsReads(s: Orch, a: Action)
    requires Enabled(s, a)
    ensures forall i :: |s.polls| <= i < |Apply(s, a).polls| ==> !Apply(s, a).polls[i].PollDone?
  {
    if a.DoHandler? {
      assert HandlerWork(s).polls == s.polls;
    }
  }

  /** Every read that has returned returned the state of the moment in which it held the lock, whatever has happened
      since. */
  lemma {:induction false} ReadsTheMoment(s: Orch, acts: seq<Action>, i: nat) returns (k: nat)
    requires IsNew(s) && Runs(s, acts) && i < |After(s, acts).polls| && After(s, acts).polls[i].PollDone?
    ensures k < |acts| && acts[k] == DoPoll(i) && Runs(s, acts[..k])
    ensures After(s, acts).polls[i].seen == After(s, acts[..k]).state
    ensures i < |After(s, acts[..k]).polls| && After(s, acts[..k]).polls[i].PollHas?
    decreases |acts|
  {
    var last := |acts| - 1;
    RunShortens(s, acts);
    var before := After(s, acts[..last]);
    if acts[last] == DoPoll(i) {
      k := last;
    } else {
      StepAddsReads(before, acts[last]);
      StepKeepsReads(before, acts[last], i);
      k := ReadsTheMoment(s, acts[..last], i);
      assert acts[..last][..k] == acts[..k];
    }
  }
}

/** Where the orchestrators and tasks of a node come from. */
module NodeCalls {
  import opened Basics
  import opened Orchestration
  import opened OrchestrationProof
  import opened Uninterrupted
  import opened EndToEnd
  import opened NodeRuntime
  import opened NodeRuntimeProof

  /** The call is one the node's own RPC calls have broadcast, or one the event loop has taken from another node. */
  predicate KnownCall(n: Node, past: seq<NodeAction>, a: Action) {
    a.DoDeliver? ==>
      || (a.from == n.me && a.msg in n.broadcast)
      || (a.from != n.me && LoopTakes(CallJob(a.from, a.msg)) in past)
  }

  /** The generation was installed with a roster the event loop was given, and its tasks and its running call come from
      known calls. */
  ghost predicate GenKnown(n: Node, past: seq<NodeAction>, o: Orch) {
    && o.me == n.me && LoopTakes(InstallJob(o.participants, o.partyAssignments)) in past
    && exists calls: seq<Action> :: Sourced(o, calls) && forall a :: a in calls ==> KnownCall(n, past, a)
  }

  ghost predicate LoopKnown(n: Node, past: seq<NodeAction>) {
    n.loop.LoopAsks? || n.loop.LoopHas? ==> LoopTakes(n.loop.job) in past && FromOthers(n.me, n.loop.job)
  }

  ghost predicate AllKnown(n: Node, past: seq<NodeAction>) {
    LoopKnown(n, past) && forall g :: 0 <= g < |n.gens| ==> GenKnown(n, past, n.gens[g])
  }

  lemma OuterStepKnown(n: Node, past: seq<NodeAction>, x: NodeAction)
    requires NodeEnabled(n, x) && LoopKnown(n, past)
    ensures LoopKnown(NodeApply(n, x), past + [x]) && NodeApply(n, x).me == n.me
    ensures forall m :: m in n.broadcast ==> m in NodeApply(n, x).broadcast
  {
  }

  lemma KnownStays(n: Node, past: seq<NodeAction>, x: NodeAction, o: Orch)
    requires NodeEnabled(n, x) && LoopKnown(n, past) && GenKnown(n, past, o)
    ensures GenKnown(NodeApply(n, x), past + [x], o)
  {
    OuterStepKnown(n, past, x);
    var calls: seq<Action> :| Sourced(o, calls) && forall a :: a in calls ==> KnownCall(n, past, a);
    assert forall a :: a in calls ==> KnownCall(NodeApply(n, x), past + [x], a);
  }

  /** A step of the orchestrator keeps it known, if what it delivers is a known call. */
  lemma KnownSteps(n: Node, past: seq<NodeAction>, o: Orch, a: Action)
    requires GenKnown(n, past, o) && Enabled(o, a) && KnownCall(n, past, a)
    ensures GenKnown(n, past, Apply(o, a))
  {
    var calls: seq<Action> :| Sourced(o, calls) && forall b :: b in calls ==> KnownCall(n, past, b);
    StepKeepsSourced(o, calls, a);
    assert [a][1..] == [] && After(o, [a]) == Apply(o, a);
    RunKeepsIdentity(o, [a]);
    assert forall b :: b in calls + [a] ==> KnownCall(n, past, b);
  }

  lemma InstalledKnown(n: Node, past: seq<NodeAction>, participants: seq<PeerId>, assignments: map<PeerId, u16>)
    requires LoopTakes(InstallJob(participants, assignments)) in past
    ensures GenKnown(n, past, New(n.me, participants, assignments))
  {
    assert Sourced(New(n.me, participants, assignments), []);
  }

  lemma DeliveryKnown(n: Node, past: seq<NodeAction>, x: NodeAction)
    requires NodeInv(n) && AllKnown(n, past) && NodeEnabled(n, x) && DeliversCall(n, x) && n.gens != []
    ensures NodeApply(n, x).gens != [] && GenKnown(NodeApply(n, x), past + [x], NodeApply(n, x).Current())
  {
    var o, n' := n.Current(), NodeApply(n, x);
    KnownStays(n, past, x, o);
    DeliveredAtRest(n, x, |n.gens| - 1);
    if x.LoopActs? {
      var a := DoDeliver(n.loop.job.from, n.loop.job.msg);
      assert KnownCall(n', past + [x], a);
      KnownSteps(n', past + [x], o, a);
    } else if n'.Current() != o {
      var a := DoDeliver(n.me, RpcMessage(o, n.rpcs[x.i]));
      assert KnownCall(n', past + [x], a);
      KnownSteps(n', past + [x], o, a);
    }
  }

  lemma DeliveryKeepsEarlier(n: Node, x: NodeAction, g: nat)
    requires NodeEnabled(n, x) && DeliversCall(n, x) && g < |n.gens| - 1
    ensures g < |NodeApply(n, x).gens| == |n.gens| && NodeApply(n, x).gens[g] == n.gens[g]
  {
  }

  lemma ReturnKnown(n: Node, past: seq<NodeAction>, x: NodeAction, g: nat)
    requires AllKnown(n, past) && NodeEnabled(n, x) && (x.LoopDone? || x.RpcDone?) && g < |n.gens|
    ensures g < |NodeApply(n, x).gens| && GenKnown(NodeApply(n, x), past + [x], NodeApply(n, x).gens[g])
  {
    KnownStays(n, past, x, n.gens[g]);
    if g == |n.gens| - 1 {
      KnownSteps(NodeApply(n, x), past + [x], n.gens[g], DoReturn);
    }
  }

  lemma GenStaysKnown(n: Node, past: seq<NodeAction>, x: NodeAction, g: nat)
    requires NodeInv(n) && AllKnown(n, past) && NodeEnabled(n, x) && g < |n.gens|
    ensures g < |NodeApply(n, x).gens| && GenKnown(NodeApply(n, x), past + [x], NodeApply(n, x).gens[g])
  {
    if x.LoopDone? || x.RpcDone? {
      ReturnKnown(n, past, x, g);
    } else if DeliversCall(n, x) && g == |n.gens| - 1 {
      DeliveryKnown(n, past, x);
    } else {
      KnownStays(n, past, x, n.gens[g]);
      if DeliversCall(n, x) {
        DeliveryKeepsEarlier(n, x, g);
      } else if !x.Inner? {
        OthersKeepGens(n, x, g);
      } else if g == x.g {
        KnownSteps(NodeApply(n, x), past + [x], n.gens[g], x.a);
      }
    }
  }

  lemma StepKeepsKnown(n: Node, past: seq<NodeAction>, x: NodeAction)
    requires NodeInv(n) && AllKnown(n, past) && NodeEnabled(n, x)
    ensures AllKnown(NodeApply(n, x), past + [x]) && NodeApply(n, x).me == n.me
  {
    var n' := NodeApply(n, x);
    OuterStepKnown(n, past, x);
    forall g | 0 <= g < |n'.gens|
      ensures GenKnown(n', past + [x], n'.gens[g])
    {
      if g >= |n.gens| {
        InstalledKnown(n', past + [x], n.loop.job.participants, n.loop.job.partyAssignments);
      } else {
        GenStaysKnown(n, past, x, g);
      }
    }
  }

  lemma {:induction false} RunKeepsKnown(n: Node, past: seq<NodeAction>, xs: seq<NodeAction>)
    requires NodeInv(n) && AllKnown(n, past) && NodeRuns(n, xs)
    ensures AllKnown(NodeAfter(n, xs), past + xs) && NodeAfter(n, xs).me == n.me
    decreases |xs|
  {
    if xs == [] {
      assert past + xs == past;
    } else {
      var x, rest := xs[0], xs[1..];
      assert past + [x] + rest == past + xs;
      StepKeepsKnown(n, past, x);
      NodeStepKeepsInv(n, x);
      RunKeepsKnown(NodeApply(n, x), past + [x], rest);
    }
  }

  lemma TaskKnown(n: Node, past: seq<NodeAction>, o: Orch, i: nat) returns (a: Action)
    requires GenKnown(n, past, o) && i < |o.tasks|
    ensures ComesFrom(o.tasks[i], o.me, o.partyAssignments, a) && KnownCall(n, past, a)
  {
    var calls: seq<Action> :| Sourced(o, calls) && forall b :: b in calls ==> KnownCall(n, past, b);
    assert HasSource(o, calls, i);
    a :| a in calls && ComesFrom(o.tasks[i], o.me, o.partyAssignments, a);
  }

  /** Every generation of orchestrators on a node has a roster its event loop was given to install. */
  lemma InstalledAsGiven(me: PeerId, xs: seq<NodeAction>, g: nat)
    requires NodeRuns(NewNode(me), xs) && g < |NodeAfter(NewNode(me), xs).gens|
    ensures var o := NodeAfter(NewNode(me), xs).gens[g];
            o.me == me && LoopTakes(InstallJob(o.participants, o.partyAssignments)) in xs
  {
    RunKeepsKnown(NewNode(me), [], xs);
    assert [] + xs == xs;
  }

  /** Every task on a node works for a message that one of the node's own calls has broadcast, if the node is its
      initiator, and for one the event loop has taken from the initiator otherwise, with exactly its parameters. */
  lemma NodeTaskHasItsCall(me: PeerId, xs: seq<NodeAction>, g: nat, i: nat)
    returns (from: PeerId, msg: CoordinationMessage)
    requires NodeRuns(NewNode(me), xs) && g < |NodeAfter(NewNode(me), xs).gens|
    requires i < |NodeAfter(NewNode(me), xs).gens[g].tasks|
    ensures var n := NodeAfter(NewNode(me), xs);
            var t := n.gens[g].tasks[i];
            && t.initiator == from && msg.Initiates() && t.executionId == msg.executionId
            && JobFor(t.job, me, n.gens[g].partyAssignments, msg)
            && (if from == me then msg in n.broadcast else LoopTakes(CallJob(from, msg)) in xs)
  {
    RunKeepsKnown(NewNode(me), [], xs);
    assert [] + xs == xs;
    var n := NodeAfter(NewNode(me), xs);
    var a := TaskKnown(n, xs, n.gens[g], i);
    from, msg := a.from, a.msg;
  }
}

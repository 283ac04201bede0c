/** The polling loop of the signing RPC. */
module SignaturePoll {
  import opened Basics
  import opened Orchestration
  import opened OrchestrationProof
  import opened OrchestrationTheorems

  const POLL_INTERVAL_MS: nat := 100

  /** What the loop can observe: the k-th clock reading (milliseconds since the loop began) and the protocol
      state at the k-th read. */
  datatype Environment = Environment(elapsed: nat -> nat, state: nat -> ProtocolState)

  /** Every sleep lets at least the polling interval pass. */
  ghost predicate ClockAdvances(env: Environment) {
    forall k: nat :: env.elapsed(k + 1) >= env.elapsed(k) + POLL_INTERVAL_MS
  }

  predicate Ended(state: ProtocolState) {
    state.SigningCompleted? || state.Failed?
  }

  /** Turn `k` is the first to find the time exceeded or the protocol ended. */
  ghost predicate StopsAt(env: Environment, timeout: nat, k: nat) {
    && (env.elapsed(k) > timeout || Ended(env.state(k)))
    && forall j: nat :: j < k ==> env.elapsed(j) <= timeout && !Ended(env.state(j))
  }

  lemma {:induction false} ClockAfter(env: Environment, k: nat)
    requires ClockAdvances(env)
    ensures env.elapsed(k) >= POLL_INTERVAL_MS * k
  {
    if k > 0 {
      ClockAfter(env, k - 1);
      assert env.elapsed(k - 1 + 1) >= env.elapsed(k - 1) + POLL_INTERVAL_MS;
    }
  }

  /** The loop returns the first signature it sees in time, gives up on failure or timeout, and sleeps at most
      timeout / 100 ms + 1 times. */
  method WaitForSignature(env: Environment, timeout: nat) returns (signature: Option<string>, sleeps: nat)
    requires ClockAdvances(env)
    ensures StopsAt(env, timeout, sleeps)
    ensures env.elapsed(sleeps) > timeout || env.state(sleeps).SigningCompleted? || env.state(sleeps).Failed?
    ensures forall j: nat :: j < sleeps ==>
              env.elapsed(j) <= timeout && !env.state(j).SigningCompleted? && !env.state(j).Failed?
    ensures signature.Some? <==> env.elapsed(sleeps) <= timeout && env.state(sleeps).SigningCompleted?
    ensures signature.Some? ==> env.state(sleeps) == SigningCompleted(signature.value)
    ensures sleeps <= timeout / 100 + 1
  {
    sleeps := 0;
    while true
      invariant forall j: nat :: j < sleeps ==>
                  env.elapsed(j) <= timeout && !env.state(j).SigningCompleted? && !env.state(j).Failed?
      invariant POLL_INTERVAL_MS * sleeps <= timeout + POLL_INTERVAL_MS
      decreases timeout + 2 * POLL_INTERVAL_MS - POLL_INTERVAL_MS * sleeps
    {
      if env.elapsed(sleeps) > timeout {
        return None, sleeps;
      }
      match env.state(sleeps) {
        case SigningCompleted(s) =>
          return Some(s), sleeps;
        case Failed(_, _) =>
          return None, sleeps;
        case _ =>
          ClockAfter(env, sleeps);
          sleeps := sleeps + 1;
      }
    }
  }

  /** The states seen at the reads are those of one orchestrator as it runs on. */
  ghost predicate ObservesRun(env: Environment, s: Orch, acts: nat -> seq<Action>) {
    forall k: nat :: Runs(s, acts(k)) && env.state(k) == After(s, acts(k)).state
  }

  /** Whatever else happens, a poll that starts once the orchestrator shows a signature returns that signature,
      and one that starts after a failure returns nothing. */
  lemma EndedIsSeen(env: Environment, timeout: nat, s: Orch, acts: nat -> seq<Action>, k: nat)
    requires Reachable(s) && ObservesRun(env, s, acts) && Ended(s.state) && StopsAt(env, timeout, k)
    ensures k == 0
    ensures env.state(k) == s.state
  {
    ReachableInv(s);
    WritesWithinRank(s, acts(0));
    assert Ended(env.state(0));
  }

  /** A node that handled the request without being one of its signers never sees a signature: its poll ends by
      timeout only. */
  lemma ObserverTimesOut(env: Environment, timeout: nat, s: Orch, acts: nat -> seq<Action>, k: nat)
    requires Reachable(s) && Stranded(s) && ObservesRun(env, s, acts) && StopsAt(env, timeout, k)
    ensures env.elapsed(k) > timeout && env.state(k) == s.state
  {
    ReachableInv(s);
    StrandedForever(s, acts(k));
  }
}

# A verified model of the threshold-signing coordinator

A group of peers agrees on who is party 0, 1, 2, … of a threshold signature scheme, and then runs aux generation,
key generation and signing over gossip. The cryptography is library code; the coordination around it is what this
project models, in four parts that meet at the end.

**The orchestrator of one node** is an eight-state machine. Message handlers and spawned tasks overwrite its
cells under three locks, and the aux task takes `aux_info` and `state` in the order opposite to the handlers.
`Orchestration` models it lock request by lock request: a step contains at most one action another thread can see,
the locks are first-come-first-served reader-writer locks, and every interleaving is a run.

- `OrchestrationProof`: the invariant. `OrchestrationTheorems`: one live task, no lost update, phase order, monotone
  phases, which calls start a task, which steps strand the machine.
- `CallResults`: when each result of a call occurs. `StateReads`: which state a read returns.
- `LockOrder`: no wait cycle, progress, bounded runs, what the held locks protect.
- `Uninterrupted`: a handler call, with its result, or a task ending as one function, and the proof that it is a run
  of the interleaved machine. `OrchestratorObject` (`MPCOrchestrator.dfy`): the class with the source's fields,
  whose methods are proved against those functions.
- `SigningRace`: the keygen task announces KeygenCompleted before it stores the key share. `Stranding`: which calls
  leave an orchestrator in a state it never gets out of.
- `NodeRuntime`, `NodeRuntimeProof`, `NodeRuntimeTheorems`: the outer lock around the installed orchestrator, served
  in arrival order, any number of concurrent RPC calls and the event loop, replacement of the orchestrator.
  `NodeCalls`: where orchestrators and tasks come from. `NodeRouting`: which task a protocol message reaches.
  `NodeProgress`: a node left to itself comes to rest, and then only polls hold anything up. `RoutingStall`: the
  poll of a signing call and the routing of protocol messages need the same lock. `NodeScenarios`: runs of a whole
  node. `SignaturePoll`: the polling loop.

**The assignment handshake** of N nodes over a gossip layer that loses, delays and reorders messages. Publishing only
queues a message; the queue is emptied by the node's event loop, which drives the swarm between two handlers.

- `Roster`: from the assignment map to the party map and the sorted participant list. `Assignment`: what one node
  does, and what it keeps whatever arrives. `NodeObject` (`AssignmentNode.dfy`): the same as a class
  that is updated in place. `PeerHistory`, `SessionHistory`: peer list, numbering, counter and sessions in terms of the
  events the node has seen. `PartyIndices`: the casts to 16 bits and the signers an RPC accepts.
- `Handshake`: the system of N nodes. `HandshakeProof`: its invariant. `HandshakeTheorems`: the results.
  `SessionCompletion`: which sessions can still be brought to their end. `SameSecond`, `TwoRosters`: two assign calls
  within a second.

**The message router**: `Routing` has the wrapping, the filter and the mock coordinator of the tests as a class;
`GossipRefinement` proves over whole runs when the first with gossip delivers what the second would. Gossip tells
messages apart by their bytes alone (`src/network.rs:154-158`), here as in the handshake.

**Execution ids**: `ExecutionIds` (the byte layout) and `Parties` (the party objects with their one-shot receiver).

`EndToEnd` puts the parts together: which message every task comes from, that tasks started by one message meet
under one execution id, that a node has one party index everywhere, and that tasks of different nodes reach each
other by it.

## What does not hold

Where a property one would expect is false of the code, the code is kept as it is, and the exact condition is proved.

- A valid signing request that finds KeygenCompleted can fail for want of the key share, since the keygen task writes
  the state first and stores the share later. It is safe exactly if the task has already asked for the key share
  lock (`SigningRace.SigningStartsExactlyIfKeyRequested`, `SigningRace.SigningRequestCanBeLost`).
- A call can leave the machine in Keygen or Signing forever. An undisturbed one does so exactly if it passes the
  handler's checks and is a keygen request in Idle, or a signing request in Idle, or one that does not name this
  node, or one that finds the key share missing (`Stranding.CallStrandsExactly`); in an interleaved run exactly one
  kind of step does it (`OrchestrationTheorems.WhatStrands`). All cases occur (`Stranding.IdleRequestStrands`,
  `Stranding.ObserverStrands`, `SigningRace.SigningRequestCanBeLost`).
- While a signing call polls, protocol messages do not always reach their tasks. They do exactly if the event loop
  is not waiting for an exclusive hold of the outer lock, no exclusive request is ahead of it, and there is another
  participant and a running task (`RoutingStall.RoutingGoesOnExactly`). Otherwise a task that needs another message
  cannot end, and only its timeout ends the poll (`RoutingStall.StallEndsByTimeout`); any coordination message of another
  node brings this about (`NodeScenarios.StallHappens`).
- A session is not always completed even if nothing more goes wrong. It can be exactly if it has two nodes or more, all
  of them are there, and none has taken the request without publishing its acceptance
  (`SessionCompletion.SessionCompletesExactly`). One failed publish of an acceptance, which the handler only logs
  (`src/network.rs:445-451`), blocks it for good (`SessionCompletion.FailedPublishBlocks`).
- A signing call can return a signature of another message. Its own it returns if the orchestrator it polls is the
  one that handled it (`NodeRuntimeTheorems.RpcReturnsOwnSignature`); if it is held up between giving the lock back
  and asking for it again, it can be overtaken by an installation and a whole session
  (`NodeScenarios.ForeignSignature`).
- A coordinator without peers never installs an orchestrator, although "all accepted" holds for its session from
  the start (`HandshakeTheorems.CoordinatorInstallsExactlyWhenAllAccepted`).
- A second assign call within a second reuses the session id. It changes a stored session exactly if an acceptance
  has come in or the numbering has changed (`SameSecond.OverwritesExactly`). With the same numbering it loses the
  acceptances for good (`SameSecond.RepeatLosesAcceptances`), with another one it counts answers to the first request
  for the second (`SameSecond.RepeatMixesSessions`), and nodes install different rosters under one session id
  (`TwoRosters.RostersDiffer`).
- Aux generation always counts three parties, so it agrees with key generation exactly if the number of nodes cast to
  16 bits is three (`EndToEnd.AuxAndKeygenCountAgree`).
- The casts to 16 bits keep party indices apart exactly up to 65536 nodes, and the RPC accepts exactly the
  participants' indices up to 65535 (`PartyIndices`).
- Gossip and the mock differ on a single message exactly if it is addressed to its own sender or to nobody
  (`GossipRefinement.AgreesExactlyIfProper`). Over a run of other messages they differ exactly if a party posts the
  same payload to the same recipient twice, be it in two protocols, and there is another party: gossip lets equal
  bytes through once, the mock delivers both (`GossipRefinement.GossipRefinesExactly`).
- The peer counter equals the length of the peer list exactly if no connection to an unlisted peer closes while
  others are listed (`Assignment.CounterExactIffNoStray`).

Where the code's remarks and the code differ, the model follows the code: the signing handler logs that the task is
still to be spawned (`src/mpc/orchestrator.rs:846`), but it spawns it; the exemptions for Idle are said to be for
testing (`src/mpc/orchestrator.rs:608`, `src/rpc.rs:793`), but they are always there.

## Model

| member | source | states |
|---|---|---|
| `OrchestrationProof.ReachableInv` | src/mpc/orchestrator.rs:418-917 | every interleaving of handlers, tasks and polls keeps the invariant: mutual exclusion on all three locks, tasks in phase order, stored results and state in agreement with them |
| `OrchestrationTheorems.OneLiveTask` | src/mpc/orchestrator.rs:480-547 | at most one task is live, each phase runs at most once, and each sender field feeds the task of its phase |
| `OrchestrationTheorems.NoLostUpdate` | src/mpc/orchestrator.rs:523-543 | the machine whose tasks write the state unconditionally and one whose tasks compare and swap have the same runs and reach the same states |
| `OrchestrationTheorems.PhaseOrder` | src/mpc/orchestrator.rs:678-692 | a keygen task runs on the aux info a finished aux task stored, a signing task on that and on the share a finished keygen task stored |
| `OrchestrationTheorems.ResultsMatchStates` | src/mpc/orchestrator.rs:700-733 | AuxCompleted means aux info is there; KeygenCompleted means aux info is there, and the key share exactly once the task has stored it; SigningCompleted carries the signing task's signature; Failed carries the phase of the last task and the reason it ended with |
| `OrchestrationTheorems.OutcomesShow` | src/mpc/orchestrator.rs:508-547 | the last task, once it has let go of the state, has left the state its outcome calls for, or a later request has replaced it by its own in-progress state; a failure and a signature stay |
| `CallResults.AdmissionDecided` | src/mpc/orchestrator.rs:609-662 | the checks under the state lock: each refusal exactly under its condition, in the order state, threshold, assignment, and the state is written exactly if there is none |
| `CallResults.ResultExplained` | src/mpc/orchestrator.rs:575-681 | in every interleaving, the result with which a call returns is determined by the request, the assignments and the state it found, up to whether the key share lookup succeeds |
| `CallResults.UndisturbedDecided` | src/mpc/orchestrator.rs:384-414 | an undisturbed call: when each result occurs, which state it leaves, and whether it starts a task |
| `StateReads.ReadsTheMoment` | src/mpc/orchestrator.rs:256-258 | every read that has returned returned the state of a moment of the run in which it held the lock, whatever has happened since |
| `OrchestrationTheorems.WritesRaiseRank` | src/mpc/orchestrator.rs:65-151 | each state write moves strictly up in the order of the phases, and no other step changes the state |
| `OrchestrationTheorems.MonotonePhases` | src/mpc/orchestrator.rs:451-543 | an orchestrator writes its state at most six times; SigningCompleted and Failed are final |
| `OrchestrationTheorems.KeygenAlwaysStarts` | src/mpc/orchestrator.rs:575-737 | a valid keygen request that finds AuxCompleted starts its task with its own channel in every interleaving |
| `OrchestrationTheorems.SigningRunServes` | src/mpc/orchestrator.rs:755-917 | a signing request behind the keygen task's key share request is served in every interleaving |
| `OrchestrationTheorems.AuxLookupDecided` | src/mpc/orchestrator.rs:678-681 | the aux info lookup fails exactly for requests that were admitted in Idle |
| `OrchestrationTheorems.KeyLookupDecided` | src/mpc/orchestrator.rs:853-857 | the key share lookup succeeds exactly if the keygen task is over |
| `OrchestrationTheorems.WhatStrands` | src/mpc/orchestrator.rs:823-857 | a step leaves an in-progress state without a task to replace it if and only if it is the handler's and finds itself admitted in Idle at the aux info lookup, with the keygen task not over at the key share lookup, or not among the signers at admission |
| `OrchestrationTheorems.StrandedForever` | src/mpc/orchestrator.rs:609-621 | from then on the state never changes and no task is ever started |
| `LockOrder.NoWaitCycle` | src/mpc/orchestrator.rs:523-532 | no reachable interleaving has a cycle of threads waiting for each other, of any length |
| `LockOrder.ProgressWhileWaiting` | src/mpc/orchestrator.rs:451-543 | while any thread waits for a lock, the program can take a step by itself |
| `LockOrder.RunsAreBounded` | src/mpc/orchestrator.rs:384-414 | a run has at most 19 steps per delivered message and 3 per state read |
| `LockOrder.QuietMeansUnlocked` | src/mpc/orchestrator.rs:508-547 | when nothing more can happen by itself, nobody waits and no lock is held |
| `LockOrder.AuxGuardSpansStateWrite` | src/mpc/orchestrator.rs:523-532 | an aux task that succeeds keeps aux_info locked from before it stores its result until after it has let go of the state, so whoever else holds the lock finds no aux info, or the task is over and the state has moved on |
| `LockOrder.HandlerKeepsItsLocks` | src/mpc/orchestrator.rs:609-681 | a handler keeps the locks it has got until it returns, the state exclusively, so no task holds the state meanwhile |
| `Uninterrupted.HandleIsRun` | src/mpc/orchestrator.rs:384-414 | an undisturbed call, with all its error cases, is a run of the interleaved machine, which gets to the point where the interleaved handler returns exactly the stated result, and from there to the stated orchestrator |
| `Uninterrupted.EndIsRun` | src/mpc/orchestrator.rs:508-547 | so is an undisturbed task ending |
| `Uninterrupted.StoreShareIsRun` | src/mpc/orchestrator.rs:717 | so is storing the key share afterwards |
| `SigningRace.SigningStartsExactlyIfKeyRequested` | src/mpc/orchestrator.rs:709-717 | a valid signing request in KeygenCompleted is served in every continuation if and only if the keygen task has asked for the key share lock |
| `SigningRace.SigningRequestCanBeLost` | src/mpc/orchestrator.rs:853-857 | for every assigned node there is a run in which the request is lost and the machine stranded |
| `OrchestratorObject.MPCOrchestrator.constructor` | src/mpc/orchestrator.rs:233-253 | starts in Idle, empty |
| `OrchestratorObject.MPCOrchestrator.HandleCoordinationMessage` | src/mpc/orchestrator.rs:384-414 | leaves the object as a run of the interleaved machine does and returns what the interleaved handler returns; reports change nothing |
| `OrchestratorObject.MPCOrchestrator.HandleInitiateAux` | src/mpc/orchestrator.rs:418-556 | when each result of the aux request occurs, the state it leaves, and the task it starts; as a run of the interleaved machine has them |
| `OrchestratorObject.MPCOrchestrator.HandleInitiateKeygen` | src/mpc/orchestrator.rs:575-737 | when each result of the keygen request occurs, the state it leaves, also when aux info is missing, and the task it starts; as a run of the interleaved machine has them |
| `OrchestratorObject.MPCOrchestrator.HandleInitiateSigning` | src/mpc/orchestrator.rs:755-917 | when each result of the signing request occurs, signer or not, the state it leaves, also after a failed lookup, and the task it starts; as a run of the interleaved machine has them |
| `OrchestratorObject.MPCOrchestrator.EndTask` | src/mpc/orchestrator.rs:508-547 | a task's unconditional write replaces the in-progress state of its own run, by the state and result its outcome calls for |
| `OrchestratorObject.MPCOrchestrator.StoreKeyShare` | src/mpc/orchestrator.rs:717 | stores the share of the finished keygen task and leaves the state alone |
| `Uninterrupted.ReadyToSign` | src/mpc/orchestrator.rs:692-718 | every assigned node has a run to KeygenCompleted with both results stored |
| `Uninterrupted.SessionCanComplete` | src/mpc/orchestrator.rs:871-911 | every assigned node has a run through all phases to SigningCompleted |
| `Stranding.CallStrandsExactly` | src/mpc/orchestrator.rs:575-857 | an undisturbed call strands the orchestrator if and only if it passes the checks and is a keygen request in Idle, or a signing request in Idle, without this node's index, or without a stored key share |
| `Stranding.IdleRequestStrands` | src/mpc/orchestrator.rs:609-681 | every valid keygen or signing request strands every new assigned orchestrator |
| `Stranding.ObserverStrands` | src/mpc/orchestrator.rs:812-845 | a signing request that does not name the node strands it, although the handler returns success |
| `SignaturePoll.WaitForSignature` | src/mpc/orchestrator.rs:262-289 | returns the first signature seen in time, nothing on failure or timeout, after at most timeout / 100 ms + 1 sleeps |
| `SignaturePoll.EndedIsSeen` | src/mpc/orchestrator.rs:274-281 | a poll that begins after the end sees that end at once, whatever the orchestrator does |
| `SignaturePoll.ObserverTimesOut` | src/rpc.rs:864-869 | the poll of a stranded node ends by timeout only |
| `NodeRuntimeTheorems.HandlersAreExclusive` | src/network.rs:966-968 | handler calls and installations never overlap with a running handler of any generation |
| `NodeRuntimeTheorems.RpcCheckNeverStale` | src/rpc.rs:791-810 | a call that passed the RPC's own state check is never turned away by the handler's |
| `NodeRuntimeTheorems.GenerationsReachable` | src/network.rs:427-438 | every orchestrator a node has ever installed is in a state that an orchestrator on its own can reach, so all results about those hold of it |
| `NodeRuntimeTheorems.RpcCheckDecided` | src/rpc.rs:605-680 | a call with the lock in hand: each refusal exactly under its condition, in the order of the checks, with nothing sent; otherwise the message for exactly its parameters is broadcast and handed to the node's own orchestrator |
| `NodeRuntimeTheorems.RpcDoneDecided` | src/rpc.rs:843-856 | a local failure is reported exactly as that failure, and which results there are follows from the call, the assignments and the state its handler found |
| `NodeRuntimeTheorems.AuxCallGetsItsTask` | src/rpc.rs:521-560 | an aux call that has succeeded has started the aux task of the orchestrator that handled it, with its execution id and time |
| `NodeRuntimeTheorems.KeygenCallGetsItsTask` | src/rpc.rs:661-700 | a keygen call that has succeeded has started the keygen task of the orchestrator that handled it, with its threshold, execution id and time, for as many parties as there are participants |
| `NodeCalls.InstalledAsGiven` | src/network.rs:427-438 | every orchestrator a node has had has the roster of an installation its event loop was given |
| `NodeCalls.NodeTaskHasItsCall` | src/network.rs:966-969 | every task on a node works, with exactly the parameters, for a message one of the node's own calls has broadcast if the node is its initiator, and otherwise for one the event loop has taken from the initiator |
| `NodeRuntimeProof.NodeReachableInv` | src/rpc.rs:738-883 | every interleaving of event loop, RPC calls and orchestrators keeps the invariant: who holds the outer lock, who waits for it, and which orchestrator works for which call |
| `NodeRuntimeTheorems.PollPinsOrchestrator` | src/rpc.rs:864-869 | while a signing call polls, the polled orchestrator is the current one and cannot be replaced, and no handler call is under way or can begin |
| `NodeRuntimeTheorems.RpcReturnsOwnSignature` | src/rpc.rs:843-883 | a returned signature is the signing task's; unless the orchestrator was replaced meanwhile, that task was started for this call's execution id, message, signers and time |
| `NodeRuntimeTheorems.SignatureIsFinal` | src/rpc.rs:864-883 | once returned, that orchestrator shows this signature forever |
| `NodeScenarios.ForeignSignature` | src/rpc.rs:858-883 | for every assigned node there is a run, with the lock served in arrival order, in which a signing call returns the signature of another message |
| `NodeRouting.RoutedToItsTask` | src/network.rs:1009-1093 | the routing step gives a message to exactly the running task of its protocol, labelled with sender index and kind, if it is from a participant and for everybody or for this node's index, and otherwise to nobody |
| `RoutingStall.RoutingGoesOnExactly` | src/network.rs:1010-1011 | while a signing call polls, a message can reach a task if and only if the event loop wants no exclusive hold, no exclusive request is ahead of it, and there is another participant and a running task; otherwise no task gets anything before the poll is over |
| `RoutingStall.StallEndsByTimeout` | src/mpc/orchestrator.rs:262-289 | with the route closed, a poll whose task needs another message ends by its timeout only, in every run |
| `NodeScenarios.StallHappens` | src/network.rs:966-968 | any coordination message of another node that arrives while a signing call polls closes the route |
| `NodeProgress.StuckExactly` | src/rpc.rs:738-883 | a reachable node can take no step by itself if and only if its orchestrators are quiet, the event loop and all calls are through or wait for the outer lock, and whoever waits does so behind an exclusive request that a poll holds up |
| `NodeProgress.ProgressOrTimeout` | src/rpc.rs:858-869 | while anybody waits for the outer lock or an inner one, the node can take a step by itself, or a poll holds everything up and its timeout is possible |
| `NodeProgress.OwnRunsAreBounded` | src/network.rs:966-968 | however its threads interleave, a node left to itself stops after a number of steps bounded by its state |
| `Roster.RosterUnique` | src/network.rs:402-425 | nodes that build their roster from one assignment get the same party map and the same participant sequence |
| `Roster.AscendingUnique` | src/network.rs:425 | a set of peers has one sorted enumeration |
| `Roster.BuildRoster` | src/network.rs:402-425 | the loop over the hash map, in any order, yields the roster of the assignment |
| `Roster.RosterSize` | src/rpc.rs:613 | the participant list has as many members as the assignment |
| `Assignment.SessionArithmetic` | src/rpc.rs:44-51 | the acceptance count is the number of acceptances, and all have accepted exactly if it is one less than the nodes |
| `Assignment.NodeAlwaysSound` | src/network.rs:322-553 | after any events and any messages, honest or not: session sizes at least 1 and exact, no underflow, peer list without duplicates and without the node, the peer counter never ahead of it |
| `Assignment.CounterExactIffNoStray` | src/network.rs:1476-1483 | the peer counter is exact along a run if and only if no close event names an unlisted peer while others are listed |
| `PeerHistory.SufficientExactly` | src/network.rs:316-318 | as long as no close event strays, there are sufficient peers exactly if at least that many are listed |
| `PeerHistory.ListedExactly` | src/network.rs:1356-1383 | exactly those peers are listed that were identified and whose connection has not closed since |
| `PeerHistory.CloseKeepsOrder` | src/network.rs:1481 | a close leaves the other peers in their order |
| `PeerHistory.ListInOrder` | src/network.rs:1380-1383 | over every run of events and messages, the list is in the order in which its peers joined it |
| `PeerHistory.NumberedInOrder` | src/rpc.rs:302-309 | an assign call numbers the peers in the order in which they joined |
| `PeerHistory.CurrentIsLatest` | src/network.rs:340-344 | after any events and messages, the current session is that of the latest assign call or request that names the node |
| `SessionHistory.RecordExactly` | src/network.rs:346-356 | after any events and messages, a stored session is what the latest assign call for it, or else the first request that names the node, stored, and the acceptances recorded are exactly those that have arrived since |
| `Assignment.IndicesDense` | src/rpc.rs:302-309 | the numbering is a bijection of coordinator and listed peers onto 0..n-1, the coordinator at 0 |
| `Assignment.AssignIndices` | src/rpc.rs:302-309 | the numbering loop: dense, and the j-th listed peer gets j + 1 |
| `NodeObject.AssignmentNode.constructor` | src/network.rs:259-313 | a new node knows no peer and no session |
| `NodeObject.AssignmentNode.PeerIdentified` | src/network.rs:1356-1383 | adds an unknown peer that is not the node itself, and counts it |
| `NodeObject.AssignmentNode.ConnectionClosed` | src/network.rs:1476-1483 | removes the peer from the list, leaves the others in their order, and decrements the counter with saturation |
| `NodeObject.AssignmentNode.AssignPeerIndices` | src/rpc.rs:295-368 | stores a session for exactly the listed peers and the node, densely numbered, and returns the request |
| `NodeObject.AssignmentNode.HandleAssignmentMessage` | src/network.rs:322-553 | one handler run equals the step of the N-node system; the orchestrator is replaced exactly when an installation is recorded, by a fresh idle one for its roster |
| `NodeObject.AssignmentNode.HandleRequest` | src/network.rs:332-464 | the request arm: what is stored, answered and installed, and which session is current afterwards |
| `NodeObject.AssignmentNode.HandleAcceptance` | src/network.rs:465-551 | the acceptance arm: what is recorded and whether it completes the session |
| `NodeObject.AssignmentNode.InstallOrchestrator` | src/network.rs:427-438 | the installed orchestrator is new, idle and has the assignment's roster |
| `PartyIndices.CastInjective` | src/network.rs:409 | the cast keeps party indices distinct if and only if there are at most 65536 nodes |
| `PartyIndices.AcceptsExactlyParticipants` | src/rpc.rs:772-788 | the signer check accepts exactly the participants' indices if and only if there are at most 65535 nodes |
| `PartyIndices.SignerIsOneNode` | src/mpc/orchestrator.rs:804-812 | every accepted signer index belongs to exactly one node |
| `PartyIndices.SigningRefusedForSigners` | src/rpc.rs:761-788 | the signing call is refused for its signers exactly if there are none or one names nobody |
| `HandshakeProof.ReachableInv` | src/network.rs:322-553 | every reachable state of N nodes keeps the invariant under loss, reordering and interleaved RPC calls |
| `HandshakeTheorems.ReadinessBarrier` | src/network.rs:465-543 | once the coordinator has decided to install its orchestrator, every other assigned node has published its acceptance and installed its own |
| `HandshakeTheorems.CoordinatorInstallsExactlyWhenAllAccepted` | src/network.rs:488-543 | the coordinator joins if and only if it has peers and all their acceptances have been delivered |
| `HandshakeTheorems.InstallsAtMostOnce` | src/network.rs:437-438 | no node installs twice for one session |
| `HandshakeTheorems.OnlyCoordinatorCompletes` | src/network.rs:465-488 | elsewhere the acceptances are a subset of the assigned nodes without coordinator and node, and never suffice |
| `HandshakeTheorems.AcceptancesExact` | src/network.rs:470-473 | the coordinator's record is exactly the set of peers whose acceptance was delivered |
| `HandshakeTheorems.NoUnknownSession` | src/network.rs:545-550 | the coordinator never meets an acceptance for a session it does not know |
| `HandshakeTheorems.DeliveryNeverBlocked` | src/network.rs:473-476 | in every reachable state the session arithmetic is sound, so a delivery is possible exactly if the message is new to a free node and not its own |
| `HandshakeTheorems.CoordinatorConfirmationIsDead` | src/network.rs:358-369 | no node ever takes a request of its own, so that branch is never taken |
| `HandshakeTheorems.Agreement` | src/network.rs:502-532 | any two nodes that install for a session hold the same party map and participant sequence |
| `HandshakeTheorems.InstalledRosterDense` | src/network.rs:402-433 | each installed roster is that of a dense assignment which contains the node |
| `SessionCompletion.SessionCompletesExactly` | src/network.rs:332-543 | from every reachable state, a session can be run to the point where all its nodes have installed if and only if it has at least two nodes, all are there, and none has taken the request without publishing its acceptance |
| `SessionCompletion.FailedPublishBlocks` | src/network.rs:445-451 | after one failed publish of an acceptance, on every further run the session is never completed |
| `SessionCompletion.FreshSessionIsOpen` | src/rpc.rs:328-368 | a session that has just been created for peers that are there can be completed, and each of its peers can come to fail its publish |
| `SameSecond.OverwritesExactly` | src/rpc.rs:312-331 | an assign call changes a stored session if and only if the node has made one in the same second and an acceptance has come in or the numbering has changed |
| `SameSecond.RepeatLosesAcceptances` | src/rpc.rs:328-331 | with the same numbering, recorded acceptances are lost on every further run, and a session incomplete by then is never completed |
| `SameSecond.RepeatMixesSessions` | src/rpc.rs:312-331 | with a new peer, the second session overwrites the first and takes acceptances of the first request |
| `TwoRosters.RostersDiffer` | src/rpc.rs:312-331 | a run of three nodes in which two hold the roster of the second session and one that of the first, under one session id |
| `Routing.RoutedExactly` | src/network.rs:989-1093 | a point-to-point message reaches exactly the other node with that index, a broadcast every other participant, labelled with sender index and kind |
| `Routing.WireFormat` | src/network.rs:713-728 | the wire message of an outgoing one: sender, recipient, the text "broadcast" or "p2p", payload |
| `Routing.ReceivedAs` | src/network.rs:1013-1057 | what a receiver makes of any wire message: the text "broadcast" and no other means a broadcast |
| `Routing.OutsidersGetNoPrivateMessage` | src/network.rs:1013-1027 | a node outside the session gets no point-to-point message |
| `Routing.NetworkCoordinator.RegisterParty` | src/test/mock.rs:63-71 | a registered party gets an empty channel |
| `Routing.NetworkCoordinator.BroadcastMessage` | src/test/mock.rs:73-83 | exactly every other channel grows by the message |
| `Routing.NetworkCoordinator.SendToParty` | src/test/mock.rs:86-100 | exactly the named channel grows by the message, an unknown name is an error |
| `Routing.NetworkCoordinator.Sink` | src/test/mock.rs:119-145 | what a sent message does to the channels, or that it panics |
| `GossipRefinement.AgreesExactlyIfProper` | src/test/mock.rs:119-145 | gossip and mock agree on a message if and only if it is for everybody or for some other participant |
| `GossipRefinement.GossipConserves` | src/network.rs:698-919 | in every run each mock channel is made up of what the node's channel holds, what it missed before the channel existed, what gossip still owes it and what gossip took for a repetition |
| `GossipRefinement.ChannelRefinesExactly` | src/network.rs:989-1327 | the channel of a node that has taken everything and missed nothing holds exactly what the mock would have delivered if and only if no repetition was meant for it |
| `GossipRefinement.GossipRefinesExactly` | src/network.rs:153-170 | when nothing is under way or came too early, all channels hold what the mock would have delivered if and only if no party has posted the same payload to the same recipient twice across the protocols, or there is no other party |
| `ExecutionIds.DecodeOfEncode` | src/mpc/aux_party.rs:98-109 | an id decodes to protocol, count and timestamp for every protocol name, u16 and u64 |
| `ExecutionIds.EncodeOfDecode` | src/mpc/keygen_party.rs:43-54 | exactly the byte strings of ten bytes or more are ids, each of what it decodes to |
| `ExecutionIds.EncodeInjective` | src/mpc/signing_party.rs:48-59 | ids are equal exactly if their fields are |
| `ExecutionIds.IdBytes` | src/mpc/aux_party.rs:98-109 | the ids of aux, keygen and signing tasks byte by byte: name, two bytes of the count, eight of the time, the heavy bytes first |
| `ExecutionIds.CreateSharedExecutionId` | src/mpc/signing_party.rs:48-59 | the buffer built field by field is the id that decodes to the arguments |
| `ExecutionIds.SharedExactly` | src/mpc/signing_party.rs:111 | two tasks share an id exactly if protocol, count and second agree |
| `ExecutionIds.OwnTasksNeverShare` | src/mpc/aux_party.rs:158 | no orchestrator runs two tasks under one id |
| `Parties.ProtocolParty.constructor` | src/mpc/aux_party.rs:32-39 | a new party owns the receiving end of its channel |
| `Parties.ProtocolParty.CreateMpcChannels` | src/mpc/aux_party.rs:117-146 | the receiver is taken; a second take panics |
| `Parties.ProtocolParty.GenerateAuxInfo` | src/mpc/aux_party.rs:150-197 | derives the aux_gen id of count and timestamp and takes the channel |
| `Parties.ProtocolParty.GenerateKeyShare` | src/mpc/keygen_party.rs:95-117 | derives the keygen id of count and timestamp and takes the channel |
| `Parties.ProtocolParty.SignMessage` | src/mpc/signing_party.rs:100-117 | derives the signing id of the cast number of signers and timestamp and takes the channel |
| `Parties.StartTask` | src/mpc/orchestrator.rs:498-511 | a spawned task runs under its job's id and always gets its channel |
| `EndToEnd.EveryTaskHasItsCall` | src/mpc/orchestrator.rs:384-414 | every task of every run works for a delivered request with exactly its parameters; a signing task's index is among the signers |
| `EndToEnd.TasksMeetExactly` | src/mpc/keygen_party.rs:111 | tasks of two nodes run under one id if and only if their messages agree in protocol, count and second |
| `EndToEnd.OneIdentity` | src/mpc/orchestrator.rs:636-644 | all tasks of a node run under the one index of the session's roster, which is the index the router filters by |
| `EndToEnd.TasksTalk` | src/network.rs:1013-1057 | a message to the index of another node's task reaches that node only, labelled with the sending task's index |
| `EndToEnd.AuxAndKeygenCountAgree` | src/mpc/orchestrator.rs:504 | the aux and keygen tasks of a node count the same parties if and only if the cast number of nodes is three |

## Left out

- The cryptography: a task ends at any time with a result of its own phase or an error.
- Transport, peer discovery and gossip mesh: what remains is that a node takes each published message at most once
  and never its own.
- SameSecond.RepeatLosesAcceptances: gossip remembers message ids for a limited time, the model for good, so it does
  not show an acceptance that is published anew after that time. The same holds for repetitions in
  `GossipRefinement`. Message ids are taken to be the bytes; collisions of the hash are left out.
- Failure to publish a request or a protocol message: it is the same as a message that never leaves the queue.
  Failure to publish an acceptance is modelled, because the handler's behaviour depends on it.
- Serialization, and the text form of peer ids: an id is a number and its text the same number, so text that does
  not parse does not occur. Session ids are pairs of peer and seconds instead of text.
- The tag the orchestrator's `create_execution_id` derives is a parameter of the RPC call.
- Instants, durations, metrics, logging, `created_at`, `completed_parties`, `success_count`.
- The legacy copies of assignments and acceptances, which nothing but a status call reads.
- `abort_protocol`, the bodies still to be written, timeouts other than the signature poll's: nothing calls them.
- Command line, configuration, server start-up, prime caches.
- What the event loop does without the outer lock is no step of `NodeRuntime`, and the poll's timeout may come at any
  time; `SignaturePoll` has the clock.
- The order in which a channel holds its messages: `GossipRefinement` speaks of multisets, since gossip may
  reorder and the mock does not.
- Three party structs: one class stands for them, since they differ in the type of their messages only.
- The width of `usize`: the number of peers and nodes is unbounded; the casts to 16 bits are modelled.

# Consensus core of the EPaxos laboratory, verified

The laboratory compares consensus implementations behind one benchmark. This
project models what those implementations promise and proves it: the EPaxos
state machine and executor of `nvb-epaxos`, the write-ahead log and append
thread of the etcd adapter, the executor, conflict index and wire format of
`efficient/epaxos`, the adapter's outbox, and the key/value store on top. All
files verify together with `dafny verify dfyconfig.toml`.

## The system

**`nvb-epaxos`.** Each command has one leader, which gives it an instance in its
own row, a sequence number and dependencies, and asks the others to pre-accept
it. They add what they know and answer; the leader merges the answers, commits
when all but one replica agree with it, and otherwise has a majority accept the
merged attributes first. Dependencies are pruned: a scan down each row stops
noting older commands that newer writes already reach. Whatever commits goes to
an executor that finds strongly connected components in the part of the graph
that is known, after every commit.

The main results form one chain, each for every reachable state of every run
with any number of replicas from two on:

1. agreement on each committed instance, and a quorum behind each commit
   (`Safety`); what each request, message and tick does is also said in plain
   numbers, without the functions that compute it (`Proposals`, `Progress`): the
   attributes a replica computes, the very reply with which a leader goes on, and
   that none sits on enough replies;
2. two interfering instances that are past pre-acceptance are connected in the
   graph of leader-held dependencies, although no replica's set is complete
   (`Interference`);
3. every component that a replica executes is one whole component of the global
   committed graph, although the replica sees only part of it
   (`Order.WholeComponents`), and nothing waits without cause
   (`Order.WaitingIsBlocked`);
4. so two interfering commands execute in the same order everywhere
   (`Order.SameOrder`, `Order.SameOrderForever`), and in every run in which
   clients go through the adapter, replicas with the same executed set have the
   same store and gave the same answers (`Convergence`).

Step 4 has an exception that the source's comment at
`lab/upstream/nvb-epaxos/epaxos/instance.go:90-94` denies: members of one
component can have the same sequence number *and* the same leader. `Ties.TieExact`
shows that such pairs, and no others, may come out either way, and
`Witness.TiesDiverge` gives a reachable state of three replicas, 21 steps from the
start, whose stores differ because of it.

**The log of the etcd adapter.** Framed records, one write and at most one force
per batch, replay that holds entries back until the next hard state. Replay
equals applying the items in order exactly when entries appended between hard
states are contiguous (`Wal.ReplayExact`, with an input of the functions on which
it fails in `Wal.OverlapReplaysWrong`). They are when raft goes back in its log
only with or after a change of term (`Appending.OrderlyRuns`), and so the append
thread's file replays to its memory storage (`Appending.LogMatchesMirror`). A cut
log gives a whole-record state or an error. Responses leave last
(`Appending.ReleasedLast`), and all of them do, each in its place
(`Appending.AllReleased`). That does not make a response a promise about
everything before it: the source forces only a batch that has something to write
and somebody waiting. The whole file is on disk exactly when every batch that
wrote was waited for or followed by such a batch (`Appending.AllForcedExact`),
and `Appending.EarlyResponse` is a run of two batches in which a response leaves
while a term change is not on disk yet.

**`efficient/epaxos`.** The second executor executes components during the
search, does without an on-stack test, and follows intervals of dependencies
from the end of the executed prefix; all three are shown to lose nothing. The
conflict table equals a scan of the instances in every state of every run,
whatever is handled in whatever order (`EagerRuns.TableAlways`). The committed
frontier is exact throughout a run if and only if no PreAccept is handled for an
executed instance at or below it (`EagerRuns.FrontierExact`). In runs of the
whole system that never happens, thrifty or not, as long as no peer is sent one
request twice (`EagerSystem.FrontiersRight`): a thrifty leader asks no more peers
than it needs answers (`EagerSystem.ThriftyWaits`), and otherwise commits go out
without commands, for which execution waits. One cause of a second request is in
the code: with the beacon option, the end of the adapting phase swaps entries of
the list of peers (`lab/upstream/epaxos/src/epaxos/epaxos.go:262-280`) in a
goroutine of its own, while a broadcast may be running over it.
`EagerSystem.LatePreAccept` is a run in which this makes a frontier wrong.

Three more promises are false as coded, with exact conditions. The loop over a
batch can stop below the index it needs (`EagerIndex.BatchDep`,
`EagerIndex.BatchMissesDep`). The flag `allEqual` does not compare agreements, so
that the fast path counts an agreement to attributes that an earlier answer has
already changed (`EagerLeader.FastAgrees`, `EagerLeader.MixedAnswers`). A
PreAcceptReply does not survive the wire unless four words happen to agree
(`Wire.UnchangedExact`, `Wire.FirstReplyChanged`).

## Layout

| files | content |
|---|---|
| Types, State, Scan, Handlers | identifiers, commands, one replica's state, the pruned scan, the message handlers as functions on that state |
| Graph, Tarjan, Schedule, Executor | reachability and components, Tarjan's invariant, what a run must execute, the executor with its heap of nodes |
| Timers, Replica | the timer and the replica as objects with fields, each method proved equal to its handler |
| Cluster, Frame, Steps, Local, Runs | all replicas and their links, the invariant, and its preservation by every step |
| Proposals, Progress | what requests, replies and ticks do in every run, in plain numbers |
| Safety, Growth, Interference, History, Order, Ties, Store, Convergence, Witness | the results above |
| Outbox | the adapter's queue and sender as interleaved steps, and the code that takes them |
| Wal, AppendThread | the etcd adapter's log and append thread |
| EagerExecutor, EagerIndex, EagerRuns | the executor of `efficient/epaxos`, a replica's tables, and runs of one replica |
| EagerLeader, EagerSystem, Wire | its leader's counting and deciding, all replicas together, and the wire format |

A replica appears twice: as a value that handlers map to a value, which the
cluster's steps and invariants speak about, and as an object (`Replica.Epaxos`)
whose methods follow the source's control flow and whose contracts say that the
value before and after are related by the handler.

## Model

| member | source | states |
|---|---|---|
| Order.SameOrder | lab/upstream/nvb-epaxos/epaxos/execute.go:59-71 | In every reachable state, two interfering instances that two replicas have both executed were executed in the same order by both, and in one order only, unless they share a component, a sequence number and a leader |
| Order.SameOrderForever | lab/upstream/nvb-epaxos/epaxos/execute.go:184-212 | The same for different moments of one run: the order a replica has shown once is the order every other replica shows later |
| Order.WholeComponents | lab/upstream/nvb-epaxos/epaxos/execute.go:125-143 | Every component a replica executes, from the part of the graph it has seen committed, is exactly one strongly connected component of the graph of everything committed anywhere, and leads only to itself and to components executed before it |
| Order.BlockAscends | lab/upstream/nvb-epaxos/epaxos/instance.go:90-101 | In every reachable state and every component a replica has executed, sequence numbers never fall from one position to a later one, and between equal ones the numbers of the leaders never fall |
| Order.WaitingIsBlocked | lab/upstream/nvb-epaxos/epaxos/execute.go:184-204 | Nothing waits without cause: whatever is committed but not executed at a replica reaches an instance that this replica has not seen committed |
| Order.DeliveredOnce | lab/upstream/nvb-epaxos/epaxos/instance.go:134-136 | The commands delivered are those of the executed instances, each exactly once, in the order of execution |
| Order.FirstForever | lab/upstream/nvb-epaxos/epaxos/execute.go:214-217 | Once two instances have executed at a replica their order there never changes |
| Interference.InterferingConnected | lab/upstream/nvb-epaxos/epaxos/command.go:67-127 | In every reachable state, of any two interfering instances past pre-acceptance one reaches the other through dependencies their leaders hold, by intersection of majorities and although dependency sets are pruned |
| Interference.PrunedScanReaches | lab/upstream/nvb-epaxos/epaxos/command.go:81-126 | Whatever the pruned scan leaves out is reachable from something it returns through leader-held dependencies, at that moment and at every later moment of the run |
| Interference.RunPairs | lab/upstream/nvb-epaxos/epaxos/instance.go:193-230 | Along every run: in each leader's row a later interfering instance reaches every earlier one, and at each replica of two known interfering instances the second to be pre-accepted covers the first |
| Interference.MajoritiesMeet | lab/upstream/nvb-epaxos/epaxos/epaxos.go:297-300 | Two sets of replicas that each pass the quorum test share a member |
| Safety.Agreement | lab/upstream/nvb-epaxos/epaxos/instance.go:322-332 | All replicas on which an instance is committed or executed, at whatever moments of a run, hold the same command, sequence number and dependency set |
| Safety.DecisionForever | lab/upstream/nvb-epaxos/epaxos/instance.go:299-308 | A committed instance stays committed and its contents never change |
| Safety.ChosenOnQuorum | lab/upstream/nvb-epaxos/epaxos/instance.go:274-320 | Every commit rests on all replicas but one that computed exactly the committed attributes and answered only PreAcceptOK, or on a majority that accepted exactly them |
| Safety.NoPanic | lab/upstream/nvb-epaxos/epaxos/instance.go:139-149 | No reachable state contains a replica that has requested a transition outside the table, executed an instance in the wrong state or met an instance without a command |
| Safety.TimerExact | lab/upstream/nvb-epaxos/epaxos/instance.go:274-297 | The slow-path timer is registered exactly when it is running, and exactly when the replica leads a pre-accepted instance with a majority but not a fast quorum of replies, all equal so far |
| Progress.ReplyHeard | lab/upstream/nvb-epaxos/epaxos/instance.go:248-320 | In every run, each reply that the leader waits for has its effect, in plain numbers: the AcceptOK after which twice the replicas that have accepted, the leader among them, exceed their number commits the instance and no earlier one does; an answer to a PreAccept is merged, noted as different exactly when it brought something new, and commits, starts the slow path or is only counted, by the same arithmetic; the counters are the repliers, and everybody else is told of exactly that step |
| Progress.StillShort | lab/upstream/nvb-epaxos/epaxos/instance.go:274-320 | In every reachable state an instance accepted at its leader has no majority of acceptors, and one pre-accepted there no majority of differing repliers and not all but one of agreeing ones: no leader sits on enough replies |
| Progress.TickHeard | lab/upstream/nvb-epaxos/epaxos/instance.go:23-38 | In every run a tick moves exactly the timers that run: the first counts, the second ends the wait, makes the instance Accepted and asks everybody else to accept it |
| Proposals.PreAcceptHeard | lab/upstream/nvb-epaxos/epaxos/instance.go:193-230 | In every run, whoever reads a request to pre-accept then holds the least sequence number that is not below the offered one and above that of every instance its scan meets, and the offered dependencies with those due by the scan; it answers PreAcceptOK if and only if the offer had all of that already. Said without the scan, for any spans |
| Proposals.RequestMade | lab/upstream/nvb-epaxos/epaxos/command.go:141-156 | In every run a client's command becomes the next instance of its replica's row with the least sequence number above all the scan meets, exactly the dependencies due, and one PreAccept to every other replica |
| Safety.PendingExact | lab/upstream/nvb-epaxos/epaxos/command.go:158-164 | The executor's vertices are exactly the instances that are committed and not executed |
| Runs.ReachableInv | lab/upstream/nvb-epaxos/epaxos/epaxos.go:193-236 | The invariant of the whole system holds in every reachable state: what each message says about its sender, which was sent before which, what each reply counter counts |
| Growth.NextGrows | lab/upstream/nvb-epaxos/epaxos/instance.go:248-272 | A step never shrinks a leader's dependencies, never changes a stored command, never alters a committed copy, and adds at most one instance to a replica |
| Ties.TieExact | lab/upstream/nvb-epaxos/epaxos/instance.go:90-101 | For two members of one executed component the executor may produce the opposite order if and only if they have the same sequence number and the same leader |
| Witness.TiesDiverge | lab/upstream/nvb-epaxos/epaxos/instance.go:90-101 | A reachable state with three replicas in which two interfering instances of one leader share a component and a sequence number, two replicas have executed the same instances in different orders, and their stores differ: the comment's assumption is false |
| Convergence.StoresAgree | lab/adapters/nvbepaxos/main.go:233-245 | In every state of every run in which clients go through the adapter, replicas that have executed the same instances have the same store, unless two of those instances interfere and tie |
| Convergence.AnswersAgree | lab/adapters/nvbepaxos/main.go:129-139 | Under the same conditions the instance at one place of one log and another of the other was given the same answer |
| Convergence.OrdersAgree | lab/upstream/nvb-epaxos/epaxos/execute.go:205-211 | Under the same conditions every two conflicting commands were executed in the same order at both |
| Convergence.AdapterCommands | lab/adapters/nvbepaxos/main.go:385-420 | In every state of a run whose requests are the adapter's, every command any replica knows is one that the adapter built |
| Execution.Executor.Run | lab/upstream/nvb-epaxos/epaxos/execute.go:59-71 | One run executes exactly the largest set of pending instances whose dependency closure lies within the pending and executed ones, as whole components with dependencies first and, inside each, sequence numbers and then leaders ascending, and removes exactly those |
| Execution.Executor.StrongConnect | lab/upstream/nvb-epaxos/epaxos/execute.go:125-143 | Tarjan's algorithm on any finite graph with cycles and dangling ids: the components partition the vertices, each is strongly connected and maximal, and edges between components lead to earlier ones |
| Execution.Executor.Visit | lab/upstream/nvb-epaxos/epaxos/execute.go:156-182 | The recursive search ends and keeps the search invariant; a visited vertex is left on the stack or in a finished component, with a lowlink no older stack vertex undercuts |
| Execution.Executor.VisitDep | lab/upstream/nvb-epaxos/epaxos/execute.go:164-171 | One dependency: visited if new, noted if on the stack, passed over otherwise |
| Execution.Executor.Finish | lab/upstream/nvb-epaxos/epaxos/execute.go:173-181 | The vertices above the root come off the stack as one component, or the vertex stays |
| Execution.Executor.ExecuteSCC | lab/upstream/nvb-epaxos/epaxos/execute.go:184-212 | A component executes if and only if each dependency of each member lies inside it or has executed; then all its members do, once, with sequence numbers that never fall and, between equal ones, leaders that never fall |
| Execution.Executor.MayExecute | lab/upstream/nvb-epaxos/epaxos/execute.go:185-203 | The nested loops decide exactly that condition |
| Execution.Executor.Sort | lab/upstream/nvb-epaxos/epaxos/execute.go:205-208 | A permutation of the component in which sequence numbers never fall and, between equal ones, the numbers of the leaders never fall |
| Execution.Executor.AddExec | lab/upstream/nvb-epaxos/epaxos/execute.go:79-81 | Exactly one vertex is added or replaced |
| Tarjan.AboveIsScc | lab/upstream/nvb-epaxos/epaxos/execute.go:173-181 | What lies above the root on the stack is one whole strongly connected component |
| Tarjan.LowTree | lab/upstream/nvb-epaxos/epaxos/execute.go:165-167 | After a tree edge the smaller of the two lowlinks again reaches as low as any edge seen so far |
| Tarjan.LowBack | lab/upstream/nvb-epaxos/epaxos/execute.go:168-170 | After an edge to a vertex on the stack, the same for the smaller of lowlink and that vertex's index |
| Tarjan.LowDone | lab/upstream/nvb-epaxos/epaxos/execute.go:168-170 | An edge to a finished component or a dangling id changes nothing |
| Tarjan.SearchOver | lab/upstream/nvb-epaxos/epaxos/execute.go:136-142 | When every vertex has been visited the components found are all there are |
| Schedule.StepReady | lab/upstream/nvb-epaxos/epaxos/execute.go:64-67 | A component passes the check if and only if its members' whole dependency closure is pending or executed |
| Schedule.RunDone | lab/upstream/nvb-epaxos/epaxos/execute.go:59-71 | After the last component exactly the ready instances have executed |
| Scan.SeqAndDepsSound | lab/upstream/nvb-epaxos/epaxos/command.go:95-119 | Every dependency returned is a known interfering instance other than the ignored one, with a sequence number at most the maximum returned |
| Scan.SeqAndDepsCovers | lab/upstream/nvb-epaxos/epaxos/command.go:81-126 | Every known interfering instance is returned or lies below a returned write of its own row that touches one of its keys |
| Scan.ScanRowExact | lab/upstream/nvb-epaxos/epaxos/command.go:81-119 | With single keys, the scan of a row returns exactly the interfering instances after which the row has no interfering write |
| Scan.SeqAndDepsExact | lab/upstream/nvb-epaxos/epaxos/command.go:67-127 | With any spans and any rows: exactly the interfering instances are returned that no stop lies above in their row and that add a key to, or for a read share none with, the writes above them; the maximum is the largest sequence number among all those no stop lies above |
| Scan.RowOrder | lab/upstream/nvb-epaxos/epaxos/command.go:81-126 | The outcome of a scan does not depend on the order of the rows |
| Types.OverlapsIffSharedKey | lab/upstream/nvb-epaxos/epaxos/epaxospb/command.go:33-42 | The four-way comparison of end points holds if and only if the spans share a key |
| Types.InterferesSymmetric | lab/upstream/nvb-epaxos/epaxos/epaxospb/command.go:53-55 | Interference is symmetric |
| Types.InterferesExact | lab/upstream/nvb-epaxos/epaxos/epaxospb/command.go:53-55 | Two commands interfere if and only if one of them writes and some key is the point of, or inside the half-open range of, both |
| Handlers.ExecuteAllDelivers | lab/upstream/nvb-epaxos/epaxos/instance.go:134-136 | Executing a list of committed instances one transition at a time delivers their commands in that order and marks exactly them |
| Runs.RequestKeeps | lab/upstream/nvb-epaxos/epaxos/command.go:141-156 | A client's request keeps the system's invariant |
| Steps.PreAcceptsKeeps | lab/upstream/nvb-epaxos/epaxos/instance.go:193-230 | Pre-accepting at another replica keeps the invariant of the instance |
| Steps.CountsReplyKeeps | lab/upstream/nvb-epaxos/epaxos/instance.go:238-272 | Counting and merging a PreAccept reply keeps it |
| Steps.AdvancesKeeps | lab/upstream/nvb-epaxos/epaxos/instance.go:274-297 | The leader's move to Accepted or Committed with its broadcast keeps it |
| Steps.AcceptsKeeps | lab/upstream/nvb-epaxos/epaxos/instance.go:299-308 | Accepting at another replica keeps it |
| Steps.CountsAckKeeps | lab/upstream/nvb-epaxos/epaxos/instance.go:310-320 | Counting an AcceptOK keeps it |
| Steps.LearnsKeeps | lab/upstream/nvb-epaxos/epaxos/instance.go:322-332 | Learning of the commit keeps it |
| Steps.IgnoresKeeps | lab/upstream/nvb-epaxos/epaxos/instance.go:239-242 | Ignoring a late reply keeps it |
| Replica.Epaxos.Step | lab/upstream/nvb-epaxos/epaxos/epaxos.go:193-236 | One message against the fields of a replica, with validation, creation of the instance and dispatch, has exactly the effect that the cluster's Deliver step has on a node, executor pass included |
| Replica.Epaxos.SeqAndDepsForCommand | lab/upstream/nvb-epaxos/epaxos/command.go:67-127 | The descending loops compute the pruned scan, the rows being visited in an arbitrary order, as a map gives them |
| Replica.Epaxos.OnRequest | lab/upstream/nvb-epaxos/epaxos/command.go:141-156 | Exactly one new instance with the smallest unused number and one PreAccept to every other replica; its sequence number is the least above all that interferes and is not shadowed, and its dependencies are exactly those due, both said over the known instances |
| Replica.Epaxos.OnPreAccept | lab/upstream/nvb-epaxos/epaxos/instance.go:193-230 | Afterwards the stored sequence number is the least that is not below the proposal and above all that the scan meets, the dependencies are the proposal's and those due, and PreAcceptOK is sent if and only if the proposal had all of it; said over the known instances and the proposal. Refines the handler on node values |
| Replica.Epaxos.OnPreAcceptReply | lab/upstream/nvb-epaxos/epaxos/instance.go:248-272 | Merge, note of difference and count, and then commit, slow path or nothing, by the number of replies in plain arithmetic, with the broadcast that belongs to it; refines the handler on node values |
| Replica.Epaxos.OnEitherPreAcceptReply | lab/upstream/nvb-epaxos/epaxos/instance.go:274-297 | Refines the decision on node values: fast path, slow path, timer or nothing |
| Replica.Epaxos.OnAccept | lab/upstream/nvb-epaxos/epaxos/instance.go:299-308 | Unless decided, the instance is Accepted with the given attributes and an AcceptOK goes to its leader; refines the handler on node values |
| Replica.Epaxos.OnAcceptOK | lab/upstream/nvb-epaxos/epaxos/instance.go:310-320 | One more AcceptOK is counted, and the instance commits exactly when twice the acceptors, with the leader, exceed the number of replicas, and then everybody is told; refines the handler on node values |
| Replica.Epaxos.OnCommit | lab/upstream/nvb-epaxos/epaxos/instance.go:322-332 | Unless decided already, the instance takes over command and attributes and is committed, or executed by the pass that follows; refines the handler on node values |
| Replica.Epaxos.TransitionTo | lab/upstream/nvb-epaxos/epaxos/instance.go:139-149 | The table's action for the pair of states, or a panic for any other pair |
| Replica.Epaxos.PrepareToExecute | lab/upstream/nvb-epaxos/epaxos/command.go:158-164 | The instance becomes a vertex and one executor run delivers what is ready |
| Replica.Epaxos.RunPass | lab/upstream/nvb-epaxos/epaxos/execute.go:59-71 | On the replica's own instances the executor's run is one the cluster model allows, and touches nothing but the pending set |
| Replica.Epaxos.Tick | lab/upstream/nvb-epaxos/epaxos/epaxos.go:163-167 | Every registered timer ticks once, in any order; a timer that fires starts the slow path of its instance |
| Replica.Epaxos.RegisterOneTimeTimer | lab/upstream/nvb-epaxos/epaxos/epaxos.go:176-182 | The timer runs from zero and is in the registry |
| Replica.Epaxos.UnregisterTimer | lab/upstream/nvb-epaxos/epaxos/epaxos.go:184-187 | The timer stops and leaves the registry |
| Replica.Epaxos.Broadcast | lab/upstream/nvb-epaxos/epaxos/messaging.go:17-23 | One copy to every other replica, in the order of the configuration |
| Replica.Epaxos.TakeReady | lab/upstream/nvb-epaxos/epaxos/node.go:91-114 | Messages and executed commands are handed out once, in order: what has been taken and what waits together are what was produced |
| Replica.DepSlice | lab/upstream/nvb-epaxos/epaxos/instance.go:356-364 | A dependency set becomes a list of exactly its members, strictly ascending by replica and then number |
| Timers.TickingTimer.Tick | lab/upstream/nvb-epaxos/epaxos/timer.go:22-32 | A paused timer does nothing; a running one counts, and fires and pauses exactly when the count reaches the timeout |
| Timers.TickingTimer.Reset | lab/upstream/nvb-epaxos/epaxos/timer.go:34-37 | Running, from zero |
| Timers.TickingTimer.Stop | lab/upstream/nvb-epaxos/epaxos/timer.go:44-47 | Paused, at zero |
| Store.SameStore | lab/internal/state/state.go:90-116 | Two sequences of the same commands that agree on the order of every conflicting pair give the same store |
| Store.SameAnswer | lab/internal/state/state.go:90-116 | and the same answer to each command |
| Store.AnswerExact | lab/internal/state/state.go:90-116 | In any sequence of commands the answer at position i is the put value for a PUT, for a GET the value of the last PUT on its key before i, or 0 if there is none, and 0 otherwise |
| Store.ReplayHolds | lab/internal/state/state.go:90-116 | After any sequence the store holds at each key the value of the last PUT on it, and nothing at a key never put |
| Store.ConflictBatch | lab/internal/state/state.go:75-84 | True exactly when some command of one batch and some command of the other have the same key and one of them is a PUT |
| Store.State.Execute | lab/internal/state/state.go:90-116 | A PUT sets its key and answers its value; a GET changes nothing and answers what the key holds, or 0; any other operation changes nothing and answers 0 |
| Store.State.ExecuteAll | lab/adapters/nvbepaxos/main.go:233-245 | Every command with a payload is answered, in order, and no other: the answer stands at the number of payloads before it and is its own value for a PUT and the value last put on its key, over all the commands ever executed, for a GET; the store then holds the values put last |
| Store.WrapPreservesConflict | lab/adapters/nvbepaxos/main.go:385-420 | The adapter's wrapping of a key/value command interferes exactly when the key/value commands conflict |
| Outbox.OutboxSafe | lab/adapters/nvbepaxos/main.go:249-325 | In every interleaving of the enqueuer and the sender: a non-empty queue implies a token, an enqueuer about to leave one, or a sender that is not waiting; and each peer that no send failed to has been sent exactly its part of what was enqueued, up to what is in hand or queued, in order and once |
| Outbox.FailedExact | lab/adapters/nvbepaxos/main.go:321-350 | In every run the peers to which messages may be missing are exactly those to whom some send was cut short or failed to close |
| Outbox.EnqueuedExact | lab/adapters/nvbepaxos/main.go:249-257 | In every run what counts as enqueued is exactly what was handed over, in order |
| Outbox.Drains | lab/adapters/nvbepaxos/main.go:273-295 | Without new requests the outbox comes to rest within a number of steps known beforehand, whichever goroutine moves when, and then the queue is empty and everything for a peer without failures has been sent |
| Outbox.IdleIffStuck | lab/adapters/nvbepaxos/main.go:273-295 | Neither goroutine can move exactly when the sender waits, there is no token and nobody is about to leave one |
| Outbox.LinkIsSent | lab/adapters/nvbepaxos/main.go:268-272 | The links that the protocol's model reads are what the outbox sends: each read takes the next message of the sequence for that peer |
| Outbox.Server.Enqueue | lab/adapters/nvbepaxos/main.go:249-257 | The first half of enqueue, under the mutex, is the model's step |
| Outbox.Server.LeaveToken | lab/adapters/nvbepaxos/main.go:262-265 | The second half, a send that does not block, is the model's step |
| Outbox.Server.TakeBatch | lab/adapters/nvbepaxos/main.go:279-288 | Taking the whole queue, by addressee, or going back to wait, is the model's step |
| Outbox.Server.GroupByPeer | lab/adapters/nvbepaxos/main.go:313-319 | The peers are the addressees other than the replica itself, and each message addressed to one stands in its list at the number of such messages before it, with no others |
| Outbox.Server.SendTo | lab/adapters/nvbepaxos/main.go:329-350 | A stream takes the first n messages, which are then sent, and is closed; fewer than all of them, or an error on closing, is a failure of the peer |
| Wal.Log.AppendBatch | lab/adapters/etcdraft/wal.go:95-117 | The file grows by exactly the records of the items in order, in one write, and is forced only if asked and if there was anything to write |
| Wal.LoadWal | lab/adapters/etcdraft/wal.go:125-183 | The replay loop computes the specification: entries wait for the next hard state or the end of the file and are then appended together |
| Wal.LoadPrefix | lab/adapters/etcdraft/wal.go:137-182 | Any byte prefix of a well-formed log gives exactly the state of the records it holds whole if fewer than four bytes follow them, and an error otherwise |
| Wal.ReplayIsApply | lab/adapters/etcdraft/wal.go:57-117 | For items whose entries are contiguous between hard states, loading what was written is the same as applying the items in order |
| Wal.ReplayExact | lab/adapters/etcdraft/wal.go:125-183 | Loading equals applying at every point of the log if and only if entries appended between hard states go on where those before left off |
| Wal.AppendPieces | lab/adapters/etcdraft/wal.go:157-176 | Appending two runs of entries separately equals appending them together if and only if they are contiguous |
| Wal.OverlapReplaysWrong | lab/adapters/etcdraft/wal.go:157-176 | An input of the two functions on which replay differs from applying: an index rewritten with no hard state before it. Raft never produces it (`Appending.OrderlyRuns`) |
| Wal.BatchesJoin | lab/adapters/etcdraft/wal.go:95-117 | Writing items as one batch or as two gives the same bytes |
| Wal.U32RoundTrip | lab/adapters/etcdraft/wal.go:76-82 | The length field gives the length back modulo its width |
| Wal.FrameLayout | lab/adapters/etcdraft/wal.go:76-82 | A record's bytes: four of length, kind included, the most significant first, then 1 for a hard state or 2 for an entry, then the body |
| Wal.ReadExact | lab/adapters/etcdraft/wal.go:125-183 | What replay can read at any place of any file: fewer than four bytes are the end; a record is there if and only if its length is not zero, it is there whole, and its kind is known and its body decodes |
| Wal.AppendExact | lab/adapters/etcdraft/wal.go:157-176 | Storage after an append, index by index: new entries from the first new index on, old ones before it, nothing at a compacted index; it fails exactly on a gap |
| Appending.AppendThread.ProcessBatch | lab/adapters/etcdraft/main.go:592-675 | One batch: file, memory storage and compaction index are those of the messages in arrival order; response k of message i of the batch is released at the old length, plus the lengths of the lists of the messages before it, plus k, and nothing else is; and when somebody waits for the batch, everything in the file is on disk afterwards if and only if the batch had something to write or everything was on disk before |
| Appending.UnforcedExact | lab/adapters/etcdraft/wal.go:95-117 | After any batches, what batch j wrote is not known to be on disk if and only if no batch from j on both wrote and was waited for |
| Appending.AllForcedExact | lab/adapters/etcdraft/main.go:609-635 | At any time the whole file is on disk if and only if every batch that wrote was waited for or followed by one that wrote and was waited for |
| Appending.EarlyResponse | lab/adapters/etcdraft/wal.go:107-109 | Two batches after which a response has left while the term change before it is in the file and not on disk |
| Appending.AppendThread.Items | lab/adapters/etcdraft/main.go:609-626 | The items to write; force exactly if some message has a response; the index of the last entry of the last message that has one, or 0 |
| Appending.AppendThread.Mirror | lab/adapters/etcdraft/main.go:637-650 | Memory storage follows the batch, compacted as it is |
| Appending.AppendThread.Compact | lab/adapters/etcdraft/main.go:652-662 | Compaction by the thread's condition, and storage still the compacted log |
| Appending.AppendThread.Release | lab/adapters/etcdraft/main.go:664-674 | Response k of message i is released at the old length, plus the lengths of the lists of the messages before it, plus k; the released list grows by exactly the sum of the lengths, and what was there stays |
| Appending.AllReleased | lab/adapters/etcdraft/main.go:664-674 | At any time of any run every response of every message of every batch stands in the released list where the lengths of those before it put it, and nothing else is there; as a multiset, what is released is the sum of what the messages carry |
| Appending.LogMatchesMirror | lab/adapters/etcdraft/main.go:585-591 | At any time the file replays to the thread's memory storage, except for the entries compacted away, as long as raft goes back in its log only with or after a change of term and before anything is appended in the new term |
| Appending.OrderlyRuns | lab/adapters/etcdraft/wal.go:157-176 | Under that discipline of raft, entries appended between hard states go on where those before left off, which is what replay needs |
| Appending.ReleasedLast | lab/adapters/etcdraft/main.go:585-591 | Over a whole run, a response leaves after every message of its own and all earlier batches is stored in memory, and after every record of its own batch is written and forced |
| Appending.BatchReleasesLast | lab/adapters/etcdraft/main.go:628-674 | In one batch a response comes after all its messages are stored, and the write and the force, if a message had anything to write, are the first two accesses |
| Appending.BatchingIsInvisible | lab/adapters/etcdraft/main.go:599-607 | However the same messages are cut into batches, the file is the same |
| Appending.CompactionBounds | lab/adapters/etcdraft/main.go:652-662 | Along every run of batches compaction indices never fall, and each rise stays at or below the last index appended by some batch in between and that batch's applied index less the trailing entries |
| Appending.CompactionExact | lab/adapters/etcdraft/main.go:652-662 | After any run the index is zero or the highest of the targets that the condition allowed after any of its batches, and no lower than any of them |
| Appending.AppendCompacted | lab/adapters/etcdraft/main.go:637-642 | Appending to the compacted log is compacting the appended log |
| EagerExecution.Exec.FindScc | lab/upstream/epaxos/src/epaxos/epaxos-exec.go:47-52 | Executes exactly the root and everything it depends on that had not executed, each once, as whole components with dependencies first and sequence numbers in order, and afterwards every instance up to the number its deps name in each row has executed; following only dependencies above ExecedUpTo loses nothing |
| EagerExecution.Exec.StrongConnect | lab/upstream/epaxos/src/epaxos/epaxos-exec.go:54-134 | The search that executes as it pops keeps Tarjan's invariant and always succeeds |
| EagerExecution.Exec.VisitedIsStacked | lab/upstream/epaxos/src/epaxos/epaxos-exec.go:92-97 | A visited instance that has not executed is always on the stack: the omitted test is sound |
| EagerExecution.Exec.VisitRow | lab/upstream/epaxos/src/epaxos/epaxos-exec.go:70-100 | The interval above ExecedUpTo covers every dependency in the row that has not executed |
| EagerExecution.Exec.ExecuteFrom | lab/upstream/epaxos/src/epaxos/epaxos-exec.go:102-132 | The top of the stack executes in the order of sequence numbers and comes off as one component |
| EagerExecution.Exec.ExecuteCommand | lab/upstream/epaxos/src/epaxos/epaxos-exec.go:26-43 | True exactly when the instance has executed in the end, and exactly when it was committed or executed before |
| EagerExecution.Exec.ExecuteRow | lab/upstream/epaxos/src/epaxos/epaxos.go:484-513 | The pass over a row executes everything committed up to the first instance that is known but not committed, each once and after its dependencies, and ExecedUpTo stays the end of the executed prefix, stopping only at a hole or there |
| EagerExecution.JoinComps | lab/upstream/epaxos/src/epaxos/epaxos-exec.go:47-52 | Searches one after the other give components of the whole graph, not only of what was left |
| EagerExecution.SortBySeq | lab/upstream/epaxos/src/epaxos/epaxos-exec.go:106-107 | A permutation in ascending order of sequence numbers |
| EagerIndex.Replica.UpdateAttributes | lab/upstream/epaxos/src/epaxos/epaxos.go:763-792 | New dependencies row by row, the least sequence number above those of raised dependencies and of the keys, and changed exactly when the result differs |
| EagerIndex.Replica.UpdateConflicts | lab/upstream/epaxos/src/epaxos/epaxos.go:744-761 | Exactly the keys of the batch are raised to at least the instance in the row's map, and to at least the sequence number in the per-key map; every other key and row is as before |
| EagerIndex.Replica.UpdateCommitted | lab/upstream/epaxos/src/epaxos/epaxos.go:736-742 | The frontier becomes the end of the longest committed prefix |
| EagerIndex.Replica.MergeAttributes | lab/upstream/epaxos/src/epaxos/epaxos.go:794-814 | The greater of each but for the leader's own row; equal exactly when nothing off that row differs |
| EagerIndex.MergeAnyOrder | lab/upstream/epaxos/src/epaxos/epaxos.go:794-814 | The merged attributes do not depend on the order in which replies arrive |
| EagerIndex.OneCommandCovers | lab/upstream/epaxos/src/epaxos/epaxos.go:769-781 | With one command the new dependency covers every instance of the row known to touch its key, and is the old one or such an instance |
| EagerIndex.BatchDep | lab/upstream/epaxos/src/epaxos/epaxos.go:772-780 | With several commands it covers all their keys if and only if no later command has a larger index than the first command whose index is above the old dependency |
| EagerIndex.BatchMissesDep | lab/upstream/epaxos/src/epaxos/epaxos.go:772-780 | Three proposals at one replica after which the third, a batch of two, has a dependency below an instance that touches one of its keys |
| EagerIndex.Replica.StartPhase1 | lab/upstream/epaxos/src/epaxos/epaxos.go:872-905 | A new instance with the next number, indexed, its dependencies from the table and the least sequence number above them; the table stays exact in whatever state the frontier is, and the frontier stays exact if it was |
| EagerIndex.Replica.HandlePreAccept | lab/upstream/epaxos/src/epaxos/epaxos.go:943-1042 | The table stays exact in whatever state the frontier is; an exact frontier stays exact if and only if the message is not for an instance at or below it that has executed; otherwise the attributes are those of the table and the least sequence number, and the answer is PreAcceptOK exactly when they are the proposed ones and all they cover is committed here |
| EagerIndex.Replica.HandleAccept | lab/upstream/epaxos/src/epaxos/epaxos.go:1194-1246 | Refused exactly for committed or executed instances; the table stays exact in whatever state the frontier is, and the frontier stays exact if it was |
| EagerIndex.Replica.HandleCommit | lab/upstream/epaxos/src/epaxos/epaxos.go:1303-1353 | The instance is committed with the given attributes and its commands indexed if it was unknown; table and frontier as before |
| EagerIndex.Replica.HandleCommitShort | lab/upstream/epaxos/src/epaxos/epaxos.go:1355-1395 | The same without commands |
| EagerLeader.HandlePreAcceptReply | lab/upstream/epaxos/src/epaxos/epaxos.go:1044-1125 | An answer in time is merged, counted and compared as the rule says, a late one changes nothing; then the leader waits as long as it and those counted are no majority, and otherwise commits if all compared answers were equal and every dependency is known to be committed, or else asks for acceptance; all in plain numbers |
| EagerLeader.HandlePreAcceptOK | lab/upstream/epaxos/src/epaxos/epaxos.go:1127-1184 | The same for an agreement, which counts the original dependencies as committed and is compared with nothing |
| EagerLeader.HandleAcceptReply | lab/upstream/epaxos/src/epaxos/epaxos.go:1248-1295 | The leader commits exactly when, with itself, a majority has accepted |
| EagerLeader.FastExact | lab/upstream/epaxos/src/epaxos/epaxos.go:1069-1091 | After any number of answers: the leader waits if and only if it and those counted are no majority; it commits at once if and only if they are one, no compared answer sent anything that was not merged already, and each dependency is committed at the leader or at somebody who answered; otherwise it asks for acceptance |
| EagerLeader.CourseExact | lab/upstream/epaxos/src/epaxos/epaxos.go:1044-1184 | However many answers come, the leader counts them up to the one that makes it and the answerers a majority, decides with that one as `FastExact` says, and counts no more |
| EagerLeader.FastAgrees | lab/upstream/epaxos/src/epaxos/epaxos.go:1139-1156 | When it commits at once, those whose answers are compared hold the committed attributes if and only if no agreement was counted after a first answer that had changed the attributes |
| EagerLeader.MixedAnswers | lab/upstream/epaxos/src/epaxos/epaxos.go:1139-1156 | Five replicas, of which one answers with a dependency, another agrees to the proposal without it, and the leader commits on the fast path with it |
| EagerLeader.MergesAll | lab/upstream/epaxos/src/epaxos/epaxos.go:1068-1069 | After any answers the leader's attributes are those it proposed, merged with all that were sent to it |
| EagerIndex.Replica.MarkExecuted | lab/upstream/epaxos/src/epaxos/epaxos-exec.go:109-130 | A committed instance whose commands are known becomes executed; table and frontier as before |
| EagerIndex.StepFrontier | lab/upstream/epaxos/src/epaxos/epaxos.go:943-992 | Of all events exactly one kind can make an exact frontier wrong: a PreAccept for an executed instance at or below it |
| EagerRuns.TableAlways | lab/upstream/epaxos/src/epaxos/epaxos.go:744-761 | In every state of every run, whatever messages are handled in whatever order and however often, the conflict table is what a scan of the rows would find |
| EagerRuns.FrontierExact | lab/upstream/epaxos/src/epaxos/epaxos.go:736-742 | The frontier is the longest committed prefix in every state of a run if and only if no PreAccept is handled for an executed instance at or below it |
| EagerRuns.FrontierAlways | lab/upstream/epaxos/src/epaxos/epaxos.go:736-742 | With each PreAccept handled at most once, and no full commit before it, table and frontier are exact in every state of a run |
| EagerSystem.TablesRight | lab/upstream/epaxos/src/epaxos/epaxos.go:744-761 | In every state of every run of the whole system every replica's conflict table is what a scan of its rows would find |
| EagerSystem.MajorityExact | lab/upstream/epaxos/src/epaxos/epaxos.go:1044-1295 | In every state of every run of the whole system an instance has left pre-acceptance at its leader if and only if the leader and those counted are a majority, and while it waits to be accepted no majority has accepted |
| EagerSystem.HandledIsHeard | lab/upstream/epaxos/src/epaxos/epaxos.go:1044-1184 | What a leader's handler does with an answer, whatever the answer says, is the system's step, with the same number counted |
| EagerSystem.FrontiersRight | lab/upstream/epaxos/src/epaxos/epaxos.go:591-728 | In every state of every run of the whole system in which no peer is sent one request to pre-accept twice, every replica's frontier is its longest committed prefix: thrifty or not, whoever is preferred or skipped, in whatever order messages are handled |
| EagerSystem.ThriftyWaits | lab/upstream/epaxos/src/epaxos/epaxos.go:606-623 | As long as a peer has not read a thrifty leader's request, the leader still waits: it asks no more peers than it needs answers |
| EagerSystem.LatePreAccept | lab/upstream/epaxos/src/epaxos/epaxos.go:262-280 | A run of the system in which one peer is sent a request twice, because the order of peers changes under the broadcast's loop, and which ends with that peer's frontier wrong |
| Wire.StreamRoundTrip | lab/upstream/epaxos/src/genericsmr/genericsmr.go:264-307 | Any sequence of messages queued for a peer is decoded by the listener into the same sequence, as each message is received |
| Wire.StreamCut | lab/upstream/epaxos/src/genericsmr/genericsmr.go:264-307 | If the connection breaks after any number of bytes, the listener has decoded exactly the messages that came whole |
| Wire.MessageRoundTrip | lab/upstream/epaxos/src/epaxosproto/epaxosprotomarsh.go:648-773 | For every kind of message, with signed fields, nine dependencies and command lists of any length, reading consumes exactly what was written |
| Wire.MessageCut | lab/upstream/epaxos/src/epaxosproto/epaxosprotomarsh.go:734-773 | A proper prefix of a message is an error |
| Wire.UnchangedExact | lab/upstream/epaxos/src/epaxosproto/epaxosprotomarsh.go:268-311 | Unmarshalling what was marshalled gives the message back if and only if it is not a PreAcceptReply whose last four dependencies differ from its first four committed dependencies |
| Wire.FirstReplyChanged | lab/upstream/epaxos/src/epaxosproto/epaxosprotomarsh.go:268-311 | The first PreAcceptReply of a system of three replicas arrives changed |
| Wire.MarshalPreAcceptReply | lab/upstream/epaxos/src/epaxosproto/epaxosprotomarsh.go:222-338 | The stores into the 73-byte buffer, the overlapping ones included, leave exactly the bytes of the model |
| Wire.UvarintRoundTrip | lab/upstream/epaxos/src/epaxosproto/epaxosprotomarsh.go:669-672 | A varint is read back, with the rest of the stream left over, for every length an int64 can count |
| Wire.CommandRoundTrip | lab/internal/state/statemarsh.go:8-39 | The 17 bytes of a command give the command back |
| Wire.FramedExact | lab/upstream/epaxos/src/epaxosproto/epaxosprotomarsh.go:56-1467 | Every kind of message goes out as its literal code and its fields in the order of the wire |
| Wire.UvarintBytes | lab/upstream/epaxos/src/epaxosproto/epaxosprotomarsh.go:650-672 | A varint has seven bits a byte, the lowest first, the high bit on all bytes but the last, and no byte too many |
| Wire.IntBytes | lab/upstream/epaxos/src/epaxosproto/epaxosprotomarsh.go:650-669 | A signed 32-bit value is four bytes, the least significant first, in two's complement |
| Wire.IntRoundTrip | lab/upstream/epaxos/src/epaxosproto/epaxosprotomarsh.go:650-669 | Four bytes give a signed 32-bit value back |

## Left out

Assumptions of the `nvb-epaxos` model:

- Replicas do not restart; `initStorage`, `persist` and the storage interface are not modelled.
- Links are first-in first-out, lose nothing and deliver each message at most once. `Outbox` proves the sender's half of this; the network's half is assumed.
- Messages go from a replica's outgoing list straight to the links: the Ready channel between node and server is covered by `Replica.Epaxos.TakeReady` and not interleaved.
- There are at least two replicas; with one, a request never commits in the source either.
- Commands have well-formed spans over integer keys, a single key being the half-open unit interval at it; byte strings and the interval library's data structures are not modelled.
- Dependency lists are sets. The source keeps them sorted and free of duplicates (`Replica.DepSlice`), and compares lengths, which for sets is what the model does.
- Map iteration and sorting of equal elements may go any way; theorems hold for all of them.
- A message always carries the command its kind calls for.
- The executor's calls to Execute are made after its run in the model, in the same order; nothing the run reads depends on them except which ids have executed, which it is told.
- A timer knows its instance instead of holding a closure.
- `Convergence` is about runs whose requests the adapter makes: one key, and a payload that the store executes. That all commands in the system are such follows (`Convergence.AdapterCommands`).
- Order.SameOrder: assumes that the pair does not tie, because with a tie it is false (`Witness.TiesDiverge`).
- Convergence.StoresAgree: assumes that no two interfering executed instances tie, for the same reason.

Assumptions about the etcd adapter:

- The bodies of records are encoded by a codec that is only known to decode what it encoded; protobuf is not modelled. Bodies fit the four-byte length.
- The library's storage is a log that truncates, and a hard state. Snapshots, and restart from a compacted log, are left out.
- Write and marshalling errors, which end the process, are left out, and so is running without a log.
- Wal.ReplayIsApply: needs entries contiguous between hard states, because otherwise it is false (`Wal.ReplayExact`).
- Appending.LogMatchesMirror: assumes that raft goes back in its log only with or after a change of term and before anything is appended in the new term (`Appending.Orderly`); raft itself is not modelled.
- Appending.AppendThread.ProcessBatch: the applied index, which another goroutine raises, is a parameter. It takes for granted that raft never appends at or below a compacted index, and leaves no gap.

Assumptions about `efficient/epaxos`:

- Recovery, ballots above the initial one, checkpoints, no-ops and proposal batching are left out; the handlers are modelled for what they do to instances, conflict table, frontier and leader's bookkeeping.
- EagerExecution.Exec.FindScc: the loops that sleep until a dependency is committed become the assumption that everything reachable is; the failure path after a failed recursive call, which is never taken, is left out.
- EagerExecution.Exec.ExecuteRow: one pass over one row; asking for recovery after a grace period, and the loop around the rows, are left out.
- EagerIndex.Replica.HandlePreAccept: all messages about an instance carry the same commands, and at least one; `EagerSystem.TablesRight` needs no such assumption.
- EagerIndex.Replica.MarkExecuted: the execution thread's sleep until the commands have come becomes a precondition.
- `EagerRuns` and `EagerSystem` have no attributes in them: in them a leader with enough answers may take the fast or the slow path. Each kind of message has a channel of its own in the source, so any message on its way may be handled next, and any peer may be left out of a broadcast as not alive.
- EagerSystem.FrontiersRight: assumes that no peer is sent one request twice, because otherwise it is false (`EagerSystem.LatePreAccept`). Links deliver each message at most once.
- EagerLeader.FastAgrees: says nothing about recovery, which would have to tell the two kinds of answer apart.
- `maxSeqPerKey` is modelled as it is updated; it is not claimed to be the maximum of stored sequence numbers, because the handler passes it the proposed one.
- Wire.MessageRoundTrip: messages are written as byte sequences; only the writer with overlapping stores is modelled in its buffer. A negative list length, on which a reader would panic, is an error in the model and never written.

Not modelled at all: the HashiCorp and etcd raft libraries, sockets, RPC masters
and clients, containers and network emulation, delays and jitter, the Python
analysis, configuration and run schedules, object pools, and the Bloom filter.

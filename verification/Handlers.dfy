/**
 * The state transitions of one replica as functions of its state: requests,
 * the six message handlers, ticks, and the executor's run that follows a commit.
 */
module Handlers {
  import opened Types
  import opened State
  import opened Graph
  import opened Schedule
  import opened Scan

  /** A handler's result; run says that it ended by starting the executor. */
  datatype Outcome = Outcome(node: Node, run: bool)

  function Quiet(n: Node): Outcome {
    Outcome(n, false)
  }

  function Panic(n: Node): Outcome {
    Outcome(n.(panicked := true), false)
  }

  /** More than half of the nodes. */
  predicate Quorum(nodes: seq<ReplicaID>, val: int) {
    val > |nodes| / 2
  }

  /** All nodes but one. */
  predicate FastQuorum(nodes: seq<ReplicaID>, val: int) {
    val >= |nodes| - 1
  }

  function BroadcastMsgs(nodes: seq<ReplicaID>, self: ReplicaID, id: InstanceID, body: Body): seq<Message> {
    if nodes == [] then []
    else
      var last := nodes[|nodes| - 1];
      BroadcastMsgs(nodes[..|nodes| - 1], self, id, body)
      + if last == self then [] else [Message(last, id, body)]
  }

  function Broadcast(n: Node, id: InstanceID, body: Body): Node {
    n.(msgs := n.msgs + BroadcastMsgs(n.nodes, n.id, id, body))
  }

  /** Replies go to the instance's leader. */
  function Reply(n: Node, id: InstanceID, body: Body): Node {
    n.(msgs := n.msgs + [Message(id.replica, id, body)])
  }

  function SetInst(n: Node, id: InstanceID, inst: Instance): Node {
    n.(insts := n.insts[id := inst])
  }

  /** The executor takes the committed instance up; its run follows. */
  function PrepareToExecute(n: Node, id: InstanceID): Outcome
    requires id in n.insts
  {
    if n.insts[id].status != Committed then Panic(n)
    else Outcome(n.(pending := n.pending + {id}), true)
  }

  /** The transition table, with the action that belongs to each entry. */
  function TransitionTo(n: Node, id: InstanceID, to: Status): Outcome
    requires id in n.insts
  {
    var inst := n.insts[id];
    var m := SetInst(n, id, inst.(status := to));
    match (inst.status, to)
    case (NoStatus, PreAccepted) =>
      if inst.cmd.None? then Panic(n)
      else Quiet(Broadcast(m, id, PreAcceptMsg(inst.cmd.value, inst.Attributes())))
    case (PreAccepted, Accepted) =>
      Quiet(Broadcast(m, id, AcceptMsg(inst.Attributes())))
    case (PreAccepted, Committed) =>
      if inst.cmd.None? then Panic(n)
      else PrepareToExecute(Broadcast(m, id, CommitMsg(inst.cmd.value, inst.Attributes())), id)
    case (Accepted, Committed) =>
      if inst.cmd.None? then Panic(n)
      else PrepareToExecute(Broadcast(m, id, CommitMsg(inst.cmd.value, inst.Attributes())), id)
    case (Committed, Executed) =>
      if inst.cmd.None? then Panic(n)
      else Quiet(m.(executed := n.executed + [inst.cmd.value]))
    case _ => Panic(n)
  }

  function RegisterTimer(n: Node, id: InstanceID): Node
    requires id in n.insts
  {
    SetInst(n, id, n.insts[id].(timer := Timer(0, false))).(timers := n.timers + {id})
  }

  function UnregisterTimer(n: Node, id: InstanceID): Node
    requires id in n.insts
  {
    SetInst(n, id, n.insts[id].(timer := Timer(0, true))).(timers := n.timers - {id})
  }

  /** A client command becomes the next instance of this replica's row. */
  ghost function OnRequest(n: Node, cmd: Command): Outcome {
    var id := InstanceID(n.id, MaxNum(n.insts, n.id) + 1);
    var found := SeqAndDeps(n.insts, n.nodes, cmd, InstanceID(0, 0));
    if !found.ok then Panic(n)
    else
      var attrs := Attrs(found.maxSeq + 1, found.deps);
      var inst := NEW_INSTANCE.(cmd := Some(cmd), seqNum := attrs.seqNum, deps := attrs.deps);
      TransitionTo(SetInst(n, id, inst).(pre := n.pre[id := attrs]), id, PreAccepted)
  }

  /** Attributes a replica computes for a command it is asked to pre-accept. */
  ghost function LocalAttrs(n: Node, id: InstanceID, cmd: Command, attrs: Attrs): Attrs {
    var found := SeqAndDeps(n.insts, n.nodes, cmd, id);
    Attrs(Max(attrs.seqNum, found.maxSeq + 1), found.deps + attrs.deps)
  }

  ghost function OnPreAccept(n: Node, id: InstanceID, cmd: Command, attrs: Attrs): Outcome
    requires id in n.insts
  {
    var inst := n.insts[id];
    if inst.status != NoStatus && inst.status != PreAccepted then Quiet(n)
    else if !SeqAndDeps(n.insts, n.nodes, cmd, id).ok then Panic(SetInst(n, id, inst.(status := PreAccepted)))
    else
      var local := LocalAttrs(n, id, cmd, attrs);
      var m := SetInst(n, id, inst.(status := PreAccepted, cmd := Some(cmd),
                                    seqNum := local.seqNum, deps := local.deps))
               .(pre := n.pre[id := local]);
      if local.seqNum == attrs.seqNum && |local.deps| == |attrs.deps|
      then Quiet(Reply(m, id, PreAcceptOK))
      else Quiet(Reply(m, id, PreAcceptReply(local)))
  }

  /** Counting one more reply: commit, fall back, or wait. */
  function OnEitherPreAcceptReply(n: Node, id: InstanceID): Outcome
    requires id in n.insts
  {
    var inst := n.insts[id];
    var replies := inst.preAcceptReplies + 1;
    if !inst.differentReplies && FastQuorum(n.nodes, replies) then
      TransitionTo(UnregisterTimer(n, id), id, Committed)
    else if Quorum(n.nodes, replies) then
      if inst.differentReplies then TransitionTo(UnregisterTimer(n, id), id, Accepted)
      else if inst.timer.paused then Quiet(RegisterTimer(n, id))
      else Quiet(n)
    else Quiet(n)
  }

  function OnPreAcceptOK(n: Node, id: InstanceID): Outcome
    requires id in n.insts
  {
    var inst := n.insts[id];
    if inst.status != PreAccepted then Quiet(n)
    else OnEitherPreAcceptReply(SetInst(n, id, inst.(preAcceptReplies := inst.preAcceptReplies + 1)), id)
  }

  /** The leader's attributes after merging a reply that disagrees. */
  function MergeReply(inst: Instance, updated: Attrs): Instance {
    var deps := inst.deps + updated.deps;
    inst.(seqNum := Max(inst.seqNum, updated.seqNum),
          deps := deps,
          differentReplies := inst.differentReplies || updated.seqNum > inst.seqNum || |deps| != |inst.deps|,
          preAcceptReplies := inst.preAcceptReplies + 1)
  }

  function OnPreAcceptReply(n: Node, id: InstanceID, updated: Attrs): Outcome
    requires id in n.insts
  {
    var inst := n.insts[id];
    if inst.status != PreAccepted then Quiet(n)
    else OnEitherPreAcceptReply(SetInst(n, id, MergeReply(inst, updated)), id)
  }

  function OnAccept(n: Node, id: InstanceID, attrs: Attrs): Outcome
    requires id in n.insts
  {
    var inst := n.insts[id];
    if inst.status == Committed || inst.status == Executed then Quiet(n)
    else
      var m := SetInst(n, id, inst.(status := Accepted, seqNum := attrs.seqNum, deps := attrs.deps));
      Quiet(Reply(m, id, AcceptOK))
  }

  function OnAcceptOK(n: Node, id: InstanceID): Outcome
    requires id in n.insts
  {
    var inst := n.insts[id];
    if inst.status != Accepted then Quiet(n)
    else
      var m := SetInst(n, id, inst.(acceptReplies := inst.acceptReplies + 1));
      if Quorum(n.nodes, inst.acceptReplies + 2) then TransitionTo(m, id, Committed) else Quiet(m)
  }

  function OnCommit(n: Node, id: InstanceID, cmd: Command, attrs: Attrs): Outcome
    requires id in n.insts
  {
    var inst := n.insts[id];
    if inst.status == Committed || inst.status == Executed then Quiet(n)
    else
      var m := SetInst(n, id, inst.(status := Committed, cmd := Some(cmd),
                                    seqNum := attrs.seqNum, deps := attrs.deps));
      PrepareToExecute(m, id)
  }

  predicate ValidMessage(n: Node, m: Message) {
    && m.to == n.id
    && if IsReply(m.body) then m.inst.replica == n.id
       else m.inst.replica != n.id && m.inst.replica in n.nodes
  }

  ghost function Dispatch(n: Node, m: Message): Outcome
    requires m.inst in n.insts
  {
    match m.body
    case PreAcceptMsg(cmd, attrs) => OnPreAccept(n, m.inst, cmd, attrs)
    case PreAcceptOK => OnPreAcceptOK(n, m.inst)
    case PreAcceptReply(updated) => OnPreAcceptReply(n, m.inst, updated)
    case AcceptMsg(attrs) => OnAccept(n, m.inst, attrs)
    case AcceptOK => OnAcceptOK(n, m.inst)
    case CommitMsg(cmd, attrs) => OnCommit(n, m.inst, cmd, attrs)
  }

  /** One inbound message: dropped, or handled by its instance. */
  ghost function Step(n: Node, m: Message): Outcome {
    if !ValidMessage(n, m) then Quiet(n)
    else if m.inst in n.insts then Dispatch(n, m)
    else if m.inst.replica == n.id then Quiet(n)
    else Dispatch(SetInst(n, m.inst, NEW_INSTANCE), m)
  }

  /** One timer's share of a tick. */
  function TickOne(n: Node, id: InstanceID): Node {
    if id !in n.insts || n.insts[id].timer.paused then n
    else
      var inst := n.insts[id];
      var ticks := inst.timer.ticksElapsed + 1;
      if ticks < SLOW_PATH_TIMEOUT then SetInst(n, id, inst.(timer := Timer(ticks, false)))
      else TransitionTo(UnregisterTimer(n, id), id, Accepted).node
  }

  /** A tick visits the registered timers in some order. */
  function Tick(n: Node, order: seq<InstanceID>): Node {
    if order == [] then n
    else TickOne(Tick(n, order[..|order| - 1]), order[|order| - 1])
  }

  /** The dependency graph of the executor's vertices. */
  function PendingGraph(n: Node): DepGraph {
    map id | id in n.pending && id in n.insts :: n.insts[id].deps
  }

  function PendingSeqs(n: Node): map<InstanceID, SeqNum> {
    map id | id in n.pending && id in n.insts :: n.insts[id].seqNum
  }

  function ExecutedIds(n: Node): set<InstanceID> {
    set id | id in n.insts && n.insts[id].status == Executed
  }

  /** blocks is what the executor may execute now. */
  ghost predicate RunOk(n: Node, blocks: seq<seq<InstanceID>>) {
    Scheduled(PendingGraph(n), PendingSeqs(n), ExecutedIds(n), blocks)
  }

  function Commands(insts: Instances, ids: seq<InstanceID>): seq<Command>
    requires forall id :: id in ids ==> id in insts && insts[id].cmd.Some?
  {
    seq(|ids|, i requires 0 <= i < |ids| => insts[ids[i]].cmd.value)
  }

  predicate CanDeliver(n: Node, ids: set<InstanceID>) {
    forall id :: id in ids ==>
      id in n.insts && n.insts[id].status == Committed && n.insts[id].cmd.Some?
  }

  function MarkExecuted(insts: Instances, ids: set<InstanceID>): Instances {
    map id | id in insts :: if id in ids then insts[id].(status := Executed) else insts[id]
  }

  /** The run executes its components one after the other. */
  function DeliverBlocks(n: Node, blocks: seq<seq<InstanceID>>): Node {
    var ids := Flat(blocks);
    if !CanDeliver(n, ids) then n.(panicked := true)
    else
      assert forall id :: id in Concat(blocks) ==> id in ids by {
        ConcatElems(blocks);
        assert forall id :: id in Concat(blocks) ==> id in Elems(Concat(blocks));
      }
      n.(insts := MarkExecuted(n.insts, ids),
         pending := n.pending - ids,
         executed := n.executed + Commands(n.insts, Concat(blocks)),
         blocks := n.blocks + blocks)
  }

  /** The instances execute one by one. */
  function ExecuteAll(n: Node, ids: seq<InstanceID>): Node {
    if ids == [] then n
    else
      var m, id := ExecuteAll(n, ids[..|ids| - 1]), ids[|ids| - 1];
      if id in m.insts then TransitionTo(m, id, Executed).node else Panic(m).node
  }

  /** The last transition of the table. */
  lemma ExecuteOne(n: Node, id: InstanceID)
    requires id in n.insts && n.insts[id].status == Committed && n.insts[id].cmd.Some?
    ensures TransitionTo(n, id, Executed).node ==
            n.(insts := n.insts[id := n.insts[id].(status := Executed)],
               executed := n.executed + [n.insts[id].cmd.value])
  {
  }

  lemma MarkOneMore(insts: Instances, ids: set<InstanceID>, id: InstanceID)
    requires id in insts && id !in ids
    ensures MarkExecuted(insts, ids)[id := insts[id].(status := Executed)] == MarkExecuted(insts, ids + {id})
  {
  }

  /** Delivering blocks is executing their instances one by one. */
  lemma {:induction false} ExecuteAllDelivers(n: Node, ids: seq<InstanceID>)
    requires NoDup(ids) && CanDeliver(n, Elems(ids))
    ensures ExecuteAll(n, ids) ==
            n.(insts := MarkExecuted(n.insts, Elems(ids)), executed := n.executed + Commands(n.insts, ids))
  {
    hide TransitionTo;
    if ids == [] {
      assert MarkExecuted(n.insts, {}) == n.insts;
      assert n.executed + [] == n.executed;
    } else {
      var l := |ids| - 1;
      var id := ids[l];
      assert ids[..l] + [id] == ids && id !in ids[..l];
      assert Elems(ids) == Elems(ids[..l]) + {id};
      assert id in Elems(ids);
      ExecuteAllDelivers(n, ids[..l]);
      ExecuteOne(ExecuteAll(n, ids[..l]), id);
      MarkOneMore(n.insts, Elems(ids[..l]), id);
      assert Commands(n.insts, ids[..l]) + [n.insts[id].cmd.value] == Commands(n.insts, ids);
    }
  }

  function Finish(o: Outcome, blocks: seq<seq<InstanceID>>): Node {
    if o.run then DeliverBlocks(o.node, blocks) else o.node
  }
}

/**
 * What every replica keeps true of itself: no panic, every transition in the
 * table, timers and executor in step with the instances.
 */
module Local {
  import opened Types
  import opened State
  import opened Graph
  import opened Schedule
  import opened Scan
  import opened Handlers

  /** The leader waits for more replies before it falls back to the slow path. */
  predicate Waiting(nodes: seq<ReplicaID>, self: ReplicaID, id: InstanceID, inst: Instance) {
    && id.replica == self
    && inst.status == PreAccepted
    && Quorum(nodes, inst.preAcceptReplies + 1)
  }

  /** The replies a leader that has not decided is still short of. */
  predicate Short(nodes: seq<ReplicaID>, inst: Instance) {
    && (inst.status == PreAccepted ==>
          && inst.acceptReplies == 0
          && if inst.differentReplies then 2 * (inst.preAcceptReplies + 1) <= |nodes|
             else inst.preAcceptReplies == 0 || inst.preAcceptReplies + 1 < |nodes| - 1)
    && (inst.status == Accepted ==> 2 * (inst.acceptReplies + 1) <= |nodes|)
  }

  predicate InstOk(nodes: seq<ReplicaID>, self: ReplicaID, id: InstanceID, inst: Instance) {
    && id.replica in nodes && id.num >= 1
    && inst.cmd.Some? && inst.cmd.value.span.WellFormed()
    && inst.status != NoStatus
    && (id.replica != self ==>
          inst.preAcceptReplies == 0 && !inst.differentReplies && inst.acceptReplies == 0)
    && (id.replica == self ==> Short(nodes, inst))
    && inst.timer.ticksElapsed < SLOW_PATH_TIMEOUT
    && (inst.timer.paused <==> !Waiting(nodes, self, id, inst))
    && (Waiting(nodes, self, id, inst) ==>
          !inst.differentReplies && !FastQuorum(nodes, inst.preAcceptReplies + 1))
  }

  ghost predicate InstsOk(n: Node) {
    forall id :: id in n.insts ==> InstOk(n.nodes, n.id, id, n.insts[id])
  }

  /** Registered timers are those of the instances that wait. */
  ghost predicate TimersOk(n: Node) {
    forall id :: id in n.timers <==> id in n.insts && Waiting(n.nodes, n.id, id, n.insts[id])
  }

  /** The executor's vertices are the instances committed and not executed. */
  ghost predicate PendingOk(n: Node) {
    forall id :: id in n.pending <==> id in n.insts && n.insts[id].status == Committed
  }

  ghost predicate LocalOk(n: Node) {
    && |n.nodes| >= 2 && n.id in n.nodes
    && !n.panicked
    && n.pre.Keys == n.insts.Keys
    && InstsOk(n)
    && TimersOk(n)
    && PendingOk(n)
  }

  lemma EmptyOk(n: Node)
    requires |n.nodes| >= 2 && n.id in n.nodes && !n.panicked
    requires n.insts == map[] && n.pre == map[] && n.timers == {} && n.pending == {}
    ensures LocalOk(n)
  {
  }

  /** Everything but the instance id is as before; id is as given. */
  ghost predicate Changes(n: Node, m: Node, id: InstanceID, inst: Instance) {
    && m.id == n.id && m.nodes == n.nodes && m.panicked == n.panicked
    && m.insts == n.insts[id := inst]
    && m.pre.Keys == n.pre.Keys + {id}
    && (forall i :: i != id ==> (i in m.timers <==> i in n.timers) && (i in m.pending <==> i in n.pending))
  }

  lemma ChangesOk(n: Node, m: Node, id: InstanceID, inst: Instance)
    requires LocalOk(n) && Changes(n, m, id, inst)
    requires InstOk(n.nodes, n.id, id, inst)
    requires id in m.timers <==> Waiting(n.nodes, n.id, id, inst)
    requires id in m.pending <==> inst.status == Committed
    ensures LocalOk(m)
  {
    forall i ensures i in m.timers <==> i in m.insts && Waiting(m.nodes, m.id, i, m.insts[i]) {
      assert i != id ==> (i in m.insts <==> i in n.insts);
    }
    forall i ensures i in m.pending <==> i in m.insts && m.insts[i].status == Committed {
      assert i != id ==> (i in m.insts <==> i in n.insts);
    }
  }

  /** One reply is not a majority of two or more. */
  lemma AloneNoQuorum(nodes: seq<ReplicaID>)
    requires |nodes| >= 2
    ensures !Quorum(nodes, 1)
  {
  }

  lemma ScanOk(n: Node, cmd: Command, ignored: InstanceID)
    requires forall id :: id in n.insts && id != ignored ==> n.insts[id].cmd.Some?
    ensures SeqAndDeps(n.insts, n.nodes, cmd, ignored).ok
  {
    SeqAndDepsOk(n.insts, n.nodes, cmd, ignored);
  }

  /** The instance a request creates. */
  ghost function Requested(n: Node, cmd: Command): Instance {
    var found := SeqAndDeps(n.insts, n.nodes, cmd, InstanceID(0, 0));
    NEW_INSTANCE.(status := PreAccepted, cmd := Some(cmd), seqNum := found.maxSeq + 1, deps := found.deps)
  }

  lemma RequestForm(n: Node, cmd: Command)
    requires SeqAndDeps(n.insts, n.nodes, cmd, InstanceID(0, 0)).ok
    ensures var id, inst, m := InstanceID(n.id, MaxNum(n.insts, n.id) + 1), Requested(n, cmd), OnRequest(n, cmd).node;
            && !OnRequest(n, cmd).run
            && m == n.(insts := n.insts[id := inst], pre := n.pre[id := inst.Attributes()],
                       msgs := n.msgs + BroadcastMsgs(n.nodes, n.id, id, PreAcceptMsg(cmd, inst.Attributes())))
  {
    var id, inst := InstanceID(n.id, MaxNum(n.insts, n.id) + 1), Requested(n, cmd);
    assert n.insts[id := inst.(status := NoStatus)][id := inst] == n.insts[id := inst];
  }

  lemma NewInstanceOk(nodes: seq<ReplicaID>, self: ReplicaID, id: InstanceID, cmd: Command, attrs: Attrs)
    requires |nodes| >= 2 && id.replica in nodes && id.num >= 1 && cmd.span.WellFormed()
    ensures var inst := NEW_INSTANCE.(status := PreAccepted, cmd := Some(cmd), seqNum := attrs.seqNum,
                                      deps := attrs.deps);
            InstOk(nodes, self, id, inst) && !Waiting(nodes, self, id, inst)
  {
    AloneNoQuorum(nodes);
  }

  /** A client request leaves the replica in order and never starts the executor. */
  lemma RequestOk(n: Node, cmd: Command)
    requires LocalOk(n) && cmd.span.WellFormed()
    ensures LocalOk(OnRequest(n, cmd).node) && !OnRequest(n, cmd).run
    ensures SeqAndDeps(n.insts, n.nodes, cmd, InstanceID(0, 0)).ok
  {
    var id, inst := InstanceID(n.id, MaxNum(n.insts, n.id) + 1), Requested(n, cmd);
    ScanOk(n, cmd, InstanceID(0, 0));
    RequestForm(n, cmd);
    NewInstanceOk(n.nodes, n.id, id, cmd, inst.Attributes());
    assert id !in n.insts;
    FreshOk(n, OnRequest(n, cmd).node, id, inst);
  }

  lemma FreshOk(n: Node, m: Node, id: InstanceID, inst: Instance)
    requires LocalOk(n) && id !in n.insts
    requires InstOk(n.nodes, n.id, id, inst) && !Waiting(n.nodes, n.id, id, inst) && inst.status != Committed
    requires m.id == n.id && m.nodes == n.nodes && m.panicked == n.panicked && m.timers == n.timers
    requires m.pending == n.pending && m.insts == n.insts[id := inst] && m.pre.Keys == n.pre.Keys + {id}
    ensures LocalOk(m)
  {
    ChangesOk(n, m, id, inst);
  }

  /** What a replica new to an instance makes of a request to pre-accept it. */
  lemma PreAcceptForm(n: Node, id: InstanceID, cmd: Command, attrs: Attrs)
    requires id !in n.insts
    requires SeqAndDeps(n.insts[id := NEW_INSTANCE], n.nodes, cmd, id).ok
    ensures var s := SetInst(n, id, NEW_INSTANCE);
            var local, o := LocalAttrs(s, id, cmd, attrs), OnPreAccept(s, id, cmd, attrs);
            && !o.run
            && o.node == n.(insts := n.insts[id := NEW_INSTANCE.(status := PreAccepted, cmd := Some(cmd),
                                                                 seqNum := local.seqNum, deps := local.deps)],
                            pre := n.pre[id := local],
                            msgs := n.msgs + [Message(id.replica, id,
                                              if local == attrs then PreAcceptOK else PreAcceptReply(local))])
  {
    hide SeqAndDeps;
    var s := SetInst(n, id, NEW_INSTANCE);
    var local := LocalAttrs(s, id, cmd, attrs);
    SameSizeSame(attrs.deps, local.deps);
    var inst := NEW_INSTANCE.(status := PreAccepted, cmd := Some(cmd),
                              seqNum := local.seqNum, deps := local.deps);
    assert n.insts[id := NEW_INSTANCE][id := inst] == n.insts[id := inst];
  }

  /** Comparing lengths is comparing contents, when one set holds the other. */
  lemma SameSizeSame<T>(s: set<T>, t: set<T>)
    requires s <= t
    ensures |s| == |t| <==> s == t
  {
    if s != t {
      var x :| x in t && x !in s;
      assert t == (t - s) + s && (t - s) !! s;
      assert x in t - s;
      assert |t| == |t - s| + |s|;
    }
  }

  /** A request to pre-accept an instance not heard of before. */
  lemma PreAcceptOk(n: Node, id: InstanceID, cmd: Command, attrs: Attrs)
    requires LocalOk(n) && id !in n.insts && id.replica in n.nodes && id.replica != n.id && id.num >= 1
    requires cmd.span.WellFormed()
    ensures SeqAndDeps(n.insts[id := NEW_INSTANCE], n.nodes, cmd, id).ok
    ensures var o := OnPreAccept(SetInst(n, id, NEW_INSTANCE), id, cmd, attrs);
            LocalOk(o.node) && !o.run
  {
    var s := SetInst(n, id, NEW_INSTANCE);
    ScanOk(s, cmd, id);
    PreAcceptForm(n, id, cmd, attrs);
    var local := LocalAttrs(s, id, cmd, attrs);
    NewInstanceOk(n.nodes, n.id, id, cmd, local);
    var m := OnPreAccept(s, id, cmd, attrs).node;
    FreshOk(n, m, id, m.insts[id]);
  }

  /** How the leader's copy, timer set and executor stand after a decision. */
  predicate Decided(n: Node, m: Node, id: InstanceID, inst: Instance) {
    && m.id == n.id && m.nodes == n.nodes && m.panicked == n.panicked && m.pre == n.pre
    && m.insts == n.insts[id := inst]
    && m.timers == (if inst.timer.paused then n.timers - {id} else n.timers + {id})
    && m.pending == (if inst.status == Committed then n.pending + {id} else n.pending)
  }

  lemma DecidedOk(n: Node, m: Node, id: InstanceID, inst: Instance)
    requires LocalOk(n) && id in n.insts && Decided(n, m, id, inst)
    requires InstOk(n.nodes, n.id, id, inst)
    requires n.insts[id].status != Committed && inst.status != Executed
    ensures LocalOk(m)
  {
    assert id !in n.pending;
    ChangesOk(n, m, id, inst);
  }

  /** The leader's decision as one change of its copy. */
  function Decision(nodes: seq<ReplicaID>, inst: Instance): Instance {
    var replies := inst.preAcceptReplies + 1;
    if !inst.differentReplies && FastQuorum(nodes, replies) then
      inst.(timer := Timer(0, true), status := Committed)
    else if Quorum(nodes, replies) then
      if inst.differentReplies then inst.(timer := Timer(0, true), status := Accepted)
      else if inst.timer.paused then inst.(timer := Timer(0, false))
      else inst
    else inst
  }

  lemma EitherReplyForm(n: Node, id: InstanceID, inst: Instance)
    requires id in n.insts && inst.status == PreAccepted && inst.cmd.Some?
    requires inst.timer.paused <==> id !in n.timers
    ensures Decided(n, OnEitherPreAcceptReply(SetInst(n, id, inst), id).node, id, Decision(n.nodes, inst))
  {
    hide Decided, TransitionTo, FastQuorum, Quorum;
    var s := SetInst(n, id, inst);
    var replies := inst.preAcceptReplies + 1;
    if !inst.differentReplies && FastQuorum(n.nodes, replies) {
      ToCommitted(n, id, inst);
    } else if Quorum(n.nodes, replies) && inst.differentReplies {
      ToAccepted(n, id, inst);
    } else {
      Waits(n, id, inst);
    }
  }

  lemma ToCommitted(n: Node, id: InstanceID, inst: Instance)
    requires inst.status == PreAccepted && inst.cmd.Some?
    ensures Decided(n, TransitionTo(UnregisterTimer(SetInst(n, id, inst), id), id, Committed).node, id,
                    inst.(timer := Timer(0, true), status := Committed))
  {
    hide BroadcastMsgs;
    var m := TransitionTo(UnregisterTimer(SetInst(n, id, inst), id), id, Committed).node;
    assert m.insts == n.insts[id := inst.(timer := Timer(0, true), status := Committed)];
  }

  lemma ToAccepted(n: Node, id: InstanceID, inst: Instance)
    requires inst.status == PreAccepted && inst.cmd.Some?
    ensures Decided(n, TransitionTo(UnregisterTimer(SetInst(n, id, inst), id), id, Accepted).node, id,
                    inst.(timer := Timer(0, true), status := Accepted))
  {
    hide BroadcastMsgs;
    var m := TransitionTo(UnregisterTimer(SetInst(n, id, inst), id), id, Accepted).node;
    assert m.insts == n.insts[id := inst.(timer := Timer(0, true), status := Accepted)];
  }

  lemma Waits(n: Node, id: InstanceID, inst: Instance)
    requires inst.status == PreAccepted && (inst.timer.paused <==> id !in n.timers)
    ensures Decided(n, SetInst(n, id, inst), id, inst)
    ensures Decided(n, RegisterTimer(SetInst(n, id, inst), id), id, inst.(timer := Timer(0, false)))
  {
    assert RegisterTimer(SetInst(n, id, inst), id).insts == n.insts[id := inst.(timer := Timer(0, false))];
  }

  lemma DecisionOk(nodes: seq<ReplicaID>, self: ReplicaID, id: InstanceID, was: Instance, inst: Instance)
    requires InstOk(nodes, self, id, was) && was.status == PreAccepted && id.replica == self
    requires inst.status == PreAccepted && inst.cmd == was.cmd && inst.timer == was.timer
    requires inst.preAcceptReplies == was.preAcceptReplies + 1 && inst.acceptReplies == was.acceptReplies
    ensures InstOk(nodes, self, id, Decision(nodes, inst)) && Decision(nodes, inst).status != Executed
  {
  }

  /** The leader's copy once a reply has been merged into it. */
  function Merged(inst: Instance, body: Body): Instance {
    if body.PreAcceptReply? then MergeReply(inst, body.updated)
    else inst.(preAcceptReplies := inst.preAcceptReplies + 1)
  }

  lemma ReplyOk(n: Node, id: InstanceID, inst: Instance)
    requires LocalOk(n) && id in n.insts && id.replica == n.id && n.insts[id].status == PreAccepted
    requires inst.status == PreAccepted && inst.cmd == n.insts[id].cmd && inst.timer == n.insts[id].timer
    requires inst.preAcceptReplies == n.insts[id].preAcceptReplies + 1
    requires inst.acceptReplies == n.insts[id].acceptReplies
    ensures LocalOk(OnEitherPreAcceptReply(SetInst(n, id, inst), id).node)
  {
    hide OnEitherPreAcceptReply, Decision;
    var m := OnEitherPreAcceptReply(SetInst(n, id, inst), id).node;
    assert InstOk(n.nodes, n.id, id, n.insts[id]);
    EitherReplyForm(n, id, inst);
    DecisionOk(n.nodes, n.id, id, n.insts[id], inst);
    DecidedOk(n, m, id, Decision(n.nodes, inst));
  }

  lemma PreAcceptReplyOk(n: Node, id: InstanceID, body: Body)
    requires LocalOk(n) && id in n.insts && id.replica == n.id
    requires body.PreAcceptOK? || body.PreAcceptReply?
    ensures var o := if body.PreAcceptOK? then OnPreAcceptOK(n, id) else OnPreAcceptReply(n, id, body.updated);
            LocalOk(o.node)
  {
    hide LocalOk, OnEitherPreAcceptReply;
    if n.insts[id].status == PreAccepted {
      ReplyOk(n, id, Merged(n.insts[id], body));
    }
  }

  lemma AcceptOk(n: Node, id: InstanceID, attrs: Attrs)
    requires LocalOk(n) && id in n.insts && id.replica != n.id
    ensures LocalOk(OnAccept(n, id, attrs).node) && !OnAccept(n, id, attrs).run
  {
    var m := OnAccept(n, id, attrs).node;
    if m != n {
      ChangesOk(n, m, id, m.insts[id]);
    }
  }

  lemma AcceptReplyOk(n: Node, id: InstanceID)
    requires LocalOk(n) && id in n.insts && id.replica == n.id
    ensures LocalOk(OnAcceptOK(n, id).node)
  {
    var m := OnAcceptOK(n, id).node;
    if n.insts[id].status == Accepted {
      ChangesOk(n, m, id, m.insts[id]);
    }
  }

  lemma CommitOk(n: Node, id: InstanceID, cmd: Command, attrs: Attrs)
    requires LocalOk(n) && id in n.insts && id.replica != n.id && cmd.span.WellFormed()
    ensures LocalOk(OnCommit(n, id, cmd, attrs).node)
  {
    var m := OnCommit(n, id, cmd, attrs).node;
    if Rank(n.insts[id].status) < 3 {
      ChangesOk(n, m, id, m.insts[id]);
    }
  }

  /** One timer's share of a tick leaves the other registered timers registered. */
  lemma TickOneOk(n: Node, id: InstanceID)
    requires LocalOk(n) && id in n.timers
    ensures LocalOk(TickOne(n, id))
    ensures forall i :: i in n.timers && i != id ==> i in TickOne(n, id).timers
  {
    var m := TickOne(n, id);
    ChangesOk(n, m, id, m.insts[id]);
  }

  lemma {:induction false} TickOk(n: Node, order: seq<InstanceID>)
    requires LocalOk(n) && NoDup(order) && forall id :: id in order ==> id in n.timers
    ensures LocalOk(Tick(n, order))
    ensures forall i :: i in n.timers && i !in order ==> i in Tick(n, order).timers
  {
    hide LocalOk, TickOne;
    if order != [] {
      var l := |order| - 1;
      TickOk(n, order[..l]);
      TickOneOk(Tick(n, order[..l]), order[l]);
      assert forall i :: i in order[..l] ==> i in order;
    }
  }

  /** Whatever the executor's run may deliver is there to be delivered. */
  lemma RunDelivers(n: Node, blocks: seq<seq<InstanceID>>)
    requires LocalOk(n) && RunOk(n, blocks)
    ensures CanDeliver(n, Flat(blocks))
  {
    forall id | id in Flat(blocks) ensures id in n.insts && n.insts[id].status == Committed && n.insts[id].cmd.Some? {
      assert Ready(PendingGraph(n), ExecutedIds(n), id);
    }
  }

  lemma DeliverOk(n: Node, blocks: seq<seq<InstanceID>>)
    requires LocalOk(n) && CanDeliver(n, Flat(blocks))
    ensures LocalOk(DeliverBlocks(n, blocks))
  {
    hide Flat, Concat;
    var m := DeliverBlocks(n, blocks);
    var ids := Flat(blocks);
    forall id | id in m.insts ensures InstOk(m.nodes, m.id, id, m.insts[id]) {
      assert InstOk(n.nodes, n.id, id, n.insts[id]);
    }
    forall id ensures id in m.timers <==> id in m.insts && Waiting(m.nodes, m.id, id, m.insts[id]) {
      assert id in n.timers <==> id in n.insts && Waiting(n.nodes, n.id, id, n.insts[id]);
    }
  }
}

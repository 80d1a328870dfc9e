/**
 * What a leader makes of each reply, in plain numbers: it goes on with the very
 * reply that gives it enough of them, and never sits on enough.
 */
module Progress {
  import opened Types
  import opened State
  import opened Graph
  import opened Schedule
  import opened Handlers
  import opened Cluster
  import opened Steps
  import opened Local
  import opened Runs

  /** The leader's copy before and after an answer to its request to accept. */
  ghost predicate Acknowledged(n: nat, was: Instance, now: Instance) {
    && now.cmd == was.cmd && now.seqNum == was.seqNum && now.deps == was.deps
    && now.acceptReplies == was.acceptReplies + 1
    && if 2 * (now.acceptReplies + 1) > n then now.status == Committed || now.status == Executed
       else now.status == Accepted
  }

  /** And before and after an answer to its request to pre-accept, which came with these attributes. */
  ghost predicate Compared(n: nat, was: Instance, now: Instance, updated: Attrs) {
    && now.cmd == was.cmd && now.preAcceptReplies == was.preAcceptReplies + 1
    && was.seqNum <= now.seqNum && updated.seqNum <= now.seqNum
    && (now.seqNum == was.seqNum || now.seqNum == updated.seqNum)
    && (forall d :: d in now.deps <==> d in was.deps || d in updated.deps)
    && (now.differentReplies <==>
          || was.differentReplies || updated.seqNum > was.seqNum
          || exists d :: d in updated.deps && d !in was.deps)
    && if now.differentReplies
       then now.status == if 2 * (now.preAcceptReplies + 1) > n then Accepted else PreAccepted
       else if now.preAcceptReplies + 1 >= n - 1 then now.status == Committed || now.status == Executed
       else now.status == PreAccepted
  }

  /** Everybody else is told of the step the leader's copy has made, and of nothing else. */
  ghost predicate Announces(n: Node, m: Node, id: InstanceID)
    requires id in n.insts && id in m.insts
  {
    var now := m.insts[id];
    && n.msgs <= m.msgs
    && if now.status == n.insts[id].status then m.msgs == n.msgs
       else
         && now.cmd.Some?
         && ToAll(m.msgs[|n.msgs|..], n.nodes, n.id, id,
                  if now.status == Accepted then AcceptMsg(Attrs(now.seqNum, now.deps))
                  else CommitMsg(now.cmd.value, Attrs(now.seqNum, now.deps)))
  }

  /** From n to m the leader has taken in a reply to its instance. */
  ghost predicate Answers(n: Node, m: Node, id: InstanceID, body: Body) {
    && id in n.insts && id in m.insts
    && (match body
        case AcceptOK => Acknowledged(|n.nodes|, n.insts[id], m.insts[id])
        case PreAcceptReply(updated) => Compared(|n.nodes|, n.insts[id], m.insts[id], updated)
        case PreAcceptOK => Compared(|n.nodes|, n.insts[id], m.insts[id], n.insts[id].Attributes())
        case _ => false)
    && (Distinct(n.nodes) ==> Announces(n, m, id))
  }

  /** However the executor's run goes on after it. */
  lemma FinishOne(o: Outcome, blocks: seq<seq<InstanceID>>, id: InstanceID)
    requires id in o.node.insts
    ensures var was, m := o.node.insts[id], Finish(o, blocks);
            && id in m.insts && m.msgs == o.node.msgs
            && (m.insts[id] == was || (was.status == Committed && m.insts[id] == was.(status := Executed)))
  {
    hide Flat, Concat;
  }

  lemma Announced(n: Node, m: Node, id: InstanceID, body: Body)
    requires Distinct(n.nodes) && m.msgs == n.msgs + BroadcastMsgs(n.nodes, n.id, id, body)
    ensures n.msgs <= m.msgs && ToAll(m.msgs[|n.msgs|..], n.nodes, n.id, id, body)
  {
    hide ToAll;
    BroadcastFacts(n.nodes, n.id, id, body);
    assert m.msgs[|n.msgs|..] == BroadcastMsgs(n.nodes, n.id, id, body);
  }

  lemma AckAnswered(n: Node, id: InstanceID, blocks: seq<seq<InstanceID>>)
    requires id in n.insts && n.insts[id].status == Accepted && n.insts[id].cmd.Some?
    ensures Answers(n, Finish(OnAcceptOK(n, id), blocks), id, AcceptOK)
  {
    hide Finish, BroadcastMsgs, ToAll;
    var inst := n.insts[id];
    FinishOne(OnAcceptOK(n, id), blocks, id);
    if Distinct(n.nodes) && 2 * (inst.acceptReplies + 2) > |n.nodes| {
      Announced(n, Finish(OnAcceptOK(n, id), blocks), id, CommitMsg(inst.cmd.value, inst.Attributes()));
    }
  }

  /** Where a reply that has been counted and merged takes the instance. */
  lemma EitherGoesTo(n: Node, id: InstanceID)
    requires id in n.insts && n.insts[id].status == PreAccepted && n.insts[id].cmd.Some?
    ensures var inst, m := n.insts[id], OnEitherPreAcceptReply(n, id).node;
            && id in m.insts
            && m.insts[id].(status := PreAccepted, timer := inst.timer) == inst
            && m.insts[id].status ==
               (if inst.differentReplies then (if 2 * (inst.preAcceptReplies + 1) > |n.nodes| then Accepted else PreAccepted)
                else if inst.preAcceptReplies + 1 >= |n.nodes| - 1 then Committed
                else PreAccepted)
            && (Distinct(n.nodes) ==> Announces(n, m, id))
  {
    hide BroadcastMsgs, ToAll;
    var inst, m := n.insts[id], OnEitherPreAcceptReply(n, id).node;
    if Distinct(n.nodes) && m.insts[id].status != PreAccepted {
      Announced(n, m, id, if m.insts[id].status == Accepted then AcceptMsg(inst.Attributes())
                          else CommitMsg(inst.cmd.value, inst.Attributes()));
    }
  }

  lemma ReplyAnswered(n: Node, id: InstanceID, body: Body, blocks: seq<seq<InstanceID>>)
    requires id in n.insts && n.insts[id].status == PreAccepted && n.insts[id].cmd.Some?
    requires body.PreAcceptOK? || body.PreAcceptReply?
    ensures var o := if body.PreAcceptOK? then OnPreAcceptOK(n, id) else OnPreAcceptReply(n, id, body.updated);
            Answers(n, Finish(o, blocks), id, body)
  {
    hide Finish, OnEitherPreAcceptReply, ToAll;
    var o := if body.PreAcceptOK? then OnPreAcceptOK(n, id) else OnPreAcceptReply(n, id, body.updated);
    var was := n.insts[id];
    var updated := if body.PreAcceptOK? then was.Attributes() else body.updated;
    SameSizeSame(was.deps, was.deps + updated.deps);
    EitherGoesTo(SetInst(n, id, Merged(was, body)), id);
    FinishOne(o, blocks, id);
  }

  /**
   * A leader never sits on enough replies: while it waits for Accept replies no
   * majority has accepted, and while it waits for PreAccept replies that differ
   * no majority has replied, or all but one when they agree.
   */
  lemma StillShort(c: Cluster, a: InstanceID)
    requires Reachable(c) && a.replica in c.conf
    ensures a.replica in c.nodes
    ensures a in c.nodes[a.replica].insts ==>
              var inst := c.nodes[a.replica].insts[a];
              && (inst.status == Accepted ==> 2 * (|Acked(c, a)| + 1) <= |c.conf|)
              && (inst.status == PreAccepted && inst.differentReplies ==> 2 * (|Counted(c, a)| + 1) <= |c.conf|)
              && (inst.status == PreAccepted && !inst.differentReplies ==>
                    Counted(c, a) == {} || |Counted(c, a)| + 1 < |c.conf| - 1)
  {
    ReachableInv(c);
    var x := a.replica;
    var n := c.nodes[x];
    LocalAt(c, x);
    if a in n.insts {
      assert InstOk(n.nodes, n.id, a, n.insts[a]);
      assert InstanceInv(c, a);
      NotedLed(c, a);
      CountedReplies(c, a);
    }
  }

  /** In every run, each reply the leader waits for has its effect, and the counts are those of the repliers. */
  lemma ReplyHeard(c: Cluster, d: Cluster, x: ReplicaID, k: nat, blocks: seq<seq<InstanceID>>)
    requires Reachable(c) && Base(c) && x in c.nodes && k < |c.nodes[x].msgs|
    requires DeliverStep(c, d, x, c.nodes[x].msgs[k].inst.replica, k, blocks)
    requires IsAwaited(c.nodes[c.nodes[x].msgs[k].inst.replica], c.nodes[x].msgs[k])
    ensures var m := c.nodes[x].msgs[k];
            var a := m.inst;
            && a.replica in d.nodes
            && Answers(c.nodes[a.replica], d.nodes[a.replica], a, m.body)
            && if m.body.AcceptOK?
               then Acked(d, a) == Acked(c, a) + {x} && d.nodes[a.replica].insts[a].acceptReplies == |Acked(d, a)|
               else Counted(d, a) == Counted(c, a) + {x} && d.nodes[a.replica].insts[a].preAcceptReplies == |Counted(d, a)|
  {
    hide Reachable, GlobalInv, Acknowledged, Compared, Announces, Step, Finish, DeliverStep;
    ReachableInv(c);
    var m := c.nodes[x].msgs[k];
    DeliveredTo(c, d, x, m.inst.replica, k, blocks);
    HeardAt(c, x, k, blocks);
    assert Next(c, d);
    NextInv(c, d);
    RepliesCounted(d, m.inst);
  }

  lemma DeliveredTo(c: Cluster, d: Cluster, x: ReplicaID, y: ReplicaID, k: nat, blocks: seq<seq<InstanceID>>)
    requires Base(c) && DeliverStep(c, d, x, y, k, blocks) && IsAwaited(c.nodes[y], c.nodes[x].msgs[k])
    ensures y in d.nodes && d.nodes[y] == Finish(Step(c.nodes[y], c.nodes[x].msgs[k]), blocks) && d.conf == c.conf
    ensures x in c.conf && y in c.conf && NextOnLink(c, x, y, k)
    ensures var m := c.nodes[x].msgs[k];
            if m.body.AcceptOK? then Acked(d, m.inst) == Acked(c, m.inst) + {x}
            else Counted(d, m.inst) == Counted(c, m.inst) + {x}
  {
    hide Step, Finish, RunOk;
  }

  lemma HeardAt(c: Cluster, x: ReplicaID, k: nat, blocks: seq<seq<InstanceID>>)
    requires GlobalInv(c) && Base(c) && x in c.conf && k < |c.nodes[x].msgs| && c.nodes[x].msgs[k].inst.replica in c.conf
    requires var m := c.nodes[x].msgs[k];
             NextOnLink(c, x, m.inst.replica, k) && IsAwaited(c.nodes[m.inst.replica], m)
    ensures var m := c.nodes[x].msgs[k];
            var n := c.nodes[m.inst.replica];
            Answers(n, Finish(Step(n, m), blocks), m.inst, m.body)
  {
    hide GlobalInv, LocalOk, Answers, Finish, OnPreAcceptOK, OnPreAcceptReply, OnAcceptOK;
    var m := c.nodes[x].msgs[k];
    var a, n := m.inst, c.nodes[m.inst.replica];
    NextMessage(c, x, a.replica, k);
    LocalAt(c, a.replica);
    PreIs(n, a);
    StepIs(n, m);
    if m.body.AcceptOK? {
      AckAnswered(n, a, blocks);
    } else {
      ReplyAnswered(n, a, m.body, blocks);
    }
  }

  lemma RepliesCounted(c: Cluster, a: InstanceID)
    requires GlobalInv(c) && a.replica in c.conf && a in c.nodes[a.replica].insts
    ensures c.nodes[a.replica].insts[a].preAcceptReplies == |Counted(c, a)|
    ensures c.nodes[a.replica].insts[a].acceptReplies == |Acked(c, a)|
  {
    assert InstanceInv(c, a);
  }

  /** What a tick does to an instance: its timer counts once, and goes off at the second count. */
  ghost predicate Ticked(was: Instance, now: Instance) {
    if was.timer.paused then now == was
    else if was.timer.ticksElapsed == 0 then now == was.(timer := Timer(1, false))
    else now == was.(status := Accepted, timer := Timer(0, true))
  }

  /** Whoever the instance was to be accepted by has been asked to. */
  ghost predicate Asked(m: Node, id: InstanceID, inst: Instance) {
    forall y :: y in m.nodes && y != m.id ==> Message(y, id, AcceptMsg(Attrs(inst.seqNum, inst.deps))) in m.msgs
  }

  lemma {:induction false} AskedAll(nodes: seq<ReplicaID>, self: ReplicaID, id: InstanceID, body: Body)
    ensures forall y :: y in nodes && y != self ==> Message(y, id, body) in BroadcastMsgs(nodes, self, id, body)
  {
    if nodes != [] {
      var n := |nodes| - 1;
      assert nodes == nodes[..n] + [nodes[n]];
      AskedAll(nodes[..n], self, id, body);
    }
  }

  lemma TickedOne(n: Node, i: InstanceID, id: InstanceID)
    requires LocalOk(n) && i in n.timers && id in n.insts
    ensures id in TickOne(n, i).insts && n.msgs <= TickOne(n, i).msgs
    ensures TickOne(n, i).id == n.id && TickOne(n, i).nodes == n.nodes
    ensures if id == i then Ticked(n.insts[id], TickOne(n, i).insts[id]) && !n.insts[id].timer.paused
            else TickOne(n, i).insts[id] == n.insts[id]
    ensures id == i && TickOne(n, i).insts[id].status == Accepted ==> Asked(TickOne(n, i), id, n.insts[id])
  {
    hide BroadcastMsgs;
    assert InstOk(n.nodes, n.id, i, n.insts[i]) && Waiting(n.nodes, n.id, i, n.insts[i]);
    AskedAll(n.nodes, n.id, i, AcceptMsg(n.insts[i].Attributes()));
  }

  lemma {:induction false} TickedAll(n: Node, order: seq<InstanceID>, id: InstanceID)
    requires LocalOk(n) && NoDup(order) && id in n.insts && forall i :: i in order ==> i in n.timers
    ensures id in Tick(n, order).insts
    ensures Tick(n, order).id == n.id && Tick(n, order).nodes == n.nodes
    ensures if id in order
            then && Ticked(n.insts[id], Tick(n, order).insts[id]) && !n.insts[id].timer.paused
                 && (Tick(n, order).insts[id].status == Accepted ==> Asked(Tick(n, order), id, n.insts[id]))
            else Tick(n, order).insts[id] == n.insts[id]
  {
    hide LocalOk, TickOne, Ticked;
    if order != [] {
      var l := |order| - 1;
      assert forall i :: i in order[..l] ==> i in order;
      assert order == order[..l] + [order[l]];
      TickedAll(n, order[..l], id);
      TickOk(n, order[..l]);
      TickedOne(Tick(n, order[..l]), order[l], id);
    }
  }

  /** In every run a tick moves exactly the timers that run, whatever order they are visited in. */
  lemma TickHeard(c: Cluster, d: Cluster, x: ReplicaID, order: seq<InstanceID>, a: InstanceID)
    requires Reachable(c) && Base(c) && TickStep(c, d, x, order) && a in c.nodes[x].insts
    ensures x in d.nodes && a in d.nodes[x].insts && Ticked(c.nodes[x].insts[a], d.nodes[x].insts[a])
    ensures c.nodes[x].insts[a].status != d.nodes[x].insts[a].status ==> Asked(d.nodes[x], a, c.nodes[x].insts[a])
  {
    hide Reachable, Tick, Asked;
    ReachableInv(c);
    var n := c.nodes[x];
    LocalAt(c, x);
    assert InstOk(n.nodes, n.id, a, n.insts[a]);
    TickedAll(n, order, a);
    assert a in order <==> a in Elems(order);
  }

  // ----- The other replicas -----

  /** From n to m a replica has been asked to accept the attributes for id. */
  ghost predicate TakesOver(n: Node, m: Node, id: InstanceID, attrs: Attrs) {
    && id in n.insts && id in m.insts
    && if n.insts[id].status == Committed || n.insts[id].status == Executed then m == n
       else
         && m.insts[id].status == Accepted && m.insts[id].cmd == n.insts[id].cmd
         && m.insts[id].seqNum == attrs.seqNum && m.insts[id].deps == attrs.deps
         && m.msgs == n.msgs + [Message(id.replica, id, AcceptOK)]
  }

  /** From n to m a replica has been told of the decision about id. */
  ghost predicate Learns(n: Node, m: Node, id: InstanceID, cmd: Command, attrs: Attrs) {
    && id in m.insts
    && if id in n.insts && (n.insts[id].status == Committed || n.insts[id].status == Executed) then m == n
       else
         && (m.insts[id].status == Committed || m.insts[id].status == Executed)
         && m.insts[id].cmd == Some(cmd) && m.insts[id].seqNum == attrs.seqNum && m.insts[id].deps == attrs.deps
         && m.msgs == n.msgs
  }

  lemma AcceptMeans(n: Node, id: InstanceID, attrs: Attrs)
    requires id in n.insts
    ensures TakesOver(n, OnAccept(n, id, attrs).node, id, attrs)
  {
  }

  lemma CommitMeans(n: Node, id: InstanceID, cmd: Command, attrs: Attrs, blocks: seq<seq<InstanceID>>)
    requires id in n.insts
    ensures Learns(n, Finish(OnCommit(n, id, cmd, attrs), blocks), id, cmd, attrs)
  {
    hide Flat, Concat, DeliverBlocks;
    FinishOne(OnCommit(n, id, cmd, attrs), blocks, id);
  }
}

/**
 * What replicas make of a client's command and of a request to pre-accept one,
 * said over the instances they know.
 */
module Proposals {
  import opened Types
  import opened State
  import opened Scan
  import opened Handlers
  import opened Cluster
  import opened Steps
  import opened Local
  import opened Runs

  /** seqNum lies above all that has been seen and not below what was offered, and no smaller number does. */
  ghost predicate LeastAbove(insts: Instances, rows: seq<ReplicaID>, cmd: Command, ignored: InstanceID,
                             offered: SeqNum, seqNum: SeqNum)
  {
    && offered <= seqNum && 1 <= seqNum
    && (forall i :: Seen(insts, cmd, ignored, i) && i.replica in rows ==> insts[i].seqNum < seqNum)
    && (seqNum == offered || seqNum == 1
        || exists i :: Seen(insts, cmd, ignored, i) && i.replica in rows && insts[i].seqNum + 1 == seqNum)
  }

  /** Nothing has been seen that the offer does not account for. */
  ghost predicate Agrees(insts: Instances, rows: seq<ReplicaID>, cmd: Command, ignored: InstanceID, offered: Attrs) {
    && 1 <= offered.seqNum
    && (forall i :: Seen(insts, cmd, ignored, i) && i.replica in rows ==> insts[i].seqNum < offered.seqNum)
    && (forall i :: Due(insts, cmd, ignored, i) && i.replica in rows ==> i in offered.deps)
  }

  /** From n to m the replica has pre-accepted id, which it was offered with these attributes. */
  ghost predicate PreAccepts(n: Node, m: Node, id: InstanceID, cmd: Command, offered: Attrs) {
    && id in m.insts && m.insts[id].status == PreAccepted && m.insts[id].cmd == Some(cmd)
    && LeastAbove(n.insts, n.nodes, cmd, id, offered.seqNum, m.insts[id].seqNum)
    && (forall d :: d in m.insts[id].deps <==>
          d in offered.deps || (Due(n.insts, cmd, id, d) && d.replica in n.nodes))
    && m.msgs == n.msgs + [Message(id.replica, id,
                                   if Agrees(n.insts, n.nodes, cmd, id, offered) then PreAcceptOK
                                   else PreAcceptReply(Attrs(m.insts[id].seqNum, m.insts[id].deps)))]
  }

  lemma PreAcceptMeans(n: Node, id: InstanceID, cmd: Command, offered: Attrs)
    requires id in n.insts && (n.insts[id].status == NoStatus || n.insts[id].status == PreAccepted)
    requires SeqAndDeps(n.insts, n.nodes, cmd, id).ok
    ensures PreAccepts(n, OnPreAccept(n, id, cmd, offered).node, id, cmd, offered)
  {
    hide SeqAndDeps, Seen, Adds;
    SeqAndDepsExact(n.insts, n.nodes, cmd, id);
    var found, local := SeqAndDeps(n.insts, n.nodes, cmd, id), LocalAttrs(n, id, cmd, offered);
    SameSizeSame(offered.deps, local.deps);
    assert local.deps == offered.deps <==> forall i :: i in found.deps ==> i in offered.deps;
    assert local.seqNum == offered.seqNum <==> found.maxSeq < offered.seqNum;
  }

  /** From n to m the replica has proposed cmd as id, the next of its row. */
  ghost predicate Proposes(n: Node, m: Node, id: InstanceID, cmd: Command) {
    && id.replica == n.id && 1 <= id.num && (id.num == 1 || InstanceID(n.id, id.num - 1) in n.insts)
    && (forall i :: i in n.insts && i.replica == n.id ==> i.num < id.num)
    && id in m.insts && m.insts == n.insts[id := m.insts[id]]
    && m.insts[id].status == PreAccepted && m.insts[id].cmd == Some(cmd)
    && LeastAbove(n.insts, n.nodes, cmd, InstanceID(0, 0), 0, m.insts[id].seqNum)
    && (forall d :: d in m.insts[id].deps <==> Due(n.insts, cmd, InstanceID(0, 0), d) && d.replica in n.nodes)
    && n.msgs <= m.msgs
    && (Distinct(n.nodes) ==>
          ToAll(m.msgs[|n.msgs|..], n.nodes, n.id, id,
                PreAcceptMsg(cmd, Attrs(m.insts[id].seqNum, m.insts[id].deps))))
  }

  lemma RequestMeans(n: Node, cmd: Command)
    requires SeqAndDeps(n.insts, n.nodes, cmd, InstanceID(0, 0)).ok
    ensures Proposes(n, OnRequest(n, cmd).node, InstanceID(n.id, MaxNum(n.insts, n.id) + 1), cmd)
  {
    hide SeqAndDeps, Seen, Adds, OnRequest, ToAll, BroadcastMsgs;
    var id, inst, m := InstanceID(n.id, MaxNum(n.insts, n.id) + 1), Requested(n, cmd), OnRequest(n, cmd).node;
    SeqAndDepsExact(n.insts, n.nodes, cmd, InstanceID(0, 0));
    RequestForm(n, cmd);
    if Distinct(n.nodes) {
      BroadcastFacts(n.nodes, n.id, id, PreAcceptMsg(cmd, inst.Attributes()));
    }
    assert m.msgs[|n.msgs|..] == BroadcastMsgs(n.nodes, n.id, id, PreAcceptMsg(cmd, inst.Attributes()));
  }

  // ----- In every run -----

  /** The scan does not look at what it is to ignore. */
  lemma Ignoring(insts: Instances, cmd: Command, id: InstanceID, inst: Instance, i: InstanceID)
    ensures Seen(insts[id := inst], cmd, id, i) == Seen(insts, cmd, id, i)
    ensures Due(insts[id := inst], cmd, id, i) == Due(insts, cmd, id, i)
  {
    hide Single;
    var more := insts[id := inst];
    assert forall j :: Relevant(more, cmd, id, j) == Relevant(insts, cmd, id, j);
    forall j ensures WrittenAbove(more, cmd, id, j) == WrittenAbove(insts, cmd, id, j) {
    }
    forall j ensures Stops(more, cmd, id, j) == Stops(insts, cmd, id, j) {
    }
  }

  /** In every run, whoever reads a request to pre-accept answers it as it should. */
  lemma PreAcceptHeard(c: Cluster, d: Cluster, x: ReplicaID, y: ReplicaID, k: nat, blocks: seq<seq<InstanceID>>)
    requires Reachable(c) && Base(c) && DeliverStep(c, d, x, y, k, blocks)
    requires c.nodes[x].msgs[k].body.PreAcceptMsg?
    ensures var m := c.nodes[x].msgs[k];
            y in d.nodes && PreAccepts(c.nodes[y], d.nodes[y], m.inst, m.body.cmd, m.body.attrs)
  {
    hide Reachable, GlobalInv, SeqAndDeps, LocalOk, OnPreAccept, Seen, Due, PreAccepts, RunOk;
    ReachableInv(c);
    NextMessage(c, x, y, k);
    LocalAt(c, y);
    var n, m := c.nodes[y], c.nodes[x].msgs[k];
    var a, cmd, attrs := m.inst, m.body.cmd, m.body.attrs;
    FirstWord(c, a, y, k);
    PreAcceptOk(n, a, cmd, attrs);
    var s := SetInst(n, a, NEW_INSTANCE);
    PreAcceptMeans(s, a, cmd, attrs);
    Forget(n, OnPreAccept(s, a, cmd, attrs).node, a, cmd, attrs);
  }

  lemma Forget(n: Node, m: Node, id: InstanceID, cmd: Command, offered: Attrs)
    requires PreAccepts(SetInst(n, id, NEW_INSTANCE), m, id, cmd, offered)
    ensures PreAccepts(n, m, id, cmd, offered)
  {
    hide LeastAbove, Agrees, Due;
    SameOffer(n.insts, n.nodes, cmd, id, offered, m.insts[id].seqNum);
  }

  lemma SameOffer(insts: Instances, rows: seq<ReplicaID>, cmd: Command, id: InstanceID, offered: Attrs, seqNum: SeqNum)
    ensures var more := insts[id := NEW_INSTANCE];
            && LeastAbove(more, rows, cmd, id, offered.seqNum, seqNum)
               == LeastAbove(insts, rows, cmd, id, offered.seqNum, seqNum)
            && Agrees(more, rows, cmd, id, offered) == Agrees(insts, rows, cmd, id, offered)
            && forall i :: Due(more, cmd, id, i) == Due(insts, cmd, id, i)
  {
    hide Stops, Adds;
    var more := insts[id := NEW_INSTANCE];
    forall i
      ensures Seen(more, cmd, id, i) == Seen(insts, cmd, id, i)
      ensures Due(more, cmd, id, i) == Due(insts, cmd, id, i)
    {
      Ignoring(insts, cmd, id, NEW_INSTANCE, i);
    }
    assert forall i :: Seen(insts, cmd, id, i) ==> i in insts && i != id && more[i] == insts[i];
  }

  /** And every client's command becomes an instance as it should. */
  lemma RequestMade(c: Cluster, d: Cluster, x: ReplicaID, cmd: Command)
    requires Reachable(c) && Base(c) && RequestStep(c, d, x, cmd)
    ensures x in d.nodes && exists id :: Proposes(c.nodes[x], d.nodes[x], id, cmd)
  {
    hide Reachable, GlobalInv, SeqAndDeps, LocalOk, OnRequest, Proposes;
    ReachableInv(c);
    LocalAt(c, x);
    RequestOk(c.nodes[x], cmd);
    RequestMeans(c.nodes[x], cmd);
  }
}

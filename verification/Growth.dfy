/**
 * What one step may do to a replica's instances: first attributes are fixed,
 * the leader's dependencies only grow, committed copies no longer change, and
 * a new instance is covered by the scan.
 */
module Growth {
  import opened Types
  import opened State
  import opened Graph
  import opened Schedule
  import opened Scan
  import opened Handlers
  import opened Cluster
  import opened Steps
  import opened Local
  import opened Runs

  /** How a replica's copy of a may change. */
  predicate CopyKept(n: Node, m: Node, a: InstanceID) {
    a in n.insts && a in n.pre ==>
      && a in m.insts && a in m.pre && m.pre[a] == n.pre[a]
      && (a.replica == n.id ==>
            m.insts[a].cmd == n.insts[a].cmd
            && n.insts[a].deps <= m.insts[a].deps && n.insts[a].seqNum <= m.insts[a].seqNum)
      && (Rank(n.insts[a].status) >= 3 ==>
            Rank(m.insts[a].status) >= 3
            && m.insts[a].cmd == n.insts[a].cmd && m.insts[a].Attributes() == n.insts[a].Attributes())
  }

  ghost predicate Kept(n: Node, m: Node) {
    m.id == n.id && forall a {:trigger CopyKept(n, m, a)} :: CopyKept(n, m, a)
  }

  /** The first attributes of a new instance cover what was there before. */
  ghost predicate FreshCopy(n: Node, m: Node, b: InstanceID) {
    b in m.insts && b !in n.insts ==>
      && b in m.pre && m.insts[b].cmd.Some?
      && (forall a :: a in n.insts && n.insts[a].cmd.Some? && n.insts[a].cmd.value.Interferes(m.insts[b].cmd.value)
            ==> Covered(n.insts, m.pre[b].deps, a))
      && (b.replica == n.id ==> forall a :: a in n.insts && a.replica == n.id ==> a.num < b.num)
  }

  ghost predicate Grown(n: Node, m: Node) {
    && Kept(n, m)
    && (forall b {:trigger FreshCopy(n, m, b)} :: FreshCopy(n, m, b))
    && (forall a, b :: a in m.insts && a !in n.insts && b in m.insts && b !in n.insts ==> a == b)
  }

  /** Nothing new, and commands and first attributes as they were. */
  ghost predicate NothingNew(n: Node, m: Node) {
    && m.insts.Keys == n.insts.Keys && m.pre == n.pre
    && forall a :: a in n.insts ==> m.insts[a].cmd == n.insts[a].cmd
  }

  lemma GrownByNothing(n: Node, m: Node)
    requires Kept(n, m) && NothingNew(n, m)
    ensures Grown(n, m)
  {
    assert forall b :: b in m.insts.Keys ==> b in n.insts;
  }

  lemma GrownThenNothing(n: Node, e: Node, m: Node)
    requires Grown(n, e) && Kept(e, m) && NothingNew(e, m)
    requires n.pre.Keys == n.insts.Keys
    ensures Grown(n, m)
  {
    assert forall b :: b in m.insts <==> b in e.insts.Keys;
    forall a ensures CopyKept(n, m, a) {
      assert CopyKept(n, e, a) && CopyKept(e, m, a);
    }
    forall b ensures FreshCopy(n, m, b) {
      assert FreshCopy(n, e, b);
    }
  }

  lemma KeptTrans(n: Node, e: Node, m: Node)
    requires Kept(n, e) && Kept(e, m)
    ensures Kept(n, m)
  {
    forall a ensures CopyKept(n, m, a) {
      assert CopyKept(n, e, a) && CopyKept(e, m, a);
    }
  }

  /** A step that touches one instance, new to this replica. */
  lemma GrownByOne(n: Node, m: Node, b: InstanceID, inst: Instance, pre: Attrs, sent: seq<Message>)
    requires Touches(n, m, b, inst, pre, sent) && b !in n.insts && inst.cmd.Some?
    requires n.pre.Keys == n.insts.Keys
    requires forall a :: a in n.insts && n.insts[a].cmd.Some? && n.insts[a].cmd.value.Interferes(inst.cmd.value)
               ==> Covered(n.insts, pre.deps, a)
    requires b.replica == n.id ==> forall a :: a in n.insts && a.replica == n.id ==> a.num < b.num
    ensures Grown(n, m)
  {
    hide Covered;
    assert b !in n.pre.Keys;
    forall a ensures CopyKept(n, m, a) {
    }
    forall a ensures FreshCopy(n, m, a) {
    }
  }

  /** A step that touches one instance it holds already. */
  lemma KeptTouch(n: Node, m: Node, b: InstanceID, inst: Instance, sent: seq<Message>)
    requires b in n.insts && b in n.pre && Touches(n, m, b, inst, n.pre[b], sent)
    requires inst.cmd == n.insts[b].cmd
    requires b.replica == n.id ==> n.insts[b].deps <= inst.deps && n.insts[b].seqNum <= inst.seqNum
    requires Rank(n.insts[b].status) >= 3 ==>
               Rank(inst.status) >= 3 && inst.Attributes() == n.insts[b].Attributes()
    ensures Kept(n, m) && NothingNew(n, m)
  {
    forall a ensures CopyKept(n, m, a) {
    }
    assert m.insts.Keys == n.insts.Keys;
    assert m.pre == n.pre;
  }

  // ----- Requests and requests to pre-accept -----

  lemma InstsScan(n: Node)
    requires LocalOk(n)
    ensures WellFormed(n.insts)
    ensures forall a :: a in n.insts ==> n.insts[a].cmd.Some? && a.replica in n.nodes && a.num >= 1
  {
    forall a | a in n.insts ensures InstOk(n.nodes, n.id, a, n.insts[a]) {
    }
  }

  /** The scan's dependencies cover every known instance that interferes. */
  lemma ScanCovers(n: Node, cmd: Command, ignored: InstanceID, a: InstanceID)
    requires LocalOk(n) && cmd.span.WellFormed()
    requires a in n.insts && a != ignored && n.insts[a].cmd.Some? && n.insts[a].cmd.value.Interferes(cmd)
    ensures Covered(n.insts, SeqAndDeps(n.insts, n.nodes, cmd, ignored).deps, a)
  {
    hide Covered, SeqAndDeps, LocalOk;
    InstsScan(n);
    ScanOk(n, cmd, ignored);
    SeqAndDepsCovers(n.insts, n.nodes, cmd, ignored, a);
  }

  lemma RequestGrows(n: Node, cmd: Command)
    requires LocalOk(n) && cmd.span.WellFormed()
    ensures Grown(n, OnRequest(n, cmd).node)
  {
    hide Covered, SeqAndDeps, OnRequest, BroadcastMsgs, Touches;
    var b, inst := InstanceID(n.id, MaxNum(n.insts, n.id) + 1), Requested(n, cmd);
    RequestTouches(n, cmd);
    InstsScan(n);
    forall a | a in n.insts && n.insts[a].cmd.Some? && n.insts[a].cmd.value.Interferes(cmd)
      ensures Covered(n.insts, inst.deps, a)
    {
      ScanCovers(n, cmd, InstanceID(0, 0), a);
    }
    GrownByOne(n, OnRequest(n, cmd).node, b, inst, inst.Attributes(),
               BroadcastMsgs(n.nodes, n.id, b, PreAcceptMsg(cmd, inst.Attributes())));
  }

  /** Covered only looks at instances the scan looks at. */
  lemma CoveredWithout(insts: Instances, id: InstanceID, inst: Instance, deps: set<InstanceID>, a: InstanceID)
    requires a in insts && id !in insts && id !in deps
    requires Covered(insts[id := inst], deps, a)
    ensures Covered(insts, deps, a)
  {
    if a !in deps {
      var j :| NewerWrite(insts[id := inst], deps, a, j);
      assert NewerWrite(insts, deps, a, j);
    }
  }

  lemma PreAcceptCovers(n: Node, id: InstanceID, cmd: Command, attrs: Attrs, a: InstanceID)
    requires LocalOk(n) && id !in n.insts && cmd.span.WellFormed()
    requires a in n.insts && n.insts[a].cmd.Some? && n.insts[a].cmd.value.Interferes(cmd)
    ensures Covered(n.insts, LocalAttrs(SetInst(n, id, NEW_INSTANCE), id, cmd, attrs).deps, a)
  {
    hide Covered, SeqAndDeps, LocalOk;
    var s := SetInst(n, id, NEW_INSTANCE);
    var deps := SeqAndDeps(s.insts, s.nodes, cmd, id).deps;
    InstsScan(n);
    SeqAndDepsOk(s.insts, s.nodes, cmd, id);
    SeqAndDepsCovers(s.insts, s.nodes, cmd, id, a);
    if id in deps {
      SeqAndDepsSound(s.insts, s.nodes, cmd, id, id);
      assert false;
    }
    CoveredWithout(n.insts, id, NEW_INSTANCE, deps, a);
    CoveredMono(n.insts, deps, deps + attrs.deps, a);
  }

  lemma ReadPreAcceptGrows(c: Cluster, x: ReplicaID, y: ReplicaID, k: nat)
    requires GlobalInv(c) && x in c.conf && y in c.conf && NextOnLink(c, x, y, k)
    requires c.nodes[x].msgs[k].body.PreAcceptMsg?
    ensures Grown(c.nodes[y], Step(c.nodes[y], c.nodes[x].msgs[k]).node)
  {
    hide InstanceInv, Step, LocalOk, Touches, LocalAttrs, InstancesOk, LocalsOk, PosOk, Covered, Grown;
    var n, m := c.nodes[y], c.nodes[x].msgs[k];
    NextMessage(c, x, y, k);
    FirstWord(c, m.inst, y, k);
    LocalAt(c, y);
    PreAcceptTouches(n, m);
    PreAcceptGrows(n, m);
  }

  lemma PreAcceptGrows(n: Node, m: Message)
    requires LocalOk(n) && ValidMessage(n, m) && m.inst !in n.insts && m.inst.num >= 1
    requires m.body.PreAcceptMsg? && m.body.cmd.span.WellFormed()
    ensures Grown(n, Step(n, m).node)
  {
    hide Step, Touches, LocalAttrs, Covered, Grown;
    PreAcceptTouches(n, m);
    var b, cmd, attrs := m.inst, m.body.cmd, m.body.attrs;
    var local := LocalAttrs(SetInst(n, b, NEW_INSTANCE), b, cmd, attrs);
    forall a | a in n.insts && n.insts[a].cmd.Some? && n.insts[a].cmd.value.Interferes(cmd)
      ensures Covered(n.insts, local.deps, a)
    {
      PreAcceptCovers(n, b, cmd, attrs, a);
    }
    GrownByOne(n, Step(n, m).node, b,
               NEW_INSTANCE.(status := PreAccepted, cmd := Some(cmd), seqNum := local.seqNum, deps := local.deps),
               local, [Message(b.replica, b, if local == attrs then PreAcceptOK else PreAcceptReply(local))]);
  }

  /** No message but the first changes more than the copy it is about. */
  ghost predicate Settled(n: Node, m: Node) {
    Kept(n, m) && NothingNew(n, m)
  }

  lemma AcceptSettled(n: Node, m: Message)
    requires LocalOk(n) && ValidMessage(n, m) && m.body.AcceptMsg?
    requires m.inst in n.insts && Rank(n.insts[m.inst].status) < 3
    ensures Settled(n, Step(n, m).node)
  {
    hide Step, Touches, LocalOk;
    AcceptTouches(n, m);
    KeptTouch(n, Step(n, m).node, m.inst,
              n.insts[m.inst].(status := Accepted, seqNum := m.body.attrs.seqNum, deps := m.body.attrs.deps),
              [Message(m.inst.replica, m.inst, AcceptOK)]);
  }

  lemma CommitSettled(n: Node, m: Message)
    requires LocalOk(n) && ValidMessage(n, m) && m.body.CommitMsg? && m.body.cmd.span.WellFormed()
    requires m.inst in n.insts && Rank(n.insts[m.inst].status) < 3 && n.insts[m.inst].cmd == Some(m.body.cmd)
    ensures Settled(n, Step(n, m).node)
  {
    hide Step, Touches, LocalOk;
    CommitTouches(n, m);
    KeptTouch(n, Step(n, m).node, m.inst,
              n.insts[m.inst].(status := Committed, cmd := Some(m.body.cmd),
                               seqNum := m.body.attrs.seqNum, deps := m.body.attrs.deps), []);
  }

  lemma AwaitedSettled(n: Node, m: Message)
    requires LocalOk(n) && ValidMessage(n, m) && IsAwaited(n, m)
    ensures Settled(n, Step(n, m).node)
  {
    hide Step, Touches, LocalOk, ActedMsgs;
    if m.body.AcceptOK? {
      AckTouches(n, m);
    } else {
      ReplyTouches(n, m);
    }
    KeptTouch(n, Step(n, m).node, m.inst, Acted(n.nodes, n.insts[m.inst], m.body), ActedMsgs(n, m.inst, m.body));
  }

  lemma SettledItself(n: Node)
    ensures Settled(n, n)
  {
  }

  /** What the copy of the receiver is when a message of a kind but PreAccept is next. */
  lemma NextIsKnown(c: Cluster, x: ReplicaID, y: ReplicaID, k: nat)
    requires GlobalInv(c) && x in c.conf && y in c.conf && NextOnLink(c, x, y, k)
    requires !c.nodes[x].msgs[k].body.PreAcceptMsg?
    ensures var n, m := c.nodes[y], c.nodes[x].msgs[k];
            && m.inst in n.insts
            && (m.body.AcceptMsg? ==> Rank(n.insts[m.inst].status) < 3)
            && (m.body.CommitMsg? ==> Rank(n.insts[m.inst].status) < 3
                                      && n.insts[m.inst].cmd == Some(m.body.cmd)
                                      && m.body.cmd.span.WellFormed())
  {
    NextMessage(c, x, y, k);
    var m := c.nodes[x].msgs[k];
    if !IsReply(m.body) {
      BehindLeader(c, x, y, k);
      AskedBefore(c, y, k, m.inst, Kind(m.body));
    }
  }

  lemma ReadGrows(c: Cluster, x: ReplicaID, y: ReplicaID, k: nat)
    requires GlobalInv(c) && x in c.conf && y in c.conf && NextOnLink(c, x, y, k)
    ensures Grown(c.nodes[y], Step(c.nodes[y], c.nodes[x].msgs[k]).node)
  {
    hide InstanceInv, Step, LocalOk, InstancesOk, LocalsOk, PosOk, Grown, Kept, NothingNew;
    var n, m := c.nodes[y], c.nodes[x].msgs[k];
    if m.body.PreAcceptMsg? {
      ReadPreAcceptGrows(c, x, y, k);
    } else {
      NextMessage(c, x, y, k);
      NextIsKnown(c, x, y, k);
      LocalAt(c, y);
      if m.body.AcceptMsg? {
        AcceptSettled(n, m);
      } else if m.body.CommitMsg? {
        CommitSettled(n, m);
      } else if IsAwaited(n, m) {
        AwaitedSettled(n, m);
      } else {
        IgnoredStays(n, m);
        SettledItself(n);
      }
      GrownByNothing(n, Step(n, m).node);
    }
  }

  lemma IgnoredStays(n: Node, m: Message)
    requires m.inst in n.insts && IsReply(m.body) && !IsAwaited(n, m)
    ensures Step(n, m).node == n
  {
  }

  lemma DeliverySettled(n: Node, blocks: seq<seq<InstanceID>>)
    requires CanDeliver(n, Flat(blocks))
    ensures Settled(n, DeliverBlocks(n, blocks))
  {
    hide Flat, Concat;
    var m := DeliverBlocks(n, blocks);
    forall a ensures CopyKept(n, m, a) {
    }
  }

  lemma TickOneSettled(n: Node, a: InstanceID)
    requires LocalOk(n) && a in n.timers
    ensures Settled(n, TickOne(n, a))
  {
    hide TickOne, Touches, LocalOk, BroadcastMsgs;
    TickOneTouches(n, a);
    KeptTouch(n, TickOne(n, a), a, TickOne(n, a).insts[a],
              if TickOne(n, a).insts[a].status == PreAccepted then []
              else BroadcastMsgs(n.nodes, n.id, a, AdvanceBody(n.insts[a], Accepted)));
  }

  lemma SettledTrans(n: Node, e: Node, m: Node)
    requires Settled(n, e) && Settled(e, m)
    ensures Settled(n, m)
  {
    KeptTrans(n, e, m);
    assert forall a :: a in n.insts ==> a in e.insts.Keys;
  }

  lemma {:induction false} TickSettled(n: Node, order: seq<InstanceID>)
    requires LocalOk(n) && NoDup(order) && forall id :: id in order ==> id in n.timers
    ensures Settled(n, Tick(n, order))
  {
    hide LocalOk, TickOne, Settled;
    if order == [] {
      SettledItself(n);
    } else {
      var l := |order| - 1;
      assert forall id :: id in order[..l] ==> id in order;
      TickSettled(n, order[..l]);
      TickOk(n, order[..l]);
      assert order[l] !in order[..l];
      TickOneSettled(Tick(n, order[..l]), order[l]);
      SettledTrans(n, Tick(n, order[..l]), Tick(n, order));
    }
  }

  /** Every step lets every replica grow in this way only. */
  ghost predicate AllGrown(c: Cluster, d: Cluster)
    requires Base(c) && Base(d)
  {
    && c.conf == d.conf
    && forall x {:trigger c.nodes[x]} {:trigger d.nodes[x]} :: x in c.conf ==> Grown(c.nodes[x], d.nodes[x])
  }

  lemma OneGrown(c: Cluster, d: Cluster, y: ReplicaID)
    requires Base(c) && Base(d) && c.conf == d.conf && y in c.conf && d.nodes == c.nodes[y := d.nodes[y]]
    requires Grown(c.nodes[y], d.nodes[y])
    ensures AllGrown(c, d)
  {
    forall x | x in c.conf ensures Grown(c.nodes[x], d.nodes[x]) {
      if x != y {
        SettledItself(c.nodes[x]);
        GrownByNothing(c.nodes[x], c.nodes[x]);
      }
    }
  }

  lemma DeliverGrows(c: Cluster, d: Cluster, x: ReplicaID, y: ReplicaID, k: nat, blocks: seq<seq<InstanceID>>)
    requires GlobalInv(c) && DeliverStep(c, d, x, y, k, blocks)
    ensures Grown(c.nodes[y], d.nodes[y])
  {
    hide GlobalInv, Step, RunOk, DeliverBlocks, Grown, LocalOk;
    InvBase(c);
    var n, e := c.nodes[y], AfterRead(c, x, y, k);
    ReadGrows(c, x, y, k);
    if Step(n, c.nodes[x].msgs[k]).run {
      AfterReadInv(c, x, y, k);
      LocalAt(c, y);
      LocalAt(e, y);
      RunDelivers(e.nodes[y], blocks);
      DeliverySettled(e.nodes[y], blocks);
      assert n.pre.Keys == n.insts.Keys by {
        PreKeys(n);
      }
      GrownThenNothing(n, e.nodes[y], d.nodes[y]);
    }
  }

  lemma PreKeys(n: Node)
    requires LocalOk(n)
    ensures n.pre.Keys == n.insts.Keys
  {
  }

  lemma StepBase(c: Cluster, d: Cluster)
    requires GlobalInv(c) && Next(c, d)
    ensures Base(c) && Base(d)
  {
    NextInv(c, d);
  }

  lemma RequestStepGrows(c: Cluster, d: Cluster, x: ReplicaID, cmd: Command)
    requires GlobalInv(c) && RequestStep(c, d, x, cmd) && Base(d)
    ensures AllGrown(c, d)
  {
    hide GlobalInv, Grown, OnRequest, LocalOk;
    InvBase(c);
    LocalAt(c, x);
    RequestGrows(c.nodes[x], cmd);
    OneGrown(c, d, x);
  }

  lemma DeliverStepGrows(c: Cluster, d: Cluster, x: ReplicaID, y: ReplicaID, k: nat, blocks: seq<seq<InstanceID>>)
    requires GlobalInv(c) && DeliverStep(c, d, x, y, k, blocks) && Base(d)
    ensures AllGrown(c, d)
  {
    hide GlobalInv, Grown, Finish, Step, RunOk;
    InvBase(c);
    DeliverGrows(c, d, x, y, k, blocks);
    OneGrown(c, d, y);
  }

  lemma TickStepGrows(c: Cluster, d: Cluster, x: ReplicaID, order: seq<InstanceID>)
    requires GlobalInv(c) && TickStep(c, d, x, order) && Base(d)
    ensures AllGrown(c, d)
  {
    hide GlobalInv, Grown, Tick, LocalOk;
    InvBase(c);
    assert forall id :: id in order ==> id in Elems(order);
    LocalAt(c, x);
    TickSettled(c.nodes[x], order);
    GrownByNothing(c.nodes[x], d.nodes[x]);
    OneGrown(c, d, x);
  }

  lemma NextGrows(c: Cluster, d: Cluster)
    requires GlobalInv(c) && Next(c, d)
    ensures Base(d) && AllGrown(c, d)
  {
    hide GlobalInv, RequestStep, DeliverStep, TickStep, AllGrown, Base;
    StepBase(c, d);
    if exists x, cmd :: RequestStep(c, d, x, cmd) {
      var x, cmd :| RequestStep(c, d, x, cmd);
      RequestStepGrows(c, d, x, cmd);
    } else if exists x, y, k, blocks :: DeliverStep(c, d, x, y, k, blocks) {
      var x, y, k, blocks :| DeliverStep(c, d, x, y, k, blocks);
      DeliverStepGrows(c, d, x, y, k, blocks);
    } else {
      var x, order :| TickStep(c, d, x, order);
      TickStepGrows(c, d, x, order);
    }
  }
}

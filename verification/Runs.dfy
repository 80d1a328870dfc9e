/**
 * Every run: the invariant of each instance and of each replica holds in every
 * reachable state.
 */
module Runs {
  import opened Types
  import opened State
  import opened Graph
  import opened Schedule
  import opened Scan
  import opened Handlers
  import opened Cluster
  import opened Frame
  import opened Steps
  import opened Local

  ghost predicate LocalsOk(c: Cluster)
    requires Base(c)
  {
    forall x {:trigger c.nodes[x]} :: x in c.conf ==> LocalOk(c.nodes[x])
  }

  ghost predicate InstancesOk(c: Cluster)
    requires Base(c)
  {
    forall a {:trigger InstanceInv(c, a)} :: InstanceInv(c, a)
  }

  ghost predicate GlobalInv(c: Cluster) {
    Base(c) && PosOk(c) && InstancesOk(c) && LocalsOk(c)
  }

  lemma InitInv(c: Cluster)
    requires Init(c)
    ensures GlobalInv(c)
  {
    forall x | x in c.conf ensures LocalOk(c.nodes[x]) {
      EmptyOk(c.nodes[x]);
    }
    forall a ensures InstanceInv(c, a) {
      InitInstance(c, a);
    }
  }

  lemma InitInstance(c: Cluster, a: InstanceID)
    requires Init(c)
    ensures InstanceInv(c, a)
  {
    assert forall x, k, kind, y {:trigger Is(c, x, k, a, kind, y)} :: x in c.conf ==> !Is(c, x, k, a, kind, y);
  }

  /** From n to m nothing but a changes, up to timers and to execution. */
  ghost predicate OnlyAt(n: Node, m: Node, a: InstanceID) {
    && m.id == n.id && m.nodes == n.nodes
    && n.msgs <= m.msgs
    && (forall k :: |n.msgs| <= k < |m.msgs| ==> m.msgs[k].inst == a)
    && (forall b {:trigger b in n.insts} {:trigger b in m.insts} :: b != a ==>
          && (b in n.insts <==> b in m.insts)
          && (b in n.insts ==> m.insts[b] == n.insts[b]))
    && (forall b {:trigger b in n.pre} {:trigger b in m.pre} :: b != a ==>
          && (b in n.pre <==> b in m.pre)
          && (b in n.pre ==> m.pre[b] == n.pre[b]))
  }

  ghost predicate MovesAt(c: Cluster, d: Cluster, y: ReplicaID, a: InstanceID) {
    && Base(c) && y in c.conf && y in d.nodes
    && d.conf == c.conf && d.nodes == c.nodes[y := d.nodes[y]]
    && OnlyAt(c.nodes[y], d.nodes[y], a)
    && (forall b {:trigger Counted(d, b)} :: b != a ==> Counted(c, b) == Counted(d, b))
    && (forall b {:trigger Acked(d, b)} :: b != a ==> Acked(c, b) == Acked(d, b))
  }

  /** Only a message about a was read, or none. */
  ghost predicate ReadsAt(c: Cluster, d: Cluster, x: ReplicaID, y: ReplicaID, k: nat, a: InstanceID)
    requires x in c.nodes
  {
    && NextOnLink(c, x, y, k) && c.nodes[x].msgs[k].inst == a
    && ReadsOne(c, d, x, y, k)
  }

  lemma MovesBase(c: Cluster, d: Cluster, y: ReplicaID, a: InstanceID)
    requires MovesAt(c, d, y, a)
    ensures Base(d)
  {
  }

  lemma Elsewhere(c: Cluster, d: Cluster, y: ReplicaID, a: InstanceID, b: InstanceID)
    requires MovesAt(c, d, y, a) && b != a && InstanceInv(c, b)
    requires Base(d) && SameReads(c, d, b)
    ensures InstanceInv(d, b)
  {
    hide InstanceInv;
    assert SameCopies(c, d, b) by {
      forall x | x in c.conf
        ensures (b in c.nodes[x].insts <==> b in d.nodes[x].insts)
                && (b in c.nodes[x].insts ==> Similar(c.nodes[x].insts[b], d.nodes[x].insts[b]))
                && (b in c.nodes[x].pre <==> b in d.nodes[x].pre)
                && (b in c.nodes[x].pre ==> c.nodes[x].pre[b] == d.nodes[x].pre[b])
      {
      }
    }
    assert SameMsgs(c, d, b);
    FrameInstance(c, d, b);
  }

  lemma ReadElsewhere(c: Cluster, d: Cluster, x: ReplicaID, y: ReplicaID, k: nat, a: InstanceID, b: InstanceID)
    requires Base(c) && Base(d) && c.conf == d.conf && x in c.conf && b != a
    requires ReadsAt(c, d, x, y, k, a)
    ensures SameReads(c, d, b)
  {
  }

  /** With a's own invariant kept, a step that concerns a keeps everything. */
  lemma MovesKeep(c: Cluster, d: Cluster, y: ReplicaID, a: InstanceID)
    requires GlobalInv(c) && MovesAt(c, d, y, a) && Base(d)
    requires InstanceInv(d, a) && LocalOk(d.nodes[y])
    requires d.pos == c.pos
    ensures GlobalInv(d)
  {
    hide InstanceInv, LocalOk;
    forall b ensures InstanceInv(d, b) {
      if b != a {
        assert InstanceInv(c, b);
        Elsewhere(c, d, y, a, b);
      }
    }
    forall u, v | u in d.conf && v in d.conf ensures Pos(d, u, v) <= |d.nodes[u].msgs| {
      assert Pos(c, u, v) == Pos(d, u, v);
    }
  }

  lemma ReadKeeps(c: Cluster, d: Cluster, x: ReplicaID, y: ReplicaID, k: nat, a: InstanceID)
    requires GlobalInv(c) && MovesAt(c, d, y, a) && Base(d) && x in c.conf
    requires InstanceInv(d, a) && LocalOk(d.nodes[y])
    requires ReadsAt(c, d, x, y, k, a)
    ensures GlobalInv(d)
  {
    hide InstanceInv, LocalOk;
    forall b ensures InstanceInv(d, b) {
      if b != a {
        assert InstanceInv(c, b);
        ReadElsewhere(c, d, x, y, k, a, b);
        Elsewhere(c, d, y, a, b);
      }
    }
    forall u, v | u in d.conf && v in d.conf ensures Pos(d, u, v) <= |d.nodes[u].msgs| {
      assert (u, v) != (x, y) ==> Pos(c, u, v) == Pos(d, u, v);
    }
  }

  // ----- Each kind of step -----

  /** m is n after a step that only touches a. */
  ghost predicate Touches(n: Node, m: Node, a: InstanceID, inst: Instance, pre: Attrs, sent: seq<Message>) {
    && m.id == n.id && m.nodes == n.nodes
    && m.insts == n.insts[a := inst]
    && m.pre == n.pre[a := pre]
    && m.msgs == n.msgs + sent
    && (forall k :: 0 <= k < |sent| ==> sent[k].inst == a)
  }

  lemma TouchesMoves(c: Cluster, d: Cluster, y: ReplicaID, a: InstanceID, inst: Instance, pre: Attrs,
                     sent: seq<Message>)
    requires Base(c) && y in c.conf && d.conf == c.conf && y in d.nodes && d.nodes == c.nodes[y := d.nodes[y]]
    requires Touches(c.nodes[y], d.nodes[y], a, inst, pre, sent)
    requires forall b {:trigger Counted(d, b)} :: b != a ==> Counted(c, b) == Counted(d, b)
    requires forall b {:trigger Acked(d, b)} :: b != a ==> Acked(c, b) == Acked(d, b)
    ensures MovesAt(c, d, y, a) && Base(d)
    ensures StepAt(c, d, y, sent) && CopyAt(d, y, a, inst, pre)
  {
  }

  /** A broadcast is about its instance. */
  lemma {:induction false} BroadcastAbout(nodes: seq<ReplicaID>, self: ReplicaID, id: InstanceID, body: Body)
    ensures forall k :: 0 <= k < |BroadcastMsgs(nodes, self, id, body)| ==>
              BroadcastMsgs(nodes, self, id, body)[k].inst == id
  {
    if nodes != [] {
      BroadcastAbout(nodes[..|nodes| - 1], self, id, body);
    }
  }

  lemma RequestTouches(n: Node, cmd: Command)
    requires LocalOk(n) && cmd.span.WellFormed()
    ensures var a, inst := InstanceID(n.id, MaxNum(n.insts, n.id) + 1), Requested(n, cmd);
            && a !in n.insts
            && Touches(n, OnRequest(n, cmd).node, a, inst, inst.Attributes(),
                       BroadcastMsgs(n.nodes, n.id, a, PreAcceptMsg(cmd, inst.Attributes())))
            && LocalOk(OnRequest(n, cmd).node) && !OnRequest(n, cmd).run
  {
    hide SeqAndDeps, OnRequest, LocalOk, BroadcastMsgs;
    var a, inst := InstanceID(n.id, MaxNum(n.insts, n.id) + 1), Requested(n, cmd);
    assert a !in n.insts;
    RequestOk(n, cmd);
    RequestForm(n, cmd);
    BroadcastAbout(n.nodes, n.id, a, PreAcceptMsg(cmd, inst.Attributes()));
  }

  lemma RequestKeeps(c: Cluster, d: Cluster, x: ReplicaID, cmd: Command)
    requires GlobalInv(c) && RequestStep(c, d, x, cmd)
    ensures GlobalInv(d)
  {
    hide InstanceInv, OnRequest, LocalOk, BroadcastMsgs, Touches, MovesAt, StepAt;
    var n := c.nodes[x];
    var a, inst := InstanceID(n.id, MaxNum(n.insts, n.id) + 1), Requested(n, cmd);
    var sent := BroadcastMsgs(n.nodes, n.id, a, PreAcceptMsg(cmd, inst.Attributes()));
    RequestTouches(n, cmd);
    TouchesMoves(c, d, x, a, inst, inst.Attributes(), sent);
    assert InstanceInv(c, a);
    assert Starts(c, d, a, cmd, inst.Attributes());
    StartsKeeps(c, d, a, cmd, inst.Attributes());
    MovesKeep(c, d, x, a);
  }

  /** After y has read message k of x, and before its executor has run. */
  ghost function AfterRead(c: Cluster, x: ReplicaID, y: ReplicaID, k: nat): Cluster
    requires x in c.nodes && y in c.nodes && k < |c.nodes[x].msgs|
  {
    Put(Read(c, x, y, k), y, Step(c.nodes[y], c.nodes[x].msgs[k]).node)
  }

  /** What is true of the next message on a link. */
  lemma NextMessage(c: Cluster, x: ReplicaID, y: ReplicaID, k: nat)
    requires GlobalInv(c) && x in c.conf && y in c.conf && NextOnLink(c, x, y, k)
    ensures var m := c.nodes[x].msgs[k];
            && InstanceInv(c, m.inst) && MsgOk(c, x, m) && ValidMessage(c.nodes[y], m)
            && x != y && Is(c, x, k, m.inst, Kind(m.body), y)
            && m.inst.num >= 1
  {
    var m := c.nodes[x].msgs[k];
    assert InstanceInv(c, m.inst);
    assert MsgOk(c, x, m);
    assert LocalOk(c.nodes[m.inst.replica]);
    assert InstOk(c.conf, m.inst.replica, m.inst, Leader(c, m.inst).insts[m.inst]);
  }

  /** The position and history variables after a read. */
  lemma ReadEffect(c: Cluster, x: ReplicaID, y: ReplicaID, k: nat, n: Node)
    requires Base(c) && x in c.conf && y in c.conf && NextOnLink(c, x, y, k)
    ensures var d, m := Put(Read(c, x, y, k), y, n), c.nodes[x].msgs[k];
            && ReadsAt(c, d, x, y, k, m.inst)
            && d.conf == c.conf && y in d.nodes && d.nodes[y] == n && d.nodes == c.nodes[y := n]
            && (forall b {:trigger Counted(d, b)} :: b != m.inst ==> Counted(c, b) == Counted(d, b))
            && (forall b {:trigger Acked(d, b)} :: b != m.inst ==> Acked(c, b) == Acked(d, b))
            && (!IsReply(m.body) ==> SameHistory(c, d, m.inst))
  {
    hide NoteReply, Counted, Acked;
    NoteSame(c, x, y, c.nodes[x].msgs[k]);
    HistorySame(NoteReply(c, x, y, c.nodes[x].msgs[k]), Put(Read(c, x, y, k), y, n));
  }

  lemma NoteSame(c: Cluster, x: ReplicaID, y: ReplicaID, m: Message)
    requires y in c.nodes
    ensures var d := NoteReply(c, x, y, m);
            && d.conf == c.conf && d.nodes == c.nodes && d.pos == c.pos
            && (forall b {:trigger Counted(d, b)} :: b != m.inst ==> Counted(c, b) == Counted(d, b))
            && (forall b {:trigger Acked(d, b)} :: b != m.inst ==> Acked(c, b) == Acked(d, b))
            && (!IsReply(m.body) ==> SameHistory(c, d, m.inst))
  {
  }

  lemma HistorySame(c: Cluster, d: Cluster)
    requires c.counted == d.counted && c.acked == d.acked
    ensures forall b {:trigger Counted(d, b)} :: Counted(c, b) == Counted(d, b)
    ensures forall b {:trigger Acked(d, b)} :: Acked(c, b) == Acked(d, b)
  {
  }

  lemma PreAcceptTouches(n: Node, m: Message)
    requires LocalOk(n) && ValidMessage(n, m) && m.inst !in n.insts && m.inst.num >= 1
    requires m.body.PreAcceptMsg? && m.body.cmd.span.WellFormed()
    ensures var local := LocalAttrs(SetInst(n, m.inst, NEW_INSTANCE), m.inst, m.body.cmd, m.body.attrs);
            && Touches(n, Step(n, m).node, m.inst,
                       NEW_INSTANCE.(status := PreAccepted, cmd := Some(m.body.cmd),
                                     seqNum := local.seqNum, deps := local.deps), local,
                       [Message(m.inst.replica, m.inst,
                                if local == m.body.attrs then PreAcceptOK else PreAcceptReply(local))])
            && LocalOk(Step(n, m).node) && !Step(n, m).run
  {
    hide SeqAndDeps, OnPreAccept, LocalOk;
    PreAcceptOk(n, m.inst, m.body.cmd, m.body.attrs);
    PreAcceptForm(n, m.inst, m.body.cmd, m.body.attrs);
  }

  lemma ReadPreAccept(c: Cluster, x: ReplicaID, y: ReplicaID, k: nat)
    requires GlobalInv(c) && x in c.conf && y in c.conf && NextOnLink(c, x, y, k)
    requires c.nodes[x].msgs[k].body.PreAcceptMsg?
    ensures GlobalInv(AfterRead(c, x, y, k))
  {
    hide InstanceInv, Step, LocalOk, Touches, MovesAt, StepAt, LocalAttrs, ValidMessage, InstancesOk, LocalsOk, PosOk;
    NextMessage(c, x, y, k);
    var n, m := c.nodes[y], c.nodes[x].msgs[k];
    var a, cmd, attrs := m.inst, m.body.cmd, m.body.attrs;
    FirstWord(c, a, y, k);
    LocalAt(c, y);
    PreAcceptTouches(n, m);
    var d := AfterRead(c, x, y, k);
    var local := LocalAttrs(SetInst(n, a, NEW_INSTANCE), a, cmd, attrs);
    ReadEffect(c, x, y, k, d.nodes[y]);
    TouchesMoves(c, d, y, a, NEW_INSTANCE.(status := PreAccepted, cmd := Some(cmd), seqNum := local.seqNum,
                                           deps := local.deps), local,
                 [Message(a.replica, a, if local == attrs then PreAcceptOK else PreAcceptReply(local))]);
    LocalAttrsGrow(SetInst(n, a, NEW_INSTANCE), a, cmd, attrs);
    PreAcceptsKeeps(c, d, y, k, a, cmd, attrs, local);
    ReadKeeps(c, d, x, y, k, a);
  }

  lemma LocalAt(c: Cluster, x: ReplicaID)
    requires GlobalInv(c) && x in c.conf
    ensures LocalOk(c.nodes[x])
  {
  }

  lemma LocalAttrsGrow(n: Node, id: InstanceID, cmd: Command, attrs: Attrs)
    ensures attrs.deps <= LocalAttrs(n, id, cmd, attrs).deps
    ensures attrs.seqNum <= LocalAttrs(n, id, cmd, attrs).seqNum
  {
  }

  lemma AcceptTouches(n: Node, m: Message)
    requires LocalOk(n) && ValidMessage(n, m) && m.body.AcceptMsg?
    requires m.inst in n.insts && Rank(n.insts[m.inst].status) < 3
    ensures m.inst in n.pre
    ensures Touches(n, Step(n, m).node, m.inst,
                    n.insts[m.inst].(status := Accepted, seqNum := m.body.attrs.seqNum, deps := m.body.attrs.deps),
                    n.pre[m.inst], [Message(m.inst.replica, m.inst, AcceptOK)])
    ensures LocalOk(Step(n, m).node) && !Step(n, m).run
  {
    hide LocalOk, Step;
    StepIs(n, m);
    PreIs(n, m.inst);
    AcceptOk(n, m.inst, m.body.attrs);
  }

  /** A valid message about a known instance is dispatched. */
  lemma StepIs(n: Node, m: Message)
    requires ValidMessage(n, m) && m.inst in n.insts
    ensures Step(n, m) == Dispatch(n, m)
  {
    hide Dispatch;
  }

  lemma PreIs(n: Node, a: InstanceID)
    requires LocalOk(n) && a in n.insts
    ensures a in n.pre && n.pre == n.pre[a := n.pre[a]] && InstOk(n.nodes, n.id, a, n.insts[a])
    ensures n.msgs + [] == n.msgs
  {
    assert a in n.pre.Keys;
    assert n.pre == n.pre[a := n.pre[a]];
  }

  lemma ReadAccept(c: Cluster, x: ReplicaID, y: ReplicaID, k: nat)
    requires GlobalInv(c) && x in c.conf && y in c.conf && NextOnLink(c, x, y, k)
    requires c.nodes[x].msgs[k].body.AcceptMsg?
    ensures GlobalInv(AfterRead(c, x, y, k))
  {
    hide InstanceInv, Step, LocalOk, Touches, MovesAt, StepAt, ValidMessage, InstancesOk, LocalsOk, PosOk;
    NextMessage(c, x, y, k);
    var n, m := c.nodes[y], c.nodes[x].msgs[k];
    var a, attrs := m.inst, m.body.attrs;
    BehindLeader(c, x, y, k);
    LocalAt(c, y);
    AcceptTouches(n, m);
    var d := AfterRead(c, x, y, k);
    ReadEffect(c, x, y, k, d.nodes[y]);
    TouchesMoves(c, d, y, a, n.insts[a].(status := Accepted, seqNum := attrs.seqNum, deps := attrs.deps), n.pre[a],
                 [Message(a.replica, a, AcceptOK)]);
    AcceptsKeeps(c, d, y, k, a, attrs);
    ReadKeeps(c, d, x, y, k, a);
  }

  /** An Accept or Commit finds a copy that has not got as far. */
  lemma BehindLeader(c: Cluster, x: ReplicaID, y: ReplicaID, k: nat)
    requires GlobalInv(c) && x in c.conf && y in c.conf && NextOnLink(c, x, y, k)
    requires c.nodes[x].msgs[k].body.AcceptMsg? || c.nodes[x].msgs[k].body.CommitMsg?
    ensures var m := c.nodes[x].msgs[k];
            m.inst in c.nodes[y].insts && m.inst in c.nodes[y].pre
            && Rank(c.nodes[y].insts[m.inst].status) < if m.body.AcceptMsg? then 2 else 3
  {
    NextMessage(c, x, y, k);
    var m := c.nodes[x].msgs[k];
    AskedBefore(c, y, k, m.inst, Kind(m.body));
    assert NotYetRead(c, m.inst);
  }

  lemma CommitTouches(n: Node, m: Message)
    requires LocalOk(n) && ValidMessage(n, m) && m.body.CommitMsg? && m.body.cmd.span.WellFormed()
    requires m.inst in n.insts && Rank(n.insts[m.inst].status) < 3
    ensures m.inst in n.pre
    ensures Touches(n, Step(n, m).node, m.inst,
                    n.insts[m.inst].(status := Committed, cmd := Some(m.body.cmd),
                                     seqNum := m.body.attrs.seqNum, deps := m.body.attrs.deps),
                    n.pre[m.inst], [])
    ensures LocalOk(Step(n, m).node)
  {
    hide LocalOk, Step;
    StepIs(n, m);
    PreIs(n, m.inst);
    CommitOk(n, m.inst, m.body.cmd, m.body.attrs);
  }

  lemma ReadCommit(c: Cluster, x: ReplicaID, y: ReplicaID, k: nat)
    requires GlobalInv(c) && x in c.conf && y in c.conf && NextOnLink(c, x, y, k)
    requires c.nodes[x].msgs[k].body.CommitMsg?
    ensures GlobalInv(AfterRead(c, x, y, k))
  {
    hide InstanceInv, Step, LocalOk, Touches, MovesAt, StepAt, ValidMessage, InstancesOk, LocalsOk, PosOk;
    NextMessage(c, x, y, k);
    var n, m := c.nodes[y], c.nodes[x].msgs[k];
    var a, cmd, attrs := m.inst, m.body.cmd, m.body.attrs;
    BehindLeader(c, x, y, k);
    LocalAt(c, y);
    CommitTouches(n, m);
    var d := AfterRead(c, x, y, k);
    ReadEffect(c, x, y, k, d.nodes[y]);
    TouchesMoves(c, d, y, a, n.insts[a].(status := Committed, cmd := Some(cmd), seqNum := attrs.seqNum,
                                         deps := attrs.deps), n.pre[a], []);
    LearnsKeeps(c, d, y, k, a, cmd, attrs);
    ReadKeeps(c, d, x, y, k, a);
  }

  /** A reply the leader has no more use for. */
  lemma ReadIgnored(c: Cluster, x: ReplicaID, y: ReplicaID, k: nat)
    requires GlobalInv(c) && x in c.conf && y in c.conf && NextOnLink(c, x, y, k)
    requires IsReply(c.nodes[x].msgs[k].body)
    requires var n, m := c.nodes[y], c.nodes[x].msgs[k];
             m.inst in n.insts && n.insts[m.inst].status != if m.body.AcceptOK? then Accepted else PreAccepted
    ensures GlobalInv(AfterRead(c, x, y, k))
  {
    hide InstanceInv, LocalOk, Touches, MovesAt, StepAt, InstancesOk, LocalsOk, PosOk;
    NextMessage(c, x, y, k);
    var n, m := c.nodes[y], c.nodes[x].msgs[k];
    LocalAt(c, y);
    ReadEffect(c, x, y, k, n);
    StaysItself(n, m.inst);
    var d := AfterRead(c, x, y, k);
    assert d == Put(Read(c, x, y, k), y, n);
    TouchesMoves(c, d, y, m.inst, n.insts[m.inst], n.pre[m.inst], []);
    IgnoresKeeps(c, d, x, k, m.inst);
    ReadKeeps(c, d, x, y, k, m.inst);
  }

  lemma StaysItself(n: Node, a: InstanceID)
    requires LocalOk(n) && a in n.insts
    ensures a in n.pre && Touches(n, n, a, n.insts[a], n.pre[a], [])
  {
    assert a in n.pre.Keys;
    assert n.insts == n.insts[a := n.insts[a]] && n.pre == n.pre[a := n.pre[a]];
  }

  /** The leader's next status, once one more PreAccept reply is counted, and what it sends. */
  function DecisionMsgs(n: Node, a: InstanceID, inst: Instance): seq<Message>
    requires inst.cmd.Some?
  {
    var to := Decision(n.nodes, inst).status;
    if to == PreAccepted then [] else BroadcastMsgs(n.nodes, n.id, a, AdvanceBody(inst, to))
  }

  lemma DecisionSends(n: Node, a: InstanceID, inst: Instance)
    requires a in n.insts && inst.status == PreAccepted && inst.cmd.Some?
    ensures OnEitherPreAcceptReply(SetInst(n, a, inst), a).node.msgs == n.msgs + DecisionMsgs(n, a, inst)
  {
    assert n.msgs + [] == n.msgs;
  }

  lemma DecisionTouches(n: Node, a: InstanceID, inst: Instance)
    requires LocalOk(n) && a in n.insts && inst.status == PreAccepted && inst.cmd.Some?
    requires inst.timer == n.insts[a].timer && n.insts[a].status == PreAccepted
    ensures a in n.pre
    ensures Touches(n, OnEitherPreAcceptReply(SetInst(n, a, inst), a).node, a, Decision(n.nodes, inst), n.pre[a],
                    DecisionMsgs(n, a, inst))
  {
    hide OnEitherPreAcceptReply, BroadcastMsgs;
    assert a in n.pre.Keys;
    assert InstOk(n.nodes, n.id, a, n.insts[a]);
    EitherReplyForm(n, a, inst);
    DecisionSends(n, a, inst);
    BroadcastAbout(n.nodes, n.id, a, AdvanceBody(inst, Decision(n.nodes, inst).status));
    assert n.pre == n.pre[a := n.pre[a]];
  }

  /** The leader's copy advances in a step of its own. */
  lemma AdvanceAlone(c: Cluster, d: Cluster, a: InstanceID, inst: Instance, to: Status)
    requires Base(c) && InstanceInv(c, a) && PosOk(c) && a.replica in c.conf
    requires Led(c, a)
    requires a.replica in d.nodes && d == Put(c, a.replica, d.nodes[a.replica])
    requires var own := Leader(c, a).insts[a];
             && inst.(timer := own.timer) == own.(status := to)
             && (to == Accepted || to == Committed) && 1 <= Rank(own.status) < Rank(to)
             && Touches(Leader(c, a), Leader(d, a), a, inst, Leader(c, a).pre[a],
                        BroadcastMsgs(c.conf, a.replica, a, AdvanceBody(own, to)))
    requires Quorum(c.conf, |Counted(c, a)| + 1)
    requires to == Committed ==> FastChosen(c, a) || SlowChosen(c, a)
    ensures InstanceInv(d, a)
  {
    hide InstanceInv, Touches, MovesAt, StepAt, PosOk;
    var own := Leader(c, a).insts[a];
    var body := AdvanceBody(own, to);
    TouchesMoves(c, d, a.replica, a, inst, Leader(c, a).pre[a], BroadcastMsgs(c.conf, a.replica, a, body));
    AdvancesKeeps(c, d, a, to, body);
  }

  /** Between counting a reply and acting on it. */
  ghost function Noted(c: Cluster, x: ReplicaID, y: ReplicaID, k: nat, inst: Instance): Cluster
    requires x in c.nodes && y in c.nodes && k < |c.nodes[x].msgs|
  {
    Put(Read(c, x, y, k), y, SetInst(c.nodes[y], c.nodes[x].msgs[k].inst, inst))
  }

  lemma NotedPos(c: Cluster, d: Cluster, x: ReplicaID, y: ReplicaID, k: nat)
    requires Base(c) && PosOk(c) && Base(d) && d.conf == c.conf && x in c.conf && k < |c.nodes[x].msgs|
    requires ReadsOne(c, d, x, y, k)
    requires forall u {:trigger d.nodes[u]} :: u in c.conf ==> |c.nodes[u].msgs| <= |d.nodes[u].msgs|
    ensures PosOk(d)
  {
    forall u, v | u in d.conf && v in d.conf ensures Pos(d, u, v) <= |d.nodes[u].msgs| {
      assert Pos(c, u, v) <= |c.nodes[u].msgs|;
    }
  }

  lemma NotedFacts(c: Cluster, x: ReplicaID, y: ReplicaID, k: nat, inst: Instance)
    requires GlobalInv(c) && x in c.conf && y in c.conf && NextOnLink(c, x, y, k)
    requires c.nodes[x].msgs[k].inst in c.nodes[y].insts
    ensures var d, a := Noted(c, x, y, k, inst), c.nodes[x].msgs[k].inst;
            && Base(d) && PosOk(d)
            && a in c.nodes[y].pre
            && StepAt(c, d, y, []) && CopyAt(d, y, a, inst, c.nodes[y].pre[a])
            && ReadsOne(c, d, x, y, k)
  {
    hide InstanceInv, ReadsOne, MovesAt, LocalOk, PosOk, Touches;
    var n, a := c.nodes[y], c.nodes[x].msgs[k].inst;
    LocalAt(c, y);
    StaysItself(n, a);
    SetTouches(n, a, inst);
    ReadEffect(c, x, y, k, SetInst(n, a, inst));
    var d := Noted(c, x, y, k, inst);
    TouchesMoves(c, d, y, a, inst, n.pre[a], []);
    NotedPos(c, d, x, y, k);
  }

  lemma SetTouches(n: Node, a: InstanceID, inst: Instance)
    requires a in n.pre
    ensures Touches(n, SetInst(n, a, inst), a, inst, n.pre[a], [])
  {
    assert n.pre == n.pre[a := n.pre[a]];
    assert n.msgs + [] == n.msgs;
  }

  /** The reply is of the kind the leader's copy waits for. */
  predicate IsAwaited(n: Node, m: Message) {
    && m.inst in n.insts
    && if m.body.AcceptOK? then n.insts[m.inst].status == Accepted
       else (m.body.PreAcceptOK? || m.body.PreAcceptReply?) && n.insts[m.inst].status == PreAccepted
  }

  /** The leader's copy with the reply counted, before the leader acts on it. */
  function Noticed(inst: Instance, body: Body): Instance {
    if body.AcceptOK? then inst.(acceptReplies := inst.acceptReplies + 1) else Merged(inst, body)
  }

  ghost predicate NotedOk(c: Cluster, x: ReplicaID, y: ReplicaID, k: nat)
    requires x in c.nodes && y in c.nodes && k < |c.nodes[x].msgs| && c.nodes[x].msgs[k].inst in c.nodes[y].insts
  {
    var m := c.nodes[x].msgs[k];
    var d := Noted(c, x, y, k, Noticed(c.nodes[y].insts[m.inst], m.body));
    y == m.inst.replica && Base(d) && PosOk(d) && InstanceInv(d, m.inst)
  }

  lemma ReplyNoted(c: Cluster, x: ReplicaID, y: ReplicaID, k: nat)
    requires GlobalInv(c) && x in c.conf && y in c.conf && NextOnLink(c, x, y, k)
    requires IsAwaited(c.nodes[y], c.nodes[x].msgs[k]) && !c.nodes[x].msgs[k].body.AcceptOK?
    ensures NotedOk(c, x, y, k)
  {
    hide InstanceInv, ReadsOne, MovesAt, StepAt, LocalOk, PosOk, InstancesOk, LocalsOk;
    var m := c.nodes[x].msgs[k];
    var inst := Noticed(c.nodes[y].insts[m.inst], m.body);
    NextMessage(c, x, y, k);
    NotedFacts(c, x, y, k, inst);
    CountsReplyKeeps(c, Noted(c, x, y, k, inst), x, k, m.inst);
  }

  lemma AckNoted(c: Cluster, x: ReplicaID, y: ReplicaID, k: nat)
    requires GlobalInv(c) && x in c.conf && y in c.conf && NextOnLink(c, x, y, k)
    requires IsAwaited(c.nodes[y], c.nodes[x].msgs[k]) && c.nodes[x].msgs[k].body.AcceptOK?
    ensures NotedOk(c, x, y, k)
  {
    hide InstanceInv, ReadsOne, MovesAt, StepAt, LocalOk, PosOk, InstancesOk, LocalsOk;
    var m := c.nodes[x].msgs[k];
    var inst := Noticed(c.nodes[y].insts[m.inst], m.body);
    NextMessage(c, x, y, k);
    NotedFacts(c, x, y, k, inst);
    CountsAckKeeps(c, Noted(c, x, y, k, inst), x, k, m.inst);
  }

  /** The leader's copy after it has acted on the reply. */
  function Acted(nodes: seq<ReplicaID>, inst: Instance, body: Body): Instance {
    var next := Noticed(inst, body);
    if !body.AcceptOK? then Decision(nodes, next)
    else if Quorum(nodes, next.acceptReplies + 1) then next.(status := Committed)
    else next
  }

  /** What the leader sends as it acts. */
  function ActedMsgs(n: Node, a: InstanceID, body: Body): seq<Message>
    requires a in n.insts && n.insts[a].cmd.Some?
  {
    var next, to := Noticed(n.insts[a], body), Acted(n.nodes, n.insts[a], body).status;
    if to == next.status then [] else BroadcastMsgs(n.nodes, n.id, a, AdvanceBody(next, to))
  }

  lemma ReplyTouches(n: Node, m: Message)
    requires LocalOk(n) && ValidMessage(n, m) && IsAwaited(n, m) && !m.body.AcceptOK?
    ensures m.inst in n.pre && n.insts[m.inst].cmd.Some?
    ensures Touches(n, Step(n, m).node, m.inst, Acted(n.nodes, n.insts[m.inst], m.body), n.pre[m.inst],
                    ActedMsgs(n, m.inst, m.body))
    ensures LocalOk(Step(n, m).node)
  {
    hide OnEitherPreAcceptReply, BroadcastMsgs, Touches, Decision;
    var a := m.inst;
    assert InstOk(n.nodes, n.id, a, n.insts[a]);
    DecisionTouches(n, a, Merged(n.insts[a], m.body));
    PreAcceptReplyOk(n, a, m.body);
  }

  lemma AckTouches(n: Node, m: Message)
    requires LocalOk(n) && ValidMessage(n, m) && IsAwaited(n, m) && m.body.AcceptOK?
    ensures m.inst in n.pre && n.insts[m.inst].cmd.Some?
    ensures Touches(n, Step(n, m).node, m.inst, Acted(n.nodes, n.insts[m.inst], m.body), n.pre[m.inst],
                    ActedMsgs(n, m.inst, m.body))
    ensures LocalOk(Step(n, m).node)
  {
    hide BroadcastMsgs, LocalOk, Step;
    var a := m.inst;
    StepIs(n, m);
    PreIs(n, a);
    AcceptReplyOk(n, a);
    BroadcastAbout(n.nodes, n.id, a, AdvanceBody(Noticed(n.insts[a], m.body), Committed));
  }

  lemma ActedStep(c: Cluster, x: ReplicaID, y: ReplicaID, k: nat)
    requires GlobalInv(c) && x in c.conf && y in c.conf && NextOnLink(c, x, y, k)
    requires IsAwaited(c.nodes[y], c.nodes[x].msgs[k])
    ensures var n, m := c.nodes[y], c.nodes[x].msgs[k];
            && m.inst in n.pre && n.insts[m.inst].cmd.Some?
            && Touches(n, Step(n, m).node, m.inst, Acted(n.nodes, n.insts[m.inst], m.body), n.pre[m.inst],
                       ActedMsgs(n, m.inst, m.body))
            && LocalOk(Step(n, m).node)
            && NotedOk(c, x, y, k)
            && n.nodes == c.conf && n.id == y && y == m.inst.replica
  {
    hide InstanceInv, Touches, LocalOk, InstancesOk, LocalsOk, PosOk, IsAwaited, ActedMsgs, Acted, Step;
    NextMessage(c, x, y, k);
    LocalAt(c, y);
    if c.nodes[x].msgs[k].body.AcceptOK? {
      AckNoted(c, x, y, k);
      AckTouches(c.nodes[y], c.nodes[x].msgs[k]);
    } else {
      ReplyNoted(c, x, y, k);
      ReplyTouches(c.nodes[y], c.nodes[x].msgs[k]);
    }
  }

  /** A touch that follows setting the same instance. */
  lemma TouchesAfterSet(n: Node, m: Node, a: InstanceID, now: Instance, inst: Instance, pre: Attrs, sent: seq<Message>)
    requires Touches(n, m, a, inst, pre, sent)
    ensures Touches(SetInst(n, a, now), m, a, inst, pre, sent)
  {
    assert n.insts[a := now][a := inst] == n.insts[a := inst];
  }

  /** Only the timer of the leader's copy changed. */
  lemma TimerOnly(c: Cluster, d: Cluster, a: InstanceID, inst: Instance)
    requires Base(c) && InstanceInv(c, a) && a.replica in c.conf && Led(c, a)
    requires a.replica in d.nodes && d == Put(c, a.replica, d.nodes[a.replica])
    requires Touches(Leader(c, a), Leader(d, a), a, inst, Leader(c, a).pre[a], [])
    requires inst.(timer := Leader(c, a).insts[a].timer) == Leader(c, a).insts[a]
    ensures InstanceInv(d, a)
  {
    hide InstanceInv;
    assert Similar(Leader(c, a).insts[a], inst);
    assert SameCopies(c, d, a);
    assert SameMsgs(c, d, a);
    assert SameReads(c, d, a);
    FrameInstance(c, d, a);
  }

  /** Enough replies have been counted for what the leader does next. */
  lemma ActedQuorum(c: Cluster, a: InstanceID, was: Instance, body: Body)
    requires Base(c) && CountsOk(c, a) && a.replica in c.conf && Led(c, a)
    requires Leader(c, a).insts[a] == Noticed(was, body)
    requires if body.AcceptOK? then was.status == Accepted else was.status == PreAccepted
    requires Acted(c.conf, was, body).status != was.status
    ensures Quorum(c.conf, |Counted(c, a)| + 1)
    ensures Acted(c.conf, was, body).status == Committed ==> FastChosen(c, a) || SlowChosen(c, a)
  {
  }

  lemma ActedInstance(c: Cluster, d: Cluster, a: InstanceID, was: Instance, body: Body)
    requires Base(c) && InstanceInv(c, a) && PosOk(c) && a.replica in c.conf && Led(c, a)
    requires Leader(c, a).insts[a] == Noticed(was, body) && was.cmd.Some?
    requires if body.AcceptOK? then was.status == Accepted else was.status == PreAccepted
    requires a.replica in d.nodes && d == Put(c, a.replica, d.nodes[a.replica])
    requires var next, inst := Noticed(was, body), Acted(c.conf, was, body);
             Touches(Leader(c, a), Leader(d, a), a, inst, Leader(c, a).pre[a],
                     if inst.status == next.status then []
                     else BroadcastMsgs(c.conf, a.replica, a, AdvanceBody(next, inst.status)))
    ensures InstanceInv(d, a)
  {
    var inst := Acted(c.conf, was, body);
    assert CountsOk(c, a);
    hide InstanceInv, Touches, MovesAt, StepAt, PosOk, BroadcastMsgs, CountsOk;
    if inst.status == was.status {
      TimerOnly(c, d, a, inst);
    } else {
      ActedQuorum(c, a, was, body);
      AdvanceAlone(c, d, a, inst, inst.status);
    }
  }

  lemma ReadAwaited(c: Cluster, x: ReplicaID, y: ReplicaID, k: nat)
    requires GlobalInv(c) && x in c.conf && y in c.conf && NextOnLink(c, x, y, k)
    requires IsAwaited(c.nodes[y], c.nodes[x].msgs[k])
    ensures GlobalInv(AfterRead(c, x, y, k))
  {
    hide InstanceInv, Touches, LocalOk, InstancesOk, LocalsOk, PosOk, Acted, Step, MovesAt, StepAt, BroadcastMsgs;
    var n, m := c.nodes[y], c.nodes[x].msgs[k];
    var a, was := m.inst, n.insts[m.inst];
    ActedStep(c, x, y, k);
    var e, d := Noted(c, x, y, k, Noticed(was, m.body)), AfterRead(c, x, y, k);
    TouchesAfterSet(n, d.nodes[y], a, Noticed(was, m.body), Acted(c.conf, was, m.body), n.pre[a], ActedMsgs(n, a, m.body));
    NotedLed(e, a);
    ActedInstance(e, d, a, was, m.body);
    ReadEffect(c, x, y, k, d.nodes[y]);
    TouchesMoves(c, d, y, a, Acted(c.conf, was, m.body), n.pre[a], ActedMsgs(n, a, m.body));
    ReadKeeps(c, d, x, y, k, a);
  }

  lemma NotedLed(c: Cluster, a: InstanceID)
    requires Base(c) && InstanceInv(c, a) && a.replica in c.conf && a in c.nodes[a.replica].insts
    ensures Led(c, a)
  {
    assert c.nodes[a.replica].id == a.replica;
  }

  /** One message read, up to the run of the executor. */
  lemma AfterReadInv(c: Cluster, x: ReplicaID, y: ReplicaID, k: nat)
    requires GlobalInv(c) && x in c.conf && y in c.conf && NextOnLink(c, x, y, k)
    ensures GlobalInv(AfterRead(c, x, y, k))
  {
    hide InstanceInv, LocalOk, InstancesOk, LocalsOk, PosOk, AfterRead, ValidMessage;
    NextMessage(c, x, y, k);
    var body := c.nodes[x].msgs[k].body;
    if body.PreAcceptMsg? {
      ReadPreAccept(c, x, y, k);
    } else if body.AcceptMsg? {
      ReadAccept(c, x, y, k);
    } else if body.CommitMsg? {
      ReadCommit(c, x, y, k);
    } else if IsAwaited(c.nodes[y], c.nodes[x].msgs[k]) {
      ReadAwaited(c, x, y, k);
    } else {
      ReadIgnored(c, x, y, k);
    }
  }

  // ----- The executor's run, ticks, and whole runs -----

  /** Delivering commands changes no instance but from Committed to Executed. */
  lemma DeliveryKeeps(c: Cluster, d: Cluster, y: ReplicaID, blocks: seq<seq<InstanceID>>)
    requires GlobalInv(c) && y in c.conf && RunOk(c.nodes[y], blocks)
    requires d == Put(c, y, DeliverBlocks(c.nodes[y], blocks))
    ensures GlobalInv(d)
  {
    hide InstanceInv, LocalOk, RunOk;
    var n := c.nodes[y];
    LocalAt(c, y);
    RunDelivers(n, blocks);
    DeliverOk(n, blocks);
    forall a ensures InstanceInv(d, a) {
      assert InstanceInv(c, a);
      DeliveryFrame(c, d, y, blocks, a);
      FrameInstance(c, d, a);
    }
    forall u, v | u in d.conf && v in d.conf ensures Pos(d, u, v) <= |d.nodes[u].msgs| {
      assert Pos(c, u, v) <= |c.nodes[u].msgs|;
    }
  }

  lemma DeliveryFrame(c: Cluster, d: Cluster, y: ReplicaID, blocks: seq<seq<InstanceID>>, a: InstanceID)
    requires Base(c) && y in c.conf && CanDeliver(c.nodes[y], Flat(blocks))
    requires d == Put(c, y, DeliverBlocks(c.nodes[y], blocks))
    ensures SameFor(c, d, a)
  {
    hide Flat, Concat;
  }

  lemma TickOneTouches(n: Node, a: InstanceID)
    requires LocalOk(n) && a in n.timers
    ensures a in n.insts && a in n.pre && n.insts[a].cmd.Some? && n.insts[a].status == PreAccepted
    ensures a.replica == n.id && Quorum(n.nodes, n.insts[a].preAcceptReplies + 1)
    ensures var inst, m := n.insts[a], TickOne(n, a);
            && a in m.insts
            && (m.insts[a].status == PreAccepted || m.insts[a].status == Accepted)
            && m.insts[a].(timer := inst.timer) == inst.(status := m.insts[a].status)
            && Touches(n, m, a, m.insts[a], n.pre[a],
                       if m.insts[a].status == PreAccepted then []
                       else BroadcastMsgs(n.nodes, n.id, a, AdvanceBody(inst, Accepted)))
  {
    var m := TickOne(n, a);
    assert InstOk(n.nodes, n.id, a, n.insts[a]) && Waiting(n.nodes, n.id, a, n.insts[a]);
    assert a in n.pre.Keys;
    assert n.pre == n.pre[a := n.pre[a]];
    assert n.msgs + [] == n.msgs;
    assert m.insts == n.insts[a := m.insts[a]];
    BroadcastAbout(n.nodes, n.id, a, AdvanceBody(n.insts[a], Accepted));
  }

  lemma TickOneKeeps(c: Cluster, d: Cluster, x: ReplicaID, a: InstanceID)
    requires GlobalInv(c) && x in c.conf && a in c.nodes[x].timers
    requires d == Put(c, x, TickOne(c.nodes[x], a))
    ensures GlobalInv(d)
  {
    hide LocalOk, LocalsOk, Touches, MovesAt, StepAt, PosOk, BroadcastMsgs, CountsOk, TickOne, InstanceInv;
    var n := c.nodes[x];
    LocalAt(c, x);
    TickOneTouches(n, a);
    TickOneOk(n, a);
    var m := TickOne(n, a);
    assert InstanceInv(c, a);
    NotedLed(c, a);
    CountedReplies(c, a);
    if m.insts[a].status == PreAccepted {
      TimerOnly(c, d, a, m.insts[a]);
      TouchesMoves(c, d, x, a, m.insts[a], n.pre[a], []);
    } else {
      AdvanceAlone(c, d, a, m.insts[a], Accepted);
      TouchesMoves(c, d, x, a, m.insts[a], n.pre[a], BroadcastMsgs(n.nodes, n.id, a, AdvanceBody(n.insts[a], Accepted)));
    }
    MovesKeep(c, d, x, a);
  }

  lemma CountedReplies(c: Cluster, a: InstanceID)
    requires Base(c) && InstanceInv(c, a) && a.replica in c.conf && Led(c, a)
    ensures Leader(c, a).insts[a].preAcceptReplies == |Counted(c, a)|
  {
  }

  lemma {:induction false} TickKeeps(c: Cluster, d: Cluster, x: ReplicaID, order: seq<InstanceID>)
    requires GlobalInv(c) && x in c.conf && NoDup(order)
    requires forall id :: id in order ==> id in c.nodes[x].timers
    requires d == Put(c, x, Tick(c.nodes[x], order))
    ensures GlobalInv(d)
    decreases |order|
  {
    hide GlobalInv, LocalOk, TickOne;
    InvBase(c);
    var n := c.nodes[x];
    if order == [] {
      assert d == c;
    } else {
      var l := |order| - 1;
      var e := Put(c, x, Tick(n, order[..l]));
      assert forall id :: id in order[..l] ==> id in order;
      TickKeeps(c, e, x, order[..l]);
      LocalAt(c, x);
      TickOk(n, order[..l]);
      assert order[l] !in order[..l];
      assert d == Put(e, x, TickOne(e.nodes[x], order[l]));
      TickOneKeeps(e, d, x, order[l]);
    }
  }

  lemma InvBase(c: Cluster)
    requires GlobalInv(c)
    ensures Base(c)
  {
  }

  lemma DeliverKeeps(c: Cluster, d: Cluster, x: ReplicaID, y: ReplicaID, k: nat, blocks: seq<seq<InstanceID>>)
    requires GlobalInv(c) && DeliverStep(c, d, x, y, k, blocks)
    ensures GlobalInv(d)
  {
    hide GlobalInv, Step, RunOk, DeliverBlocks;
    InvBase(c);
    var e := AfterRead(c, x, y, k);
    AfterReadInv(c, x, y, k);
    if Step(c.nodes[y], c.nodes[x].msgs[k]).run {
      assert d == Put(e, y, DeliverBlocks(e.nodes[y], blocks));
      DeliveryKeeps(e, d, y, blocks);
    } else {
      assert d == e;
    }
  }

  /** Every step keeps the invariant of every instance and of every replica. */
  lemma NextInv(c: Cluster, d: Cluster)
    requires GlobalInv(c) && Next(c, d)
    ensures GlobalInv(d)
  {
    hide GlobalInv, RequestStep, DeliverStep;
    InvBase(c);
    if exists x, cmd :: RequestStep(c, d, x, cmd) {
      var x, cmd :| RequestStep(c, d, x, cmd);
      RequestKeeps(c, d, x, cmd);
    } else if exists x, y, k, blocks :: DeliverStep(c, d, x, y, k, blocks) {
      var x, y, k, blocks :| DeliverStep(c, d, x, y, k, blocks);
      DeliverKeeps(c, d, x, y, k, blocks);
    } else {
      var x, order :| TickStep(c, d, x, order);
      assert forall id :: id in order ==> id in Elems(order);
      TickKeeps(c, d, x, order);
    }
  }

  lemma {:induction false} RunInv(run: seq<Cluster>, i: nat)
    requires IsRun(run) && i < |run|
    ensures GlobalInv(run[i])
  {
    hide GlobalInv, Next, Init;
    if i == 0 {
      InitInv(run[0]);
    } else {
      RunInv(run, i - 1);
      NextInv(run[i - 1], run[i]);
    }
  }

  /** The invariant holds in every reachable state. */
  lemma ReachableInv(c: Cluster)
    requires Reachable(c)
    ensures GlobalInv(c)
  {
    var run :| IsRun(run) && run[|run| - 1] == c;
    RunInv(run, |run| - 1);
  }
}

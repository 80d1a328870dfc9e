/**
 * The steps that concern an instance itself: each keeps its invariant.
 */
module Steps {
  import opened Types
  import opened State
  import opened Handlers
  import opened Cluster

  /** Only replica y changes, and its outbox grows by the messages new. */
  ghost predicate StepAt(c: Cluster, d: Cluster, y: ReplicaID, sent: seq<Message>) {
    && Base(c) && Base(d) && c.conf == d.conf
    && y in c.conf
    && (forall x {:trigger d.nodes[x]} {:trigger c.nodes[x]} ::
          x in c.conf && x != y ==> d.nodes[x] == c.nodes[x])
    && d.nodes[y].msgs == c.nodes[y].msgs + sent
  }

  /** y's copy of a changes to inst, its first attributes of a to pre. */
  ghost predicate CopyAt(d: Cluster, y: ReplicaID, a: InstanceID, inst: Instance, pre: Attrs)
    requires y in d.nodes
  {
    && a in d.nodes[y].insts && d.nodes[y].insts[a].(timer := inst.timer) == inst
    && a in d.nodes[y].pre && d.nodes[y].pre[a] == pre
  }

  ghost predicate SameHistory(c: Cluster, d: Cluster, a: InstanceID) {
    Counted(c, a) == Counted(d, a) && Acked(c, a) == Acked(d, a)
  }

  /** Message k from x to y is read, and no other. */
  ghost predicate ReadsOne(c: Cluster, d: Cluster, x: ReplicaID, y: ReplicaID, k: nat) {
    && Pos(c, x, y) <= k && Pos(d, x, y) == k + 1
    && (forall u: nat, v: nat :: (u, v) != (x, y) ==> Pos(d, u, v) == Pos(c, u, v))
  }

  lemma OldMessage(c: Cluster, d: Cluster, y: ReplicaID, sent: seq<Message>,
                   x: ReplicaID, k: int, a: InstanceID, kind: nat, to: ReplicaID)
    requires StepAt(c, d, y, sent) && x in c.conf
    ensures Is(c, x, k, a, kind, to) ==> Is(d, x, k, a, kind, to)
    ensures Is(d, x, k, a, kind, to) && !Is(c, x, k, a, kind, to) ==>
              && x == y && |c.nodes[y].msgs| <= k
              && var m := sent[k - |c.nodes[y].msgs|];
                 m.inst == a && Kind(m.body) == kind && m.to == to
  {
    if x == y && 0 <= k < |d.nodes[y].msgs| {
      if k < |c.nodes[y].msgs| {
        assert d.nodes[y].msgs[k] == c.nodes[y].msgs[k];
      } else {
        assert d.nodes[y].msgs[k] == sent[k - |c.nodes[y].msgs|];
      }
    }
  }

  /** One message to every other node. */
  ghost predicate ToAll(b: seq<Message>, nodes: seq<ReplicaID>, self: ReplicaID, id: InstanceID, body: Body) {
    && (forall k :: 0 <= k < |b| ==> b[k] == Message(b[k].to, id, body) && b[k].to in nodes && b[k].to != self)
    && (forall j, k :: 0 <= j < k < |b| ==> b[j].to != b[k].to)
    && (forall y :: y in nodes && y != self ==> exists k :: 0 <= k < |b| && b[k].to == y)
  }

  lemma {:induction false} BroadcastFacts(nodes: seq<ReplicaID>, self: ReplicaID, id: InstanceID, body: Body)
    requires Distinct(nodes)
    ensures ToAll(BroadcastMsgs(nodes, self, id, body), nodes, self, id, body)
  {
    hide ToAll;
    if nodes == [] {
      ToNobody(self, id, body);
    } else {
      var n := |nodes| - 1;
      assert nodes == nodes[..n] + [nodes[n]];
      BroadcastFacts(nodes[..n], self, id, body);
      OneMoreTo(BroadcastMsgs(nodes[..n], self, id, body), nodes[..n], nodes[n], self, id, body);
    }
  }

  lemma ToNobody(self: ReplicaID, id: InstanceID, body: Body)
    ensures ToAll([], [], self, id, body)
  {
  }

  lemma OneMoreTo(a: seq<Message>, nodes: seq<ReplicaID>, last: ReplicaID, self: ReplicaID, id: InstanceID, body: Body)
    requires ToAll(a, nodes, self, id, body) && last !in nodes
    ensures ToAll(a + if last == self then [] else [Message(last, id, body)], nodes + [last], self, id, body)
  {
    var b := a + if last == self then [] else [Message(last, id, body)];
    assert last != self ==> b[|a|].to == last;
    forall y | y in nodes + [last] && y != self ensures exists k :: 0 <= k < |b| && b[k].to == y {
      if y != last {
        var k :| 0 <= k < |a| && a[k].to == y;
        assert b[k].to == y;
      }
    }
  }

  /** A counted reply stays counted while the leader's attributes only grow. */
  lemma StaysCounted(c: Cluster, d: Cluster, a: InstanceID, x: ReplicaID)
    requires Base(c) && Base(d) && c.conf == d.conf && Led(c, a) && Led(d, a)
    requires CountedOk(c, a, x)
    requires a in d.nodes[x].insts && a in d.nodes[x].pre && d.nodes[x].pre[a] == c.nodes[x].pre[a]
    requires Leader(c, a).insts[a].deps <= Leader(d, a).insts[a].deps
    requires Leader(c, a).insts[a].seqNum <= Leader(d, a).insts[a].seqNum
    requires Leader(c, a).insts[a].differentReplies ==> Leader(d, a).insts[a].differentReplies
    requires Leader(c, a).pre[a] == Leader(d, a).pre[a]
    requires Pos(c, x, a.replica) <= Pos(d, x, a.replica)
    requires forall k {:trigger Is(d, x, k, a, 1, a.replica)} :: Is(d, x, k, a, 1, a.replica) ==> Is(c, x, k, a, 1, a.replica)
    ensures CountedOk(d, a, x)
  {
  }

  lemma StaysAcked(c: Cluster, d: Cluster, a: InstanceID, x: ReplicaID)
    requires Base(c) && Base(d) && c.conf == d.conf && Led(c, a) && Led(d, a)
    requires AckedOk(c, a, x)
    requires a in d.nodes[x].insts && Rank(d.nodes[x].insts[a].status) >= 2
    requires Pos(c, x, a.replica) <= Pos(d, x, a.replica)
    requires forall k {:trigger Is(d, x, k, a, 3, a.replica)} :: Is(d, x, k, a, 3, a.replica) ==> Is(c, x, k, a, 3, a.replica)
    ensures AckedOk(d, a, x)
  {
  }

  // ----- A leader starts an instance -----

  ghost predicate Starts(c: Cluster, d: Cluster, a: InstanceID, cmd: Command, attrs: Attrs) {
    var y := a.replica;
    && Base(c) && y in c.conf && a !in c.nodes[y].insts
    && cmd.span.WellFormed()
    && StepAt(c, d, y, BroadcastMsgs(c.conf, y, a, PreAcceptMsg(cmd, attrs)))
    && CopyAt(d, y, a, NEW_INSTANCE.(status := PreAccepted, cmd := Some(cmd),
                                     seqNum := attrs.seqNum, deps := attrs.deps), attrs)
    && d.pos == c.pos && SameHistory(c, d, a)
  }

  /** Before that, nobody has heard of it. */
  lemma Unheard(c: Cluster, a: InstanceID)
    requires Base(c) && InstanceInv(c, a)
    requires a.replica in c.conf && a !in c.nodes[a.replica].insts
    ensures forall x :: x in c.conf ==> a !in c.nodes[x].insts
    ensures forall x, k, kind, y {:trigger Is(c, x, k, a, kind, y)} :: x in c.conf ==> !Is(c, x, k, a, kind, y)
    ensures Counted(c, a) == {} && Acked(c, a) == {}
  {
    assert !Led(c, a);
    forall x | x in c.conf ensures a !in c.nodes[x].insts {
      assert c.nodes[x].id == x;
    }
    forall x, k, kind, y | x in c.conf ensures !Is(c, x, k, a, kind, y) {
      assert Is(c, x, k, a, kind, y) ==> MsgOk(c, x, c.nodes[x].msgs[k]);
    }
  }

  lemma StartsMessages(c: Cluster, d: Cluster, a: InstanceID, cmd: Command, attrs: Attrs)
    requires Starts(c, d, a, cmd, attrs) && InstanceInv(c, a)
    ensures forall x, k, kind, y {:trigger Is(d, x, k, a, kind, y)} :: x in d.conf && Is(d, x, k, a, kind, y) ==>
              && x == a.replica && y in d.conf && y != x && kind == 0
              && |c.nodes[x].msgs| <= k
              && d.nodes[x].msgs[k].body == PreAcceptMsg(cmd, attrs)
    ensures SentOnce(d, a)
    ensures forall y {:trigger Asked(d, a, y)} :: y in d.conf && y != a.replica ==> Asked(d, a, y)
  {
    hide InstanceInv, BroadcastMsgs;
    var r := a.replica;
    var b := BroadcastMsgs(c.conf, r, a, PreAcceptMsg(cmd, attrs));
    BroadcastFacts(c.conf, r, a, PreAcceptMsg(cmd, attrs));
    Unheard(c, a);
    var n := |c.nodes[r].msgs|;
    forall x, k, kind, y | x in d.conf && Is(d, x, k, a, kind, y)
      ensures x == r && y in d.conf && y != x && kind == 0 && n <= k < n + |b|
      ensures d.nodes[x].msgs[k] == b[k - n] && b[k - n].to == y
    {
      OldMessage(c, d, r, b, x, k, a, kind, y);
      assert 0 <= k - n < |b|;
      assert b[k - n].to in c.conf;
    }
    forall y | y in d.conf && y != r ensures Asked(d, a, y) {
      var k :| 0 <= k < |b| && b[k].to == y;
      assert d.nodes[r].msgs[n + k] == b[k];
      assert Is(d, r, n + k, a, 0, y);
    }
  }

  lemma StartsKeeps(c: Cluster, d: Cluster, a: InstanceID, cmd: Command, attrs: Attrs)
    requires Starts(c, d, a, cmd, attrs) && InstanceInv(c, a)
    requires PosOk(c)
    ensures InstanceInv(d, a)
  {
    Unheard(c, a);
    StartsMessages(c, d, a, cmd, attrs);
    assert Led(d, a);
    assert CopiesOk(d, a);
    forall x, k | x in d.conf && 0 <= k < |d.nodes[x].msgs| && d.nodes[x].msgs[k].inst == a
      ensures MsgOk(d, x, d.nodes[x].msgs[k])
    {
      var m := d.nodes[x].msgs[k];
      assert Is(d, x, k, a, Kind(m.body), m.to);
    }
    var r := a.replica;
    forall y, k | y in d.conf && Is(d, r, k, a, 0, y)
      ensures a in d.nodes[y].insts <==> k < Pos(d, r, y)
    {
      assert d.nodes[y] == c.nodes[y] && Pos(d, r, y) == Pos(c, r, y);
    }
    assert AskedFirst(d, a);
    assert KindsInOrder(d, a);
    assert NotYetRead(d, a);
    assert CountsOk(d, a);
  }

  // ----- Another replica pre-accepts it -----

  ghost predicate PreAccepts(c: Cluster, d: Cluster, y: ReplicaID, k: nat, a: InstanceID,
                             cmd: Command, attrs: Attrs, local: Attrs)
  {
    var r := a.replica;
    && Base(c) && r in c.conf && y in c.conf && y != r
    && Is(c, r, k, a, 0, y) && c.nodes[r].msgs[k].body == PreAcceptMsg(cmd, attrs)
    && ReadsOne(c, d, r, y, k)
    && attrs.deps <= local.deps && attrs.seqNum <= local.seqNum
    && StepAt(c, d, y, [Message(r, a, if local == attrs then PreAcceptOK else PreAcceptReply(local))])
    && CopyAt(d, y, a, NEW_INSTANCE.(status := PreAccepted, cmd := Some(cmd),
                                     seqNum := local.seqNum, deps := local.deps), local)
    && SameHistory(c, d, a)
  }

  /** The request is y's first word of a. */
  lemma FirstWord(c: Cluster, a: InstanceID, y: ReplicaID, k: nat)
    requires Base(c) && InstanceInv(c, a) && a.replica in c.conf && y in c.conf && y != a.replica
    requires Is(c, a.replica, k, a, 0, y) && Pos(c, a.replica, y) <= k
    ensures Led(c, a) && a !in c.nodes[y].insts
    ensures forall j, kind, z {:trigger Is(c, y, j, a, kind, z)} :: !Is(c, y, j, a, kind, z)
  {
    assert MsgOk(c, a.replica, c.nodes[a.replica].msgs[k]);
    forall j, kind, z ensures !Is(c, y, j, a, kind, z) {
      assert Is(c, y, j, a, kind, z) ==> MsgOk(c, y, c.nodes[y].msgs[j]);
    }
  }

  lemma PreAcceptsMessages(c: Cluster, d: Cluster, y: ReplicaID, k: nat, a: InstanceID,
                           cmd: Command, attrs: Attrs, local: Attrs)
    requires PreAccepts(c, d, y, k, a, cmd, attrs, local) && InstanceInv(c, a)
    ensures MsgsOk(d, a) && SentOnce(d, a)
  {
    var r := a.replica;
    var body := if local == attrs then PreAcceptOK else PreAcceptReply(local);
    FirstWord(c, a, y, k);
    assert MsgOk(c, r, c.nodes[r].msgs[k]);
    forall x, j | x in d.conf && 0 <= j < |d.nodes[x].msgs| && d.nodes[x].msgs[j].inst == a
      ensures MsgOk(d, x, d.nodes[x].msgs[j])
    {
      var m := d.nodes[x].msgs[j];
      OldMessage(c, d, y, [Message(r, a, body)], x, j, a, Kind(m.body), m.to);
      if x != y {
        assert MsgOk(c, x, c.nodes[x].msgs[j]);
      }
    }
    forall x, z, kind, i, j | x in d.conf && Is(d, x, i, a, kind, z) && Is(d, x, j, a, kind, z)
      ensures i == j
    {
      OldMessage(c, d, y, [Message(r, a, body)], x, i, a, kind, z);
      OldMessage(c, d, y, [Message(r, a, body)], x, j, a, kind, z);
    }
  }

  lemma PreAcceptsOrder(c: Cluster, d: Cluster, y: ReplicaID, k: nat, a: InstanceID,
                        cmd: Command, attrs: Attrs, local: Attrs)
    requires PreAccepts(c, d, y, k, a, cmd, attrs, local) && InstanceInv(c, a)
    ensures AskedFirst(d, a) && KindsInOrder(d, a) && NotYetRead(d, a)
  {
    var r := a.replica;
    assert d.nodes[r] == c.nodes[r];
    assert forall j, kind, z {:trigger Is(d, r, j, a, kind, z)} :: Is(d, r, j, a, kind, z) <==> Is(c, r, j, a, kind, z);
    forall z, j | z in d.conf && Is(d, r, j, a, 0, z)
      ensures a in d.nodes[z].insts <==> j < Pos(d, r, z)
    {
      assert Is(c, r, j, a, 0, z);
      assert z != y ==> d.nodes[z] == c.nodes[z];
    }
    forall z | a in d.nodes[r].insts && z in d.conf && z != r ensures Asked(d, a, z) {
      assert Asked(c, a, z);
      var j :| Is(c, r, j, a, 0, z);
      assert Is(d, r, j, a, 0, z);
    }
    forall z, j, kind | z in d.conf && Is(d, r, j, a, kind, z) && a in d.nodes[z].insts && Pos(d, r, z) <= j
      ensures kind == 2 ==> Rank(d.nodes[z].insts[a].status) < 2
      ensures kind == 4 ==> Rank(d.nodes[z].insts[a].status) < 3
    {
      assert Is(c, r, j, a, kind, z);
      assert z != y ==> d.nodes[z] == c.nodes[z];
    }
  }

  lemma PreAcceptsCounts(c: Cluster, d: Cluster, y: ReplicaID, k: nat, a: InstanceID,
                         cmd: Command, attrs: Attrs, local: Attrs)
    requires PreAccepts(c, d, y, k, a, cmd, attrs, local) && InstanceInv(c, a)
    ensures CountsOk(d, a)
  {
    FirstWord(c, a, y, k);
    assert Leader(d, a) == Leader(c, a);
    forall x | x in Counted(d, a) ensures CountedOk(d, a, x) {
      assert CountedOk(c, a, x) && d.nodes[x] == c.nodes[x];
      StaysCounted(c, d, a, x);
    }
    forall x | x in Acked(d, a) ensures AckedOk(d, a, x) {
      assert AckedOk(c, a, x) && d.nodes[x] == c.nodes[x];
      StaysAcked(c, d, a, x);
    }
  }

  lemma PreAcceptsCopies(c: Cluster, d: Cluster, y: ReplicaID, k: nat, a: InstanceID,
                         cmd: Command, attrs: Attrs, local: Attrs)
    requires PreAccepts(c, d, y, k, a, cmd, attrs, local) && InstanceInv(c, a)
    ensures CopiesOk(d, a)
  {
    var r := a.replica;
    FirstWord(c, a, y, k);
    assert MsgOk(c, r, c.nodes[r].msgs[k]);
    assert d.nodes[r] == c.nodes[r];
    forall x | x in d.conf && a in d.nodes[x].insts
      ensures Led(d, a) && if x == r then LeaderCopy(d, a) else AcceptorCopy(d, x, a)
    {
      assert x != y ==> d.nodes[x] == c.nodes[x];
    }
  }

  lemma PreAcceptsKeeps(c: Cluster, d: Cluster, y: ReplicaID, k: nat, a: InstanceID,
                        cmd: Command, attrs: Attrs, local: Attrs)
    requires PreAccepts(c, d, y, k, a, cmd, attrs, local) && InstanceInv(c, a)
    ensures InstanceInv(d, a)
  {
    PreAcceptsCopies(c, d, y, k, a, cmd, attrs, local);
    PreAcceptsMessages(c, d, y, k, a, cmd, attrs, local);
    PreAcceptsOrder(c, d, y, k, a, cmd, attrs, local);
    PreAcceptsCounts(c, d, y, k, a, cmd, attrs, local);
  }

  // ----- The leader counts a PreAccept reply -----

  /** What the leader's copy becomes on reading such a reply. */
  function AfterReply(own: Instance, body: Body): Instance {
    if body.PreAcceptReply? then MergeReply(own, body.updated)
    else own.(preAcceptReplies := own.preAcceptReplies + 1)
  }

  ghost predicate CountsReply(c: Cluster, d: Cluster, x: ReplicaID, k: nat, a: InstanceID) {
    var r := a.replica;
    && Base(c) && r in c.conf && x in c.conf && x != r
    && Is(c, x, k, a, 1, r)
    && ReadsOne(c, d, x, r, k)
    && a in c.nodes[r].insts && c.nodes[r].insts[a].status == PreAccepted && a in c.nodes[r].pre
    && StepAt(c, d, r, [])
    && CopyAt(d, r, a, AfterReply(c.nodes[r].insts[a], c.nodes[x].msgs[k].body), c.nodes[r].pre[a])
    && Counted(d, a) == Counted(c, a) + {x} && Acked(d, a) == Acked(c, a)
  }

  lemma GrowsOrNot<T>(s: set<T>, t: set<T>)
    ensures |s + t| == |s| <==> t <= s
  {
    if t <= s {
      assert s + t == s;
    } else {
      var x :| x in t && x !in s;
      assert s + t == (s + (t - {x})) + {x};
      CardinalityMono(s, s + (t - {x}));
    }
  }

  lemma {:induction false} CardinalityMono<T>(s: set<T>, t: set<T>)
    requires s <= t
    ensures |s| <= |t|
  {
    if s != {} {
      var x :| x in s;
      CardinalityMono(s - {x}, t - {x});
    }
  }

  /**
   * A reply that disagrees is noticed. pre and theirs are what the leader and
   * the replying replica first computed.
   */
  lemma MergeFacts(own: Instance, pre: Attrs, theirs: Attrs, body: Body)
    requires pre.deps <= own.deps && pre.seqNum <= own.seqNum
    requires !own.differentReplies ==> own.Attributes() == pre
    requires pre.deps <= theirs.deps && pre.seqNum <= theirs.seqNum
    requires if body.PreAcceptReply? then body.updated == theirs != pre else body.PreAcceptOK? && theirs == pre
    ensures var grown := AfterReply(own, body);
            && own.deps + theirs.deps <= grown.deps
            && own.seqNum <= grown.seqNum && theirs.seqNum <= grown.seqNum
            && (grown.differentReplies <==> own.differentReplies || theirs != pre)
            && (!grown.differentReplies ==> grown.Attributes() == pre)
  {
    if body.PreAcceptReply? {
      GrowsOrNot(own.deps, theirs.deps);
      if theirs.deps <= own.deps && !own.differentReplies {
        assert theirs.deps == pre.deps;
      }
    }
  }

  ghost predicate ReplyEffect(c: Cluster, d: Cluster, x: ReplicaID, a: InstanceID) {
    && Base(c) && Base(d) && x in c.conf && x in d.conf
    && Led(c, a) && Led(d, a) && LeaderCopy(d, a) && a in c.nodes[x].pre
    && Leader(d, a).pre[a] == Leader(c, a).pre[a]
    && var own, grown, theirs := Leader(c, a).insts[a], Leader(d, a).insts[a], c.nodes[x].pre[a];
       && own.deps <= grown.deps && own.seqNum <= grown.seqNum
       && (own.differentReplies ==> grown.differentReplies)
       && theirs.deps <= grown.deps && theirs.seqNum <= grown.seqNum
       && (!grown.differentReplies ==> theirs == Leader(d, a).pre[a])
       && grown.status == own.status && grown.cmd == own.cmd
       && grown.acceptReplies == own.acceptReplies
       && grown.preAcceptReplies == own.preAcceptReplies + 1
  }

  lemma ReplyMerged(c: Cluster, d: Cluster, x: ReplicaID, k: nat, a: InstanceID)
    requires CountsReply(c, d, x, k, a) && InstanceInv(c, a)
    ensures ReplyEffect(c, d, x, a)
  {
    var r := a.replica;
    var m := c.nodes[x].msgs[k];
    assert MsgOk(c, x, m);
    assert AcceptorCopy(c, x, a) && LeaderCopy(c, a) by {
      assert c.nodes[x].id == x && c.nodes[r].id == r;
    }
    MergeFacts(c.nodes[r].insts[a], c.nodes[r].pre[a], c.nodes[x].pre[a], m.body);
  }

  lemma CountsReplyCopies(c: Cluster, d: Cluster, x: ReplicaID, k: nat, a: InstanceID)
    requires CountsReply(c, d, x, k, a) && InstanceInv(c, a)
    ensures CopiesOk(d, a) && MsgsOk(d, a)
  {
    var r := a.replica;
    ReplyMerged(c, d, x, k, a);
    forall y | y in d.conf && a in d.nodes[y].insts && y != r ensures AcceptorCopy(d, y, a) {
      assert d.nodes[y] == c.nodes[y] && AcceptorCopy(c, y, a);
    }
    forall y, j | y in d.conf && 0 <= j < |d.nodes[y].msgs| && d.nodes[y].msgs[j].inst == a
      ensures MsgOk(d, y, d.nodes[y].msgs[j])
    {
      assert d.nodes[y].msgs == c.nodes[y].msgs;
      assert MsgOk(c, y, c.nodes[y].msgs[j]);
      assert y != r ==> d.nodes[y] == c.nodes[y];
    }
  }

  /** Nothing was sent, and nothing from the leader was read. */
  lemma SilentOrder(c: Cluster, d: Cluster, y: ReplicaID, a: InstanceID)
    requires StepAt(c, d, y, []) && InstanceInv(c, a)
    requires forall x {:trigger d.nodes[x]} :: x in c.conf ==> (a in c.nodes[x].insts <==> a in d.nodes[x].insts)
    requires forall x {:trigger d.nodes[x]} :: x in c.conf && x != a.replica && a in c.nodes[x].insts ==>
               c.nodes[x].insts[a].status == d.nodes[x].insts[a].status
    requires forall x, i, kind, z {:trigger Is(c, x, i, a, kind, z)} ::
               x == a.replica && x in c.conf && Is(c, x, i, a, kind, z) && z in c.conf ==> Pos(c, x, z) == Pos(d, x, z)
    ensures SentOnce(d, a) && AskedFirst(d, a) && KindsInOrder(d, a) && NotYetRead(d, a)
  {
    var r := a.replica;
    forall x, i, kind, z | x in c.conf ensures Is(d, x, i, a, kind, z) <==> Is(c, x, i, a, kind, z) {
      assert d.nodes[x].msgs == c.nodes[x].msgs;
    }
    forall x, z, kind, i, j | x in d.conf && Is(d, x, i, a, kind, z) && Is(d, x, j, a, kind, z) ensures i == j {
      assert Is(c, x, i, a, kind, z) && Is(c, x, j, a, kind, z);
    }
    if r in c.conf {
      forall z, j | z in d.conf && Is(d, r, j, a, 0, z) ensures a in d.nodes[z].insts <==> j < Pos(d, r, z) {
        assert Is(c, r, j, a, 0, z);
        assert d.nodes[z].id == z;
      }
      forall z | a in d.nodes[r].insts && z in d.conf && z != r ensures Asked(d, a, z) {
        assert Asked(c, a, z);
        var j :| Is(c, r, j, a, 0, z);
        assert Is(d, r, j, a, 0, z);
      }
      forall z, i, j, low, high | Is(d, r, i, a, low, z) && Is(d, r, j, a, high, z) && low < high ensures i < j {
        assert Is(c, r, i, a, low, z) && Is(c, r, j, a, high, z);
      }
      forall z, j, kind | z in d.conf && Is(d, r, j, a, kind, z) && a in d.nodes[z].insts && Pos(d, r, z) <= j
        ensures kind == 2 ==> Rank(d.nodes[z].insts[a].status) < 2
        ensures kind == 4 ==> Rank(d.nodes[z].insts[a].status) < 3
      {
        assert Is(c, r, j, a, kind, z) && MsgOk(c, r, c.nodes[r].msgs[j]);
        assert d.nodes[z].id == z;
      }
    }
  }

  lemma CountsReplyCounts(c: Cluster, d: Cluster, x: ReplicaID, k: nat, a: InstanceID)
    requires CountsReply(c, d, x, k, a) && InstanceInv(c, a)
    ensures CountsOk(d, a)
  {
    var r := a.replica;
    ReplyMerged(c, d, x, k, a);
    assert MsgOk(c, x, c.nodes[x].msgs[k]);
    assert x !in Counted(c, a);
    assert Acked(c, a) == {};
    forall y | y in Counted(d, a) ensures CountedOk(d, a, y) {
      if y == x {
        assert d.nodes[x] == c.nodes[x];
        forall j | Is(d, x, j, a, 1, r) ensures j < Pos(d, x, r) {
          assert Is(c, x, j, a, 1, r) && Is(c, x, k, a, 1, r);
        }
      } else {
        assert CountedOk(c, a, y) && d.nodes[y] == c.nodes[y];
        StaysCounted(c, d, a, y);
      }
    }
  }

  lemma CountsReplyKeeps(c: Cluster, d: Cluster, x: ReplicaID, k: nat, a: InstanceID)
    requires CountsReply(c, d, x, k, a) && InstanceInv(c, a)
    ensures InstanceInv(d, a)
  {
    CountsReplyCopies(c, d, x, k, a);
    SilentOrder(c, d, a.replica, a);
    CountsReplyCounts(c, d, x, k, a);
  }

  // ----- The leader moves on: Accept or Commit -----

  function AdvanceBody(own: Instance, to: Status): Body
    requires own.cmd.Some?
  {
    if to == Accepted then AcceptMsg(own.Attributes()) else CommitMsg(own.cmd.value, own.Attributes())
  }

  /** The leader's copy takes the given status and a message of that kind goes out. */
  ghost predicate Advances(c: Cluster, d: Cluster, a: InstanceID, to: Status, body: Body) {
    var r := a.replica;
    && Base(c) && r in c.conf
    && Led(c, a)
    && (to == Accepted || to == Committed)
    && 1 <= Rank(c.nodes[r].insts[a].status) < Rank(to)
    && body == AdvanceBody(c.nodes[r].insts[a], to)
    && StepAt(c, d, r, BroadcastMsgs(c.conf, r, a, body))
    && CopyAt(d, r, a, c.nodes[r].insts[a].(status := to), c.nodes[r].pre[a])
    && d.pos == c.pos && SameHistory(c, d, a)
    && Quorum(c.conf, |Counted(c, a)| + 1)
    && (to == Committed ==> FastChosen(c, a) || SlowChosen(c, a))
  }

  /** Its own kind of message is new, and no acceptor is ahead of the leader. */
  lemma AdvanceFacts(c: Cluster, d: Cluster, a: InstanceID, to: Status, body: Body)
    requires Advances(c, d, a, to, body) && InstanceInv(c, a)
    ensures forall k, kind: nat, y: nat {:trigger Is(c, a.replica, k, a, kind, y)} ::
              Is(c, a.replica, k, a, kind, y) ==> kind < Kind(body)
    ensures forall y {:trigger c.nodes[y]} :: y in c.conf && a in c.nodes[y].insts ==>
              Rank(c.nodes[y].insts[a].status) < Rank(to)
  {
    var r := a.replica;
    forall k, kind: nat, y: nat | Is(c, r, k, a, kind, y) ensures kind < Kind(body) {
      assert MsgOk(c, r, c.nodes[r].msgs[k]);
    }
    forall y | y in c.conf && a in c.nodes[y].insts ensures Rank(c.nodes[y].insts[a].status) < Rank(to) {
      assert y != r ==> AcceptorCopy(c, y, a);
    }
  }

  lemma AdvancesSent(c: Cluster, d: Cluster, a: InstanceID, to: Status, body: Body,
                     x: ReplicaID, k: int, kind: nat, y: ReplicaID)
    requires Advances(c, d, a, to, body) && x in c.conf
    requires Is(d, x, k, a, kind, y) && !Is(c, x, k, a, kind, y)
    ensures x == a.replica && |c.nodes[x].msgs| <= k && kind == Kind(body) && y in c.conf && y != x
    ensures d.nodes[x].msgs[k].body == body
  {
    var b := BroadcastMsgs(c.conf, a.replica, a, body);
    BroadcastFacts(c.conf, a.replica, a, body);
    OldMessage(c, d, a.replica, b, x, k, a, kind, y);
    assert b[k - |c.nodes[x].msgs|].to in c.conf;
  }

  lemma AdvancesOnce(c: Cluster, d: Cluster, a: InstanceID, to: Status, body: Body)
    requires Advances(c, d, a, to, body) && InstanceInv(c, a)
    ensures SentOnce(d, a)
  {
    hide CopyAt, SameHistory, AdvanceBody, Quorum, Led, CopiesOk, MsgsOk, KindsInOrder, AskedFirst, NotYetRead, CountsOk;
    var r := a.replica;
    var b := BroadcastMsgs(c.conf, r, a, body);
    AdvanceFacts(c, d, a, to, body);
    BroadcastFacts(c.conf, r, a, body);
    forall x, y, kind, j, k | x in d.conf && Is(d, x, j, a, kind, y) && Is(d, x, k, a, kind, y)
      ensures j == k
    {
      OldMessage(c, d, r, b, x, j, a, kind, y);
      OldMessage(c, d, r, b, x, k, a, kind, y);
      if Is(c, x, j, a, kind, y) && Is(c, x, k, a, kind, y) {
      } else if x == r && kind == Kind(body) {
        var n := |c.nodes[r].msgs|;
        assert !Is(c, r, j, a, kind, y) && !Is(c, r, k, a, kind, y);
        assert b[j - n].to == b[k - n].to;
      }
    }
  }

  lemma AdvancesMsgs(c: Cluster, d: Cluster, a: InstanceID, to: Status, body: Body)
    requires Advances(c, d, a, to, body) && InstanceInv(c, a)
    ensures MsgsOk(d, a)
  {
    hide Quorum, SentOnce, KindsInOrder, AskedFirst, NotYetRead, CountsOk, CopiesOk, SameHistory, MsgOk, CopyAt, Led;
    forall x, k | x in d.conf && 0 <= k < |d.nodes[x].msgs| && d.nodes[x].msgs[k].inst == a
      ensures MsgOk(d, x, d.nodes[x].msgs[k])
    {
      var m := d.nodes[x].msgs[k];
      if Is(c, x, k, a, Kind(m.body), m.to) {
        OldMessage(c, d, a.replica, BroadcastMsgs(c.conf, a.replica, a, body), x, k, a, Kind(m.body), m.to);
        assert d.nodes[x].msgs[k] == c.nodes[x].msgs[k];
        assert MsgOk(c, x, c.nodes[x].msgs[k]);
        StillOk(c, d, a, to, body, x, m);
      } else {
        AdvancesSent(c, d, a, to, body, x, k, Kind(m.body), m.to);
        SentOk(c, d, a, to, body, m);
      }
    }
  }

  lemma StillOk(c: Cluster, d: Cluster, a: InstanceID, to: Status, body: Body, x: ReplicaID, m: Message)
    requires Advances(c, d, a, to, body) && x in c.conf && x in d.nodes && m.inst == a && MsgOk(c, x, m)
    ensures MsgOk(d, x, m)
  {
    hide Quorum;
    assert x != a.replica ==> d.nodes[x] == c.nodes[x];
  }

  lemma SentOk(c: Cluster, d: Cluster, a: InstanceID, to: Status, body: Body, m: Message)
    requires Advances(c, d, a, to, body) && a.replica in d.nodes
    requires m.inst == a && m.body == body && m.to in c.conf && m.to != a.replica
    ensures MsgOk(d, a.replica, m)
  {
    hide Quorum;
  }

  lemma AdvancesAsked(c: Cluster, d: Cluster, a: InstanceID, to: Status, body: Body)
    requires Advances(c, d, a, to, body) && InstanceInv(c, a)
    ensures AskedFirst(d, a)
  {
    var r := a.replica;
    forall y, k | y in d.conf && Is(d, r, k, a, 0, y)
      ensures a in d.nodes[y].insts <==> k < Pos(d, r, y)
    {
      if !Is(c, r, k, a, 0, y) {
        AdvancesSent(c, d, a, to, body, r, k, 0, y);
      }
      assert Is(c, r, k, a, 0, y) && Pos(c, r, y) == Pos(d, r, y);
      assert y != r ==> d.nodes[y] == c.nodes[y];
    }
    forall y | y in d.conf && y != r ensures Asked(d, a, y) {
      assert Asked(c, a, y);
      var j :| Is(c, r, j, a, 0, y);
      OldMessage(c, d, r, BroadcastMsgs(c.conf, r, a, body), r, j, a, 0, y);
      assert Is(d, r, j, a, 0, y);
    }
  }

  lemma AdvancesOrder(c: Cluster, d: Cluster, a: InstanceID, to: Status, body: Body)
    requires Advances(c, d, a, to, body) && InstanceInv(c, a) && PosOk(c)
    ensures KindsInOrder(d, a) && NotYetRead(d, a)
  {
    var r := a.replica;
    AdvanceFacts(c, d, a, to, body);
    forall y, j, k, low, high | Is(d, r, j, a, low, y) && Is(d, r, k, a, high, y) && low < high
      ensures j < k
    {
      if !Is(c, r, j, a, low, y) {
        AdvancesSent(c, d, a, to, body, r, j, low, y);
      }
      if !Is(c, r, k, a, high, y) {
        AdvancesSent(c, d, a, to, body, r, k, high, y);
      }
      assert Is(c, r, j, a, low, y);
    }
    forall y, k, kind | y in d.conf && Is(d, r, k, a, kind, y) && a in d.nodes[y].insts && Pos(d, r, y) <= k
      ensures kind == 2 ==> Rank(d.nodes[y].insts[a].status) < 2
      ensures kind == 4 ==> Rank(d.nodes[y].insts[a].status) < 3
    {
      if Is(c, r, k, a, kind, y) {
        assert MsgOk(c, r, c.nodes[r].msgs[k]);
      } else {
        AdvancesSent(c, d, a, to, body, r, k, kind, y);
      }
      assert MsgOk(d, r, d.nodes[r].msgs[k]) || y != r;
      assert y != r ==> d.nodes[y] == c.nodes[y] && Pos(c, r, y) == Pos(d, r, y);
    }
  }

  lemma AdvancesCounts(c: Cluster, d: Cluster, a: InstanceID, to: Status, body: Body)
    requires Advances(c, d, a, to, body) && InstanceInv(c, a)
    ensures CountsOk(d, a)
  {
    forall x | x in Counted(d, a) ensures CountedOk(d, a, x) {
      assert CountedOk(c, a, x) && d.nodes[x] == c.nodes[x];
      assert Pos(c, x, a.replica) == Pos(d, x, a.replica);
      StaysCounted(c, d, a, x);
    }
    forall x | x in Acked(d, a) ensures AckedOk(d, a, x) {
      assert AckedOk(c, a, x) && d.nodes[x] == c.nodes[x];
      assert Pos(c, x, a.replica) == Pos(d, x, a.replica);
      StaysAcked(c, d, a, x);
    }
  }

  lemma AdvancesKeeps(c: Cluster, d: Cluster, a: InstanceID, to: Status, body: Body)
    requires Advances(c, d, a, to, body) && InstanceInv(c, a) && PosOk(c)
    ensures InstanceInv(d, a)
  {
    var r := a.replica;
    assert LeaderCopy(c, a) by {
      assert c.nodes[r].id == r;
    }
    forall y | y in d.conf && a in d.nodes[y].insts
      ensures Led(d, a) && if y == r then LeaderCopy(d, a) else AcceptorCopy(d, y, a)
    {
      assert y != r ==> d.nodes[y] == c.nodes[y] && AcceptorCopy(c, y, a);
    }
    AdvancesMsgs(c, d, a, to, body);
    AdvancesOnce(c, d, a, to, body);
    AdvancesAsked(c, d, a, to, body);
    AdvancesOrder(c, d, a, to, body);
    AdvancesCounts(c, d, a, to, body);
  }

  // ----- Another replica accepts -----

  ghost predicate Accepts(c: Cluster, d: Cluster, y: ReplicaID, k: nat, a: InstanceID, attrs: Attrs) {
    var r := a.replica;
    && Base(c) && r in c.conf && y in c.conf && y != r
    && Is(c, r, k, a, 2, y) && c.nodes[r].msgs[k].body == AcceptMsg(attrs)
    && NextOnLink(c, r, y, k) && ReadsOne(c, d, r, y, k)
    && a in c.nodes[y].insts && a in c.nodes[y].pre
    && StepAt(c, d, y, [Message(r, a, AcceptOK)])
    && CopyAt(d, y, a, c.nodes[y].insts[a].(status := Accepted, seqNum := attrs.seqNum, deps := attrs.deps),
              c.nodes[y].pre[a])
    && SameHistory(c, d, a)
  }

  /** y has been asked before: whatever else the leader says comes later. */
  lemma AskedBefore(c: Cluster, y: ReplicaID, k: nat, a: InstanceID, kind: nat)
    requires Base(c) && InstanceInv(c, a) && a.replica in c.conf && y in c.conf && y != a.replica
    requires Is(c, a.replica, k, a, kind, y) && NextOnLink(c, a.replica, y, k) && kind > 0
    ensures Led(c, a) && a in c.nodes[y].insts && AcceptorCopy(c, y, a)
    ensures forall j {:trigger Is(c, a.replica, j, a, 0, y)} :: Is(c, a.replica, j, a, 0, y) ==> j < k
  {
    var r := a.replica;
    assert MsgOk(c, r, c.nodes[r].msgs[k]);
    assert Asked(c, a, y);
    var j :| Is(c, r, j, a, 0, y);
    assert j < k && c.nodes[r].msgs[j].to == y;
    assert c.nodes[y].id == y;
  }

  lemma AcceptsMsgs(c: Cluster, d: Cluster, y: ReplicaID, k: nat, a: InstanceID, attrs: Attrs)
    requires Accepts(c, d, y, k, a, attrs) && InstanceInv(c, a)
    ensures MsgsOk(d, a) && SentOnce(d, a)
  {
    hide CountsOk, LeaderCopy, CopiesOk, ReadsOne, KindsInOrder;
    var r := a.replica;
    var sent := [Message(r, a, AcceptOK)];
    AskedBefore(c, y, k, a, 2);
    assert MsgOk(c, r, c.nodes[r].msgs[k]);
    assert Rank(c.nodes[y].insts[a].status) < 2;
    forall x, j | x in d.conf && 0 <= j < |d.nodes[x].msgs| && d.nodes[x].msgs[j].inst == a
      ensures MsgOk(d, x, d.nodes[x].msgs[j])
    {
      var m := d.nodes[x].msgs[j];
      OldMessage(c, d, y, sent, x, j, a, Kind(m.body), m.to);
      if Is(c, x, j, a, Kind(m.body), m.to) {
        assert c.nodes[x].msgs[j] == m;
        assert MsgOk(c, x, m);
        assert x != y ==> d.nodes[x] == c.nodes[x];
      }
    }
    AcceptsOnce(c, d, y, k, a, attrs);
  }

  lemma AcceptsOnce(c: Cluster, d: Cluster, y: ReplicaID, k: nat, a: InstanceID, attrs: Attrs)
    requires Accepts(c, d, y, k, a, attrs) && MsgsOk(c, a) && SentOnce(c, a)
    requires Rank(c.nodes[y].insts[a].status) < 2
    ensures SentOnce(d, a)
  {
    var sent := [Message(a.replica, a, AcceptOK)];
    assert forall j :: 0 <= j < |c.nodes[y].msgs| && c.nodes[y].msgs[j].inst == a ==>
             MsgOk(c, y, c.nodes[y].msgs[j]);
    forall x, z, kind, i, j | x in d.conf && Is(d, x, i, a, kind, z) && Is(d, x, j, a, kind, z)
      ensures i == j
    {
      OldMessage(c, d, y, sent, x, i, a, kind, z);
      OldMessage(c, d, y, sent, x, j, a, kind, z);
    }
  }

  /** The leader sent nothing; y read message k from it, no sooner than that. */
  lemma ReadOrder(c: Cluster, d: Cluster, y: ReplicaID, k: nat, a: InstanceID, kind: nat)
    requires Base(c) && Base(d) && c.conf == d.conf && InstanceInv(c, a)
    requires a.replica in c.conf && y in c.conf && y != a.replica && kind > 0
    requires Is(c, a.replica, k, a, kind, y) && NextOnLink(c, a.replica, y, k)
    requires ReadsOne(c, d, a.replica, y, k)
    requires d.nodes[a.replica] == c.nodes[a.replica]
    requires forall x {:trigger d.nodes[x]} :: x in c.conf && x != y ==> d.nodes[x] == c.nodes[x]
    requires a in d.nodes[y].insts
    requires kind == 2 || kind == 4
    requires Rank(d.nodes[y].insts[a].status) == (if kind == 2 then 2 else 3)
    ensures AskedFirst(d, a) && KindsInOrder(d, a) && NotYetRead(d, a)
  {
    var r := a.replica;
    AskedBefore(c, y, k, a, kind);
    assert forall j, i, z {:trigger Is(d, r, j, a, i, z)} :: Is(d, r, j, a, i, z) <==> Is(c, r, j, a, i, z);
    forall z, j | z in d.conf && Is(d, r, j, a, 0, z) ensures a in d.nodes[z].insts <==> j < Pos(d, r, z) {
      assert Is(c, r, j, a, 0, z);
      assert z != y ==> d.nodes[z] == c.nodes[z];
    }
    forall z | a in d.nodes[r].insts && z in d.conf && z != r ensures Asked(d, a, z) {
      assert Asked(c, a, z);
      var j :| Is(c, r, j, a, 0, z);
      assert Is(d, r, j, a, 0, z);
    }
    forall z, j, i | z in d.conf && Is(d, r, j, a, i, z) && a in d.nodes[z].insts && Pos(d, r, z) <= j
      ensures i == 2 ==> Rank(d.nodes[z].insts[a].status) < 2
      ensures i == 4 ==> Rank(d.nodes[z].insts[a].status) < 3
    {
      assert Is(c, r, j, a, i, z);
      if z == y {
        assert j > k && Is(c, r, k, a, kind, y);
      } else {
        assert d.nodes[z] == c.nodes[z];
      }
    }
  }

  lemma AcceptsKeeps(c: Cluster, d: Cluster, y: ReplicaID, k: nat, a: InstanceID, attrs: Attrs)
    requires Accepts(c, d, y, k, a, attrs) && InstanceInv(c, a)
    ensures InstanceInv(d, a)
  {
    var r := a.replica;
    AskedBefore(c, y, k, a, 2);
    assert d.nodes[r] == c.nodes[r];
    assert MsgOk(c, r, c.nodes[r].msgs[k]);
    AcceptsMsgs(c, d, y, k, a, attrs);
    ReadOrder(c, d, y, k, a, 2);
    forall x | x in d.conf && a in d.nodes[x].insts
      ensures Led(d, a) && if x == r then LeaderCopy(d, a) else AcceptorCopy(d, x, a)
    {
      assert x != y ==> d.nodes[x] == c.nodes[x];
    }
    AcceptsCounts(c, d, y, k, a, attrs);
  }

  lemma AcceptsCounts(c: Cluster, d: Cluster, y: ReplicaID, k: nat, a: InstanceID, attrs: Attrs)
    requires Accepts(c, d, y, k, a, attrs) && InstanceInv(c, a) && Led(c, a) && Led(d, a)
    requires d.nodes[a.replica] == c.nodes[a.replica]
    ensures CountsOk(d, a)
  {
    hide AcceptorCopy, Rank, Quorum, LeaderCopy, NextOnLink;
    var r := a.replica;
    var sent := [Message(r, a, AcceptOK)];
    assert Is(c, r, k, a, 2, y) && Rank(c.nodes[y].insts[a].status) < 2;
    forall x | x in Counted(d, a) ensures CountedOk(d, a, x) {
      assert CountedOk(c, a, x);
      assert x != y ==> d.nodes[x] == c.nodes[x];
      forall j | Is(d, x, j, a, 1, r) ensures Is(c, x, j, a, 1, r) {
        OldMessage(c, d, y, sent, x, j, a, 1, r);
      }
      StaysCounted(c, d, a, x);
    }
    forall x | x in Acked(d, a) ensures AckedOk(d, a, x) {
      assert AckedOk(c, a, x) && x != y && d.nodes[x] == c.nodes[x];
      StaysAcked(c, d, a, x);
    }
  }

  lemma Assemble(c: Cluster, a: InstanceID)
    requires Base(c) && CopiesOk(c, a) && MsgsOk(c, a) && SentOnce(c, a)
    requires AskedFirst(c, a) && KindsInOrder(c, a) && NotYetRead(c, a) && CountsOk(c, a)
    ensures InstanceInv(c, a)
  {
  }

  // ----- The leader counts an Accept reply -----

  ghost predicate CountsAck(c: Cluster, d: Cluster, x: ReplicaID, k: nat, a: InstanceID) {
    var r := a.replica;
    && Base(c) && r in c.conf && x in c.conf && x != r
    && Is(c, x, k, a, 3, r)
    && ReadsOne(c, d, x, r, k)
    && Led(c, a) && c.nodes[r].insts[a].status == Accepted
    && StepAt(c, d, r, [])
    && CopyAt(d, r, a, c.nodes[r].insts[a].(acceptReplies := c.nodes[r].insts[a].acceptReplies + 1),
              c.nodes[r].pre[a])
    && Counted(d, a) == Counted(c, a) && Acked(d, a) == Acked(c, a) + {x}
  }

  /** With no message sent and the copies' contents kept, copies and messages stay good. */
  lemma SilentCopies(c: Cluster, d: Cluster, y: ReplicaID, a: InstanceID)
    requires StepAt(c, d, y, []) && InstanceInv(c, a)
    requires a in c.nodes[y].insts && a in d.nodes[y].insts
    requires a in c.nodes[y].pre && a in d.nodes[y].pre && d.nodes[y].pre[a] == c.nodes[y].pre[a]
    requires var i, j := c.nodes[y].insts[a], d.nodes[y].insts[a];
             i.status == j.status && i.cmd == j.cmd && i.Attributes() == j.Attributes()
             && i.differentReplies == j.differentReplies
    ensures CopiesOk(d, a) && MsgsOk(d, a)
  {
    forall x | x in d.conf && a in d.nodes[x].insts
      ensures Led(d, a) && if x == a.replica then LeaderCopy(d, a) else AcceptorCopy(d, x, a)
    {
      assert c.nodes[x].id == x;
      assert x != y ==> d.nodes[x] == c.nodes[x];
      assert a.replica != y ==> d.nodes[a.replica] == c.nodes[a.replica];
    }
    forall x, k | x in d.conf && 0 <= k < |d.nodes[x].msgs| && d.nodes[x].msgs[k].inst == a
      ensures MsgOk(d, x, d.nodes[x].msgs[k])
    {
      assert d.nodes[x].msgs == c.nodes[x].msgs;
      assert MsgOk(c, x, c.nodes[x].msgs[k]);
      assert x != y ==> d.nodes[x] == c.nodes[x];
      assert a.replica != y ==> d.nodes[a.replica] == c.nodes[a.replica];
    }
  }

  /** The acknowledgement just read was x's only one. */
  lemma JustAcked(c: Cluster, d: Cluster, x: ReplicaID, k: nat, a: InstanceID)
    requires CountsAck(c, d, x, k, a) && SentOnce(c, a) && MsgOk(c, x, c.nodes[x].msgs[k]) && Led(d, a)
    ensures AckedOk(d, a, x)
  {
    var r := a.replica;
    assert d.nodes[x] == c.nodes[x];
    forall j | Is(d, x, j, a, 3, r) ensures j < Pos(d, x, r) {
      assert Is(c, x, j, a, 3, r) && Is(c, x, k, a, 3, r);
    }
  }

  lemma AcksGrow(c: Cluster, d: Cluster, x: ReplicaID, k: nat, a: InstanceID)
    requires CountsAck(c, d, x, k, a) && CountsOk(c, a) && SentOnce(c, a)
    requires MsgOk(c, x, c.nodes[x].msgs[k]) && Led(d, a)
    ensures x !in Acked(c, a)
    ensures forall y :: y in Counted(d, a) ==> CountedOk(d, a, y)
    ensures forall y :: y in Acked(d, a) ==> AckedOk(d, a, y)
  {
    JustAcked(c, d, x, k, a);
    assert x in Acked(c, a) ==> AckedOk(c, a, x);
    forall y | y in Counted(d, a) ensures CountedOk(d, a, y) {
      assert CountedOk(c, a, y) && d.nodes[y] == c.nodes[y];
      StaysCounted(c, d, a, y);
    }
    forall y | y in Acked(d, a) && y != x ensures AckedOk(d, a, y) {
      assert AckedOk(c, a, y) && d.nodes[y] == c.nodes[y];
      StaysAcked(c, d, a, y);
    }
  }

  lemma CountsAckCounts(c: Cluster, d: Cluster, x: ReplicaID, k: nat, a: InstanceID)
    requires CountsAck(c, d, x, k, a) && CountsOk(c, a) && SentOnce(c, a)
    requires MsgOk(c, x, c.nodes[x].msgs[k]) && Led(d, a)
    ensures CountsOk(d, a)
  {
    hide MsgOk, SentOnce, CountedOk, AckedOk, Base;
    AcksGrow(c, d, x, k, a);
    assert |Acked(d, a)| == |Acked(c, a)| + 1;
  }

  /** What the counted acknowledgement relies on. */
  lemma AckFacts(c: Cluster, x: ReplicaID, k: nat, a: InstanceID)
    requires Base(c) && InstanceInv(c, a) && x in c.conf && Is(c, x, k, a, 3, a.replica)
    ensures CountsOk(c, a) && SentOnce(c, a) && MsgOk(c, x, c.nodes[x].msgs[k])
  {
  }

  lemma CountsAckKeeps(c: Cluster, d: Cluster, x: ReplicaID, k: nat, a: InstanceID)
    requires CountsAck(c, d, x, k, a) && InstanceInv(c, a)
    ensures InstanceInv(d, a)
  {
    hide InstanceInv, CopiesOk, MsgsOk, MsgOk, SentOnce, AskedFirst, KindsInOrder, NotYetRead, CountsOk;
    AckFacts(c, x, k, a);
    SilentCopies(c, d, a.replica, a);
    SilentOrder(c, d, a.replica, a);
    assert Led(d, a);
    CountsAckCounts(c, d, x, k, a);
    Assemble(d, a);
  }

  // ----- Another replica learns of the commit -----

  ghost predicate Learns(c: Cluster, d: Cluster, y: ReplicaID, k: nat, a: InstanceID, cmd: Command, attrs: Attrs) {
    var r := a.replica;
    && Base(c) && r in c.conf && y in c.conf && y != r
    && Is(c, r, k, a, 4, y) && c.nodes[r].msgs[k].body == CommitMsg(cmd, attrs)
    && NextOnLink(c, r, y, k) && ReadsOne(c, d, r, y, k)
    && a in c.nodes[y].insts && a in c.nodes[y].pre
    && StepAt(c, d, y, [])
    && CopyAt(d, y, a, c.nodes[y].insts[a].(status := Committed, cmd := Some(cmd),
                                            seqNum := attrs.seqNum, deps := attrs.deps),
              c.nodes[y].pre[a])
    && SameHistory(c, d, a)
  }

  lemma LearnsCopies(c: Cluster, d: Cluster, y: ReplicaID, k: nat, a: InstanceID, cmd: Command, attrs: Attrs)
    requires Learns(c, d, y, k, a, cmd, attrs) && InstanceInv(c, a)
    ensures CopiesOk(d, a) && MsgsOk(d, a) && SentOnce(d, a)
  {
    var r := a.replica;
    AskedBefore(c, y, k, a, 4);
    assert d.nodes[r] == c.nodes[r];
    assert MsgOk(c, r, c.nodes[r].msgs[k]);
    forall x | x in d.conf && a in d.nodes[x].insts
      ensures Led(d, a) && if x == r then LeaderCopy(d, a) else AcceptorCopy(d, x, a)
    {
      assert x != y ==> d.nodes[x] == c.nodes[x];
    }
    forall x, j | x in d.conf && 0 <= j < |d.nodes[x].msgs| && d.nodes[x].msgs[j].inst == a
      ensures MsgOk(d, x, d.nodes[x].msgs[j])
    {
      assert d.nodes[x].msgs == c.nodes[x].msgs;
      assert MsgOk(c, x, c.nodes[x].msgs[j]);
      assert x != y ==> d.nodes[x] == c.nodes[x];
    }
    forall x, z, kind, i, j | x in d.conf && Is(d, x, i, a, kind, z) && Is(d, x, j, a, kind, z) ensures i == j {
      assert d.nodes[x].msgs == c.nodes[x].msgs;
      assert Is(c, x, i, a, kind, z) && Is(c, x, j, a, kind, z);
    }
  }

  lemma LearnsKeeps(c: Cluster, d: Cluster, y: ReplicaID, k: nat, a: InstanceID, cmd: Command, attrs: Attrs)
    requires Learns(c, d, y, k, a, cmd, attrs) && InstanceInv(c, a)
    ensures InstanceInv(d, a)
  {
    LearnsCopies(c, d, y, k, a, cmd, attrs);
    assert d.nodes[a.replica] == c.nodes[a.replica];
    ReadOrder(c, d, y, k, a, 4);
    AskedBefore(c, y, k, a, 4);
    assert Led(d, a);
    SilentCounts(c, d, y, a);
  }

  /** Nothing was sent, ranks did not fall, the counts did not change. */
  lemma SilentCounts(c: Cluster, d: Cluster, y: ReplicaID, a: InstanceID)
    requires StepAt(c, d, y, []) && Led(c, a) && Led(d, a) && CountsOk(c, a) && SameHistory(c, d, a)
    requires d.nodes[a.replica].insts[a].(timer := c.nodes[a.replica].insts[a].timer) == c.nodes[a.replica].insts[a]
    requires d.nodes[a.replica].pre[a] == c.nodes[a.replica].pre[a]
    requires forall x {:trigger d.nodes[x]} :: x in c.conf && a in c.nodes[x].insts ==>
               a in d.nodes[x].insts && Rank(d.nodes[x].insts[a].status) >= Rank(c.nodes[x].insts[a].status)
    requires forall x {:trigger d.nodes[x]} :: x in c.conf && a in c.nodes[x].pre ==>
               a in d.nodes[x].pre && d.nodes[x].pre[a] == c.nodes[x].pre[a]
    requires forall x {:trigger Pos(c, x, a.replica)} :: x in c.conf ==> Pos(c, x, a.replica) <= Pos(d, x, a.replica)
    ensures CountsOk(d, a)
  {
    forall x | x in Counted(d, a) ensures CountedOk(d, a, x) {
      assert CountedOk(c, a, x) && d.nodes[x].msgs == c.nodes[x].msgs;
      StaysCounted(c, d, a, x);
    }
    forall x | x in Acked(d, a) ensures AckedOk(d, a, x) {
      assert AckedOk(c, a, x) && d.nodes[x].msgs == c.nodes[x].msgs;
      StaysAcked(c, d, a, x);
    }
  }

  // ----- The leader reads a reply it has no more use for -----

  ghost predicate Ignores(c: Cluster, d: Cluster, x: ReplicaID, k: nat, a: InstanceID) {
    var r := a.replica;
    && Base(c) && r in c.conf && x in c.conf && x != r
    && Led(c, a)
    && ReadsOne(c, d, x, r, k)
    && StepAt(c, d, r, [])
    && CopyAt(d, r, a, c.nodes[r].insts[a], c.nodes[r].pre[a])
    && SameHistory(c, d, a)
  }

  lemma IgnoresKeeps(c: Cluster, d: Cluster, x: ReplicaID, k: nat, a: InstanceID)
    requires Ignores(c, d, x, k, a) && InstanceInv(c, a)
    ensures InstanceInv(d, a)
  {
    SilentCopies(c, d, a.replica, a);
    SilentOrder(c, d, a.replica, a);
    assert Led(d, a);
    SilentCounts(c, d, a.replica, a);
  }
}

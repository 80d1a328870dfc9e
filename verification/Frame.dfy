/**
 * Steps that concern other instances: nothing an instance's invariant speaks
 * of changes, up to timers and to the step from Committed to Executed.
 */
module Frame {
  import opened Types
  import opened State
  import opened Handlers
  import opened Cluster

  predicate Similar(i: Instance, j: Instance) {
    && (i.status == j.status || (Rank(i.status) >= 3 && Rank(j.status) >= 3))
    && i.(status := j.status, timer := j.timer) == j
  }

  ghost predicate SameCopies(c: Cluster, d: Cluster, a: InstanceID)
    requires Base(c) && Base(d) && c.conf == d.conf
  {
    forall x {:trigger d.nodes[x]} {:trigger c.nodes[x]} :: x in c.conf ==>
      && (a in c.nodes[x].insts <==> a in d.nodes[x].insts)
      && (a in c.nodes[x].insts ==> Similar(c.nodes[x].insts[a], d.nodes[x].insts[a]))
      && (a in c.nodes[x].pre <==> a in d.nodes[x].pre)
      && (a in c.nodes[x].pre ==> c.nodes[x].pre[a] == d.nodes[x].pre[a])
  }

  /** No new message is about a. */
  ghost predicate SameMsgs(c: Cluster, d: Cluster, a: InstanceID)
    requires Base(c) && Base(d) && c.conf == d.conf
  {
    forall x {:trigger d.nodes[x]} {:trigger c.nodes[x]} :: x in c.conf ==>
      && c.nodes[x].msgs <= d.nodes[x].msgs
      && (forall k {:trigger d.nodes[x].msgs[k]} ::
            |c.nodes[x].msgs| <= k < |d.nodes[x].msgs| ==> d.nodes[x].msgs[k].inst != a)
  }

  /** No message about a has been read. */
  ghost predicate SameReads(c: Cluster, d: Cluster, a: InstanceID)
    requires Base(c) && Base(d) && c.conf == d.conf
  {
    forall x, y, k, kind {:trigger Is(c, x, k, a, kind, y)} :: x in c.conf && y in c.conf && Is(c, x, k, a, kind, y) ==>
      (k < Pos(c, x, y) <==> k < Pos(d, x, y))
  }

  ghost predicate SameFor(c: Cluster, d: Cluster, a: InstanceID)
  {
    && Base(c) && Base(d) && c.conf == d.conf
    && SameCopies(c, d, a)
    && SameMsgs(c, d, a)
    && SameReads(c, d, a)
    && Counted(c, a) == Counted(d, a)
    && Acked(c, a) == Acked(d, a)
  }

  lemma SameIs(c: Cluster, d: Cluster, a: InstanceID, x: ReplicaID, k: int, kind: nat, y: ReplicaID)
    requires Base(c) && Base(d) && c.conf == d.conf && SameMsgs(c, d, a) && x in c.conf
    ensures Is(c, x, k, a, kind, y) <==> Is(d, x, k, a, kind, y)
  {
    assert c.nodes[x].msgs <= d.nodes[x].msgs;
    if Is(d, x, k, a, kind, y) {
      assert k < |c.nodes[x].msgs|;
      assert c.nodes[x].msgs[k] == d.nodes[x].msgs[k];
    }
  }

  lemma SameLed(c: Cluster, d: Cluster, a: InstanceID)
    requires Base(c) && Base(d) && c.conf == d.conf && SameCopies(c, d, a)
    ensures Led(c, a) <==> Led(d, a)
  {
    if a.replica in c.conf {
      var x := a.replica;
      assert c.nodes[x].id == x && d.nodes[x].id == x;
    }
  }

  lemma FrameCopies(c: Cluster, d: Cluster, a: InstanceID)
    requires Base(c) && Base(d) && c.conf == d.conf && SameCopies(c, d, a) && CopiesOk(c, a)
    ensures CopiesOk(d, a)
  {
    SameLed(c, d, a);
    forall x | x in d.conf && a in d.nodes[x].insts
      ensures Led(d, a) && if x == a.replica then LeaderCopy(d, a) else AcceptorCopy(d, x, a)
    {
      assert a in c.nodes[x].insts;
      assert Similar(c.nodes[x].insts[a], d.nodes[x].insts[a]);
      assert Led(c, a);
      assert Similar(c.nodes[a.replica].insts[a], d.nodes[a.replica].insts[a]);
    }
  }

  lemma FrameMsgs(c: Cluster, d: Cluster, a: InstanceID)
    requires Base(c) && Base(d) && c.conf == d.conf && SameCopies(c, d, a) && SameMsgs(c, d, a)
    requires MsgsOk(c, a)
    ensures MsgsOk(d, a)
  {
    SameLed(c, d, a);
    forall x, k | x in d.conf && 0 <= k < |d.nodes[x].msgs| && d.nodes[x].msgs[k].inst == a
      ensures MsgOk(d, x, d.nodes[x].msgs[k])
    {
      assert c.nodes[x].msgs <= d.nodes[x].msgs;
      assert k < |c.nodes[x].msgs|;
      assert c.nodes[x].msgs[k] == d.nodes[x].msgs[k];
      assert MsgOk(c, x, c.nodes[x].msgs[k]);
      assert Similar(c.nodes[a.replica].insts[a], d.nodes[a.replica].insts[a]);
      if a in c.nodes[x].insts {
        assert Similar(c.nodes[x].insts[a], d.nodes[x].insts[a]);
      }
    }
  }

  lemma FrameSentOnce(c: Cluster, d: Cluster, a: InstanceID)
    requires Base(c) && Base(d) && c.conf == d.conf && SameMsgs(c, d, a)
    requires SentOnce(c, a)
    ensures SentOnce(d, a)
  {
    forall x, y, kind, j, k | x in d.conf && Is(d, x, j, a, kind, y) && Is(d, x, k, a, kind, y)
      ensures j == k
    {
      SameIs(c, d, a, x, j, kind, y);
      SameIs(c, d, a, x, k, kind, y);
    }
  }

  lemma FrameAskedFirst(c: Cluster, d: Cluster, a: InstanceID)
    requires SameFor(c, d, a) && AskedFirst(c, a)
    ensures AskedFirst(d, a)
  {
    var r := a.replica;
    if r in c.conf {
      forall y, k | y in d.conf && Is(d, r, k, a, 0, y)
        ensures a in d.nodes[y].insts <==> k < Pos(d, r, y)
      {
        SameIs(c, d, a, r, k, 0, y);
        assert a in c.nodes[y].insts <==> a in d.nodes[y].insts;
      }
      assert a in c.nodes[r].insts <==> a in d.nodes[r].insts;
      forall y | a in d.nodes[r].insts && y in d.conf && y != r ensures Asked(d, a, y) {
        assert Asked(c, a, y);
        var j :| Is(c, r, j, a, 0, y);
        SameIs(c, d, a, r, j, 0, y);
      }
    }
  }

  lemma FrameKinds(c: Cluster, d: Cluster, a: InstanceID)
    requires Base(c) && Base(d) && c.conf == d.conf && SameMsgs(c, d, a)
    requires KindsInOrder(c, a)
    ensures KindsInOrder(d, a)
  {
    var r := a.replica;
    if r in c.conf {
      forall y, j, k, low, high | Is(d, r, j, a, low, y) && Is(d, r, k, a, high, y) && low < high
        ensures j < k
      {
        SameIs(c, d, a, r, j, low, y);
        SameIs(c, d, a, r, k, high, y);
      }
    }
  }

  lemma FrameNotYetRead(c: Cluster, d: Cluster, a: InstanceID)
    requires SameFor(c, d, a) && NotYetRead(c, a)
    ensures NotYetRead(d, a)
  {
    var r := a.replica;
    if r in c.conf {
      forall y, k, kind | y in d.conf && Is(d, r, k, a, kind, y) && a in d.nodes[y].insts && Pos(d, r, y) <= k
        ensures kind == 2 ==> Rank(d.nodes[y].insts[a].status) < 2
        ensures kind == 4 ==> Rank(d.nodes[y].insts[a].status) < 3
      {
        SameIs(c, d, a, r, k, kind, y);
        assert Similar(c.nodes[y].insts[a], d.nodes[y].insts[a]);
      }
    }
  }

  lemma FrameCounts(c: Cluster, d: Cluster, a: InstanceID)
    requires SameFor(c, d, a) && CountsOk(c, a)
    ensures CountsOk(d, a)
  {
    var r := a.replica;
    SameLed(c, d, a);
    if r in c.conf {
      assert a in c.nodes[r].insts <==> a in d.nodes[r].insts;
      if a in c.nodes[r].insts {
        assert Similar(c.nodes[r].insts[a], d.nodes[r].insts[a]);
        forall x | x in Counted(d, a) ensures CountedOk(d, a, x) {
          assert CountedOk(c, a, x);
          FrameReads(c, d, a, x, 1);
          assert a in c.nodes[x].insts <==> a in d.nodes[x].insts;
        }
        forall x | x in Acked(d, a) ensures AckedOk(d, a, x) {
          assert AckedOk(c, a, x);
          FrameReads(c, d, a, x, 3);
          assert Similar(c.nodes[x].insts[a], d.nodes[x].insts[a]);
        }
      }
    }
  }

  lemma FrameReads(c: Cluster, d: Cluster, a: InstanceID, x: ReplicaID, kind: nat)
    requires SameFor(c, d, a) && x in c.conf && a.replica in c.conf
    requires forall k {:trigger Is(c, x, k, a, kind, a.replica)} ::
               Is(c, x, k, a, kind, a.replica) ==> k < Pos(c, x, a.replica)
    ensures forall k {:trigger Is(d, x, k, a, kind, a.replica)} ::
              Is(d, x, k, a, kind, a.replica) ==> k < Pos(d, x, a.replica)
  {
    forall k | Is(d, x, k, a, kind, a.replica) ensures k < Pos(d, x, a.replica) {
      SameIs(c, d, a, x, k, kind, a.replica);
    }
  }

  /** A step that leaves a alone keeps a's invariant. */
  lemma FrameInstance(c: Cluster, d: Cluster, a: InstanceID)
    requires SameFor(c, d, a) && InstanceInv(c, a)
    ensures InstanceInv(d, a)
  {
    FrameCopies(c, d, a);
    FrameMsgs(c, d, a);
    FrameSentOnce(c, d, a);
    FrameAskedFirst(c, d, a);
    FrameKinds(c, d, a);
    FrameNotYetRead(c, d, a);
    FrameCounts(c, d, a);
  }
}

/**
 * What the protocol promises in every reachable state: agreement on commands
 * and attributes, a quorum behind every commit, no transition outside the
 * table, and timers and executor that match the instances.
 */
module Safety {
  import opened Types
  import opened State
  import opened Graph
  import opened Handlers
  import opened Cluster
  import opened Steps
  import opened Local
  import opened Runs
  import opened Growth

  /** x has committed a, and perhaps executed it. */
  predicate Decides(c: Cluster, x: ReplicaID, a: InstanceID) {
    && x in c.conf && x in c.nodes
    && a in c.nodes[x].insts
    && Rank(c.nodes[x].insts[a].status) >= 3
  }

  function Value(c: Cluster, x: ReplicaID, a: InstanceID): (Option<Command>, Attrs)
    requires Decides(c, x, a)
  {
    (c.nodes[x].insts[a].cmd, c.nodes[x].insts[a].Attributes())
  }

  /** A committed copy is the leader's, who has committed as well. */
  lemma LeaderDecides(c: Cluster, x: ReplicaID, a: InstanceID)
    requires GlobalInv(c) && Decides(c, x, a)
    ensures Led(c, a) && Decides(c, a.replica, a)
    ensures Value(c, x, a) == Value(c, a.replica, a)
  {
    assert InstanceInv(c, a);
    assert CopiesOk(c, a);
    assert c.nodes[x].id == x;
  }

  /** One step leaves every committed copy committed, with the same contents. */
  lemma DecisionStays(c: Cluster, d: Cluster, x: ReplicaID, a: InstanceID)
    requires GlobalInv(c) && Next(c, d) && Decides(c, x, a)
    ensures Decides(d, x, a) && Value(d, x, a) == Value(c, x, a)
  {
    hide InstanceInv, Next, LocalOk;
    NextGrows(c, d);
    LocalAt(c, x);
    PreKeys(c.nodes[x]);
    assert a in c.nodes[x].pre.Keys;
    assert Grown(c.nodes[x], d.nodes[x]);
    assert CopyKept(c.nodes[x], d.nodes[x], a);
  }

  lemma {:induction false} DecisionForever(run: seq<Cluster>, i: nat, j: nat, x: ReplicaID, a: InstanceID)
    requires IsRun(run) && i <= j < |run| && Decides(run[i], x, a)
    ensures Decides(run[j], x, a) && Value(run[j], x, a) == Value(run[i], x, a)
  {
    hide Next, Init;
    if i < j {
      DecisionForever(run, i, j - 1, x, a);
      RunInv(run, j - 1);
      DecisionStays(run[j - 1], run[j], x, a);
    }
  }

  /**
   * Agreement: whatever replicas and moments of a run one looks at, a committed
   * instance has one command, one sequence number and one set of dependencies.
   */
  lemma Agreement(run: seq<Cluster>, i: nat, j: nat, x: ReplicaID, y: ReplicaID, a: InstanceID)
    requires IsRun(run) && i < |run| && j < |run|
    requires Decides(run[i], x, a) && Decides(run[j], y, a)
    ensures Value(run[i], x, a) == Value(run[j], y, a)
  {
    hide IsRun;
    if j < i {
      Agreement(run, j, i, y, x, a);
    } else {
      DecisionForever(run, i, j, x, a);
      RunInv(run, j);
      LeaderDecides(run[j], x, a);
      LeaderDecides(run[j], y, a);
    }
  }

  /** Every reply of q that the leader may count agreed with it. */
  ghost predicate RepliedOk(c: Cluster, q: ReplicaID, a: InstanceID)
    requires q in c.nodes
  {
    forall k {:trigger Is(c, q, k, a, 1, a.replica)} ::
      Is(c, q, k, a, 1, a.replica) ==> c.nodes[q].msgs[k].body == PreAcceptOK
  }

  /** All replicas but one, the leader among them, hold attrs and never held others. */
  ghost predicate FastEvidence(c: Cluster, a: InstanceID, attrs: Attrs)
    requires Base(c)
  {
    var q := Counted(c, a) + {a.replica};
    && |q| >= |c.conf| - 1
    && forall x {:trigger c.nodes[x]} :: x in q ==>
         && x in c.conf && a in c.nodes[x].insts && a in c.nodes[x].pre
         && c.nodes[x].insts[a].Attributes() == attrs == c.nodes[x].pre[a]
         && (x != a.replica ==> RepliedOk(c, x, a))
  }

  /** A majority, the leader in it, has accepted attrs. */
  ghost predicate SlowEvidence(c: Cluster, a: InstanceID, attrs: Attrs)
    requires Base(c)
  {
    var q := Acked(c, a) + {a.replica};
    && |q| > |c.conf| / 2
    && forall x {:trigger c.nodes[x]} :: x in q ==>
         && x in c.conf && a in c.nodes[x].insts
         && Rank(c.nodes[x].insts[a].status) >= 2
         && c.nodes[x].insts[a].Attributes() == attrs
  }

  lemma CountedHolds(c: Cluster, a: InstanceID, x: ReplicaID)
    requires Base(c) && InstanceInv(c, a) && a.replica in c.conf && Led(c, a) && x in Counted(c, a)
    requires !Leader(c, a).insts[a].differentReplies
    ensures CountedOk(c, a, x) && RepliedOk(c, x, a)
    ensures c.nodes[x].insts[a].Attributes() == Leader(c, a).insts[a].Attributes() == c.nodes[x].pre[a]
  {
    var r := a.replica;
    assert c.nodes[r].id == r && c.nodes[x].id == x;
    assert CountedOk(c, a, x);
    assert AcceptorCopy(c, x, a) && LeaderCopy(c, a);
    forall k | Is(c, x, k, a, 1, r) ensures c.nodes[x].msgs[k].body == PreAcceptOK {
      assert MsgOk(c, x, c.nodes[x].msgs[k]);
    }
  }

  lemma AckedHolds(c: Cluster, a: InstanceID, x: ReplicaID)
    requires Base(c) && InstanceInv(c, a) && a.replica in c.conf && Led(c, a) && x in Acked(c, a)
    ensures AckedOk(c, a, x)
    ensures c.nodes[x].insts[a].Attributes() == Leader(c, a).insts[a].Attributes()
  {
    assert c.nodes[a.replica].id == a.replica && c.nodes[x].id == x;
    assert AckedOk(c, a, x);
    assert AcceptorCopy(c, x, a);
  }

  lemma LeaderCopyOf(c: Cluster, a: InstanceID)
    requires Base(c) && InstanceInv(c, a) && a.replica in c.conf && Led(c, a)
    ensures LeaderCopy(c, a)
    ensures a.replica !in Counted(c, a) && a.replica !in Acked(c, a)
  {
    assert c.nodes[a.replica].id == a.replica;
    assert a.replica in Counted(c, a) ==> CountedOk(c, a, a.replica);
    assert a.replica in Acked(c, a) ==> AckedOk(c, a, a.replica);
  }

  lemma FastIsEvident(c: Cluster, a: InstanceID)
    requires Base(c) && InstanceInv(c, a) && a.replica in c.conf && Led(c, a) && FastChosen(c, a)
    ensures FastEvidence(c, a, Leader(c, a).insts[a].Attributes())
  {
    hide InstanceInv, CountedOk, RepliedOk, LeaderCopy, FastChosen, Counted;
    LeaderCopyOf(c, a);
    LeaderAgrees(c, a);
    forall x | x in Counted(c, a)
      ensures x in c.conf && a in c.nodes[x].insts && a in c.nodes[x].pre && RepliedOk(c, x, a)
      ensures c.nodes[x].insts[a].Attributes() == Leader(c, a).insts[a].Attributes() == c.nodes[x].pre[a]
    {
      CountedHolds(c, a, x);
      CountedMember(c, a, x);
    }
    OneMore(Counted(c, a), a.replica);
  }

  lemma LeaderAgrees(c: Cluster, a: InstanceID)
    requires Led(c, a) && LeaderCopy(c, a) && FastChosen(c, a)
    ensures Leader(c, a).insts[a].Attributes() == Leader(c, a).pre[a]
    ensures !Leader(c, a).insts[a].differentReplies && |Counted(c, a)| + 1 >= |c.conf| - 1
  {
  }

  lemma OneMore(s: set<ReplicaID>, x: ReplicaID)
    requires x !in s
    ensures |s + {x}| == |s| + 1
  {
  }

  lemma CountedMember(c: Cluster, a: InstanceID, x: ReplicaID)
    requires Led(c, a) && CountedOk(c, a, x)
    ensures x in c.conf && x in c.nodes && a in c.nodes[x].insts && a in c.nodes[x].pre
  {
  }

  lemma SlowIsEvident(c: Cluster, a: InstanceID)
    requires Base(c) && InstanceInv(c, a) && a.replica in c.conf && Led(c, a) && SlowChosen(c, a)
    requires Rank(Leader(c, a).insts[a].status) >= 2
    ensures SlowEvidence(c, a, Leader(c, a).insts[a].Attributes())
  {
    hide InstanceInv;
    LeaderCopyOf(c, a);
    forall x | x in Acked(c, a)
      ensures x in c.conf && a in c.nodes[x].insts && Rank(c.nodes[x].insts[a].status) >= 2
      ensures c.nodes[x].insts[a].Attributes() == Leader(c, a).insts[a].Attributes()
    {
      AckedHolds(c, a, x);
    }
    assert |Acked(c, a) + {a.replica}| == |Acked(c, a)| + 1;
  }

  /** Chosen on a quorum: behind every commit stand the replicas it takes. */
  lemma ChosenOnQuorum(c: Cluster, x: ReplicaID, a: InstanceID)
    requires Reachable(c) && Decides(c, x, a)
    ensures Base(c)
    ensures FastEvidence(c, a, c.nodes[x].insts[a].Attributes()) || SlowEvidence(c, a, c.nodes[x].insts[a].Attributes())
  {
    ReachableInv(c);
    LeaderDecides(c, x, a);
    assert InstanceInv(c, a);
    assert CountsOk(c, a);
    hide InstanceInv, FastEvidence, SlowEvidence, Reachable;
    if FastChosen(c, a) {
      FastIsEvident(c, a);
    } else {
      SlowIsEvident(c, a);
    }
  }

  /** No reachable step asks for a transition outside the table, or fails otherwise. */
  lemma NoPanic(c: Cluster, x: ReplicaID)
    requires Reachable(c) && x in c.conf
    ensures x in c.nodes && !c.nodes[x].panicked
  {
    ReachableInv(c);
  }

  /**
   * The slow-path timer is registered, and set, exactly while the leader holds a
   * majority of replies that all agree but not yet a fast quorum of them.
   */
  lemma TimerExact(c: Cluster, x: ReplicaID, a: InstanceID)
    requires Reachable(c) && x in c.conf
    ensures x in c.nodes
    ensures a in c.nodes[x].timers <==> a in c.nodes[x].insts && !c.nodes[x].insts[a].timer.paused
    ensures a in c.nodes[x].timers <==>
            && a in c.nodes[x].insts && a.replica == x
            && c.nodes[x].insts[a].status == PreAccepted
            && !c.nodes[x].insts[a].differentReplies
            && |c.conf| / 2 < |Counted(c, a)| + 1 < |c.conf| - 1
  {
    ReachableInv(c);
    var n := c.nodes[x];
    LocalAt(c, x);
    if a in n.insts {
      assert InstOk(n.nodes, n.id, a, n.insts[a]);
      if a.replica == x {
        assert InstanceInv(c, a);
        NotedLed(c, a);
        CountedReplies(c, a);
      }
    }
  }

  /** The executor waits for exactly the instances committed here and not executed. */
  lemma PendingExact(c: Cluster, x: ReplicaID, a: InstanceID)
    requires Reachable(c) && x in c.conf
    ensures x in c.nodes
    ensures a in c.nodes[x].pending <==> a in c.nodes[x].insts && c.nodes[x].insts[a].status == Committed
  {
    ReachableInv(c);
    LocalAt(c, x);
  }
}

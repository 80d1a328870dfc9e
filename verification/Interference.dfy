/**
 * Interfering commands are never left unordered: although every scan prunes
 * its dependencies, quorums that intersect see to it that one of two decided
 * interfering instances reaches the other through the leaders' dependencies.
 */
module Interference {
  import opened Types
  import opened State
  import opened Graph
  import opened Scan
  import opened Handlers
  import opened Cluster
  import opened Steps
  import opened Local
  import opened Runs
  import opened Growth
  import opened Safety

  /** Instances whose leader has started them. */
  ghost function Started(c: Cluster): set<InstanceID>
    requires Base(c)
  {
    set x, a | x in c.conf && a in c.nodes[x].insts && a.replica == x :: a
  }

  /** The dependencies every leader holds for the instances it leads. */
  ghost function LeaderGraph(c: Cluster): DepGraph
    requires Base(c)
  {
    map a | a in Started(c) :: c.nodes[a.replica].insts[a].deps
  }

  ghost predicate Clash(c: Cluster, a: InstanceID, b: InstanceID) {
    && Led(c, a) && Led(c, b)
    && Leader(c, a).insts[a].cmd.value.Interferes(Leader(c, b).insts[b].cmd.value)
  }

  lemma StartedIff(c: Cluster, a: InstanceID)
    requires Base(c)
    ensures a in Started(c) <==> a.replica in c.conf && a in c.nodes[a.replica].insts
  {
  }

  /** Whoever knows an instance knows its leader's command. */
  lemma KnownCmd(c: Cluster, x: ReplicaID, a: InstanceID)
    requires GlobalInv(c) && x in c.conf && a in c.nodes[x].insts
    ensures Led(c, a) && c.nodes[x].insts[a].cmd == Leader(c, a).insts[a].cmd
    ensures a in c.nodes[x].pre && a in Started(c)
  {
    assert InstanceInv(c, a) && CopiesOk(c, a);
    assert c.nodes[x].id == x;
  }

  // ----- Within the row of one leader -----

  /** A leader's later instance reaches its earlier ones that interfere. */
  ghost predicate RowPair(c: Cluster, i: InstanceID, j: InstanceID)
    requires Base(c)
  {
    Clash(c, i, j) && i.replica == j.replica && i.num < j.num ==> Reach(LeaderGraph(c), j, i)
  }

  ghost predicate RowsOk(c: Cluster)
    requires Base(c)
  {
    forall i, j {:trigger RowPair(c, i, j)} :: RowPair(c, i, j)
  }

  // ----- At one replica -----

  /** What x first computed for b leads to a. */
  ghost predicate Follows(c: Cluster, x: ReplicaID, b: InstanceID, a: InstanceID)
    requires Base(c)
  {
    && x in c.conf && b in c.nodes[x].pre
    && exists d :: d in c.nodes[x].pre[b].deps && Reach(LeaderGraph(c), d, a)
  }

  /** Of two interfering instances known to x, what it first computed for one leads to the other. */
  ghost predicate KnownPair(c: Cluster, x: ReplicaID, a: InstanceID, b: InstanceID)
    requires Base(c)
  {
    x in c.conf && a in c.nodes[x].insts && b in c.nodes[x].insts && a != b && Clash(c, a, b)
    ==> Follows(c, x, a, b) || Follows(c, x, b, a)
  }

  ghost predicate KnownOk(c: Cluster)
    requires Base(c)
  {
    forall x, a, b {:trigger KnownPair(c, x, a, b)} :: KnownPair(c, x, a, b)
  }

  // ----- Both are kept -----

  lemma LeaderGraphGrows(c: Cluster, d: Cluster)
    requires GlobalInv(c) && Base(d) && AllGrown(c, d)
    ensures forall x, y :: Edge(LeaderGraph(c), x, y) ==> Edge(LeaderGraph(d), x, y)
  {
    hide InstanceInv, LocalOk;
    forall x, y | Edge(LeaderGraph(c), x, y) ensures Edge(LeaderGraph(d), x, y) {
      StartedIff(c, x);
      StartedIff(d, x);
      LeaderKeeps(c, d, x);
    }
  }

  lemma LeaderKeeps(c: Cluster, d: Cluster, a: InstanceID)
    requires GlobalInv(c) && Base(d) && AllGrown(c, d) && a.replica in c.conf && a in c.nodes[a.replica].insts
    ensures a in d.nodes[a.replica].insts && c.nodes[a.replica].insts[a].deps <= d.nodes[a.replica].insts[a].deps
    ensures d.nodes[a.replica].insts[a].cmd == c.nodes[a.replica].insts[a].cmd
  {
    hide InstanceInv, LocalOk;
    var r := a.replica;
    LocalAt(c, r);
    PreKeys(c.nodes[r]);
    assert a in c.nodes[r].pre.Keys;
    assert Grown(c.nodes[r], d.nodes[r]);
    assert CopyKept(c.nodes[r], d.nodes[r], a);
  }

  /** Instances known before a step interfere after it only if they did before. */
  lemma ClashBefore(c: Cluster, d: Cluster, a: InstanceID, b: InstanceID)
    requires GlobalInv(c) && Base(d) && AllGrown(c, d) && Clash(d, a, b)
    requires Led(c, a) && Led(c, b)
    ensures Clash(c, a, b)
  {
    hide AllGrown, GlobalInv;
    LeaderKeeps(c, d, a);
    LeaderKeeps(c, d, b);
  }

  /** At a replica, a covered instance is reached from the new one's dependencies. */
  lemma CoveredReaches(c: Cluster, x: ReplicaID, deps: set<InstanceID>, a: InstanceID) returns (w: InstanceID)
    requires GlobalInv(c) && RowsOk(c) && x in c.conf && a in c.nodes[x].insts
    requires Covered(c.nodes[x].insts, deps, a)
    ensures w in deps && Reach(LeaderGraph(c), w, a)
  {
    hide InstanceInv, LocalOk, LeaderGraph;
    if a in deps {
      w := a;
      ReachRefl(LeaderGraph(c), a);
    } else {
      w :| NewerWrite(c.nodes[x].insts, deps, a, w);
      KnownCmd(c, x, a);
      KnownCmd(c, x, w);
      InterferesSymmetric(Leader(c, a).insts[a].cmd.value, Leader(c, w).insts[w].cmd.value);
      assert RowPair(c, a, w);
    }
  }

  lemma OldRow(c: Cluster, d: Cluster, i: InstanceID, j: InstanceID)
    requires GlobalInv(c) && RowsOk(c) && Base(d) && AllGrown(c, d)
    requires Clash(d, i, j) && i.replica == j.replica && i.num < j.num
    requires Led(c, i) && Led(c, j)
    ensures Reach(LeaderGraph(d), j, i)
  {
    hide AllGrown, LeaderGraph, InstanceInv, LocalOk, Clash;
    ClashBefore(c, d, i, j);
    assert RowPair(c, i, j);
    LeaderGraphGrows(c, d);
    ReachMono(LeaderGraph(c), LeaderGraph(d), j, i);
  }

  lemma NewRow(c: Cluster, d: Cluster, i: InstanceID, j: InstanceID)
    requires GlobalInv(c) && GlobalInv(d) && RowsOk(c) && AllGrown(c, d)
    requires Clash(d, i, j) && i.replica == j.replica && i.num < j.num
    requires i in c.nodes[i.replica].insts && j !in c.nodes[j.replica].insts
    ensures Reach(LeaderGraph(d), j, i)
  {
    var r := i.replica;
    assert FreshCopy(c.nodes[r], d.nodes[r], j) by {
      assert Grown(c.nodes[r], d.nodes[r]);
    }
    hide AllGrown, LocalOk, LeaderGraph, Covered;
    KnownCmd(c, r, i);
    LeaderKeeps(c, d, i);
    var pre := d.nodes[r].pre[j];
    assert Covered(c.nodes[r].insts, pre.deps, i);
    var w := CoveredReaches(c, r, pre.deps, i);
    LeaderGraphGrows(c, d);
    ReachMono(LeaderGraph(c), LeaderGraph(d), w, i);
    assert InstanceInv(d, j);
    LeaderCopyOf(d, j);
    LeaderEdge(d, j, w);
    ReachEdge(LeaderGraph(d), j, w);
    ReachTrans(LeaderGraph(d), j, w, i);
  }

  lemma LeaderEdge(c: Cluster, a: InstanceID, w: InstanceID)
    requires Base(c) && a.replica in c.conf && a in c.nodes[a.replica].insts
    requires w in c.nodes[a.replica].insts[a].deps
    ensures Edge(LeaderGraph(c), a, w)
  {
    StartedIff(c, a);
  }

  /** Between a leader's instances, the one that is new in a step has the higher number. */
  lemma NewIsLast(c: Cluster, d: Cluster, i: InstanceID, j: InstanceID)
    requires Base(c) && Base(d) && AllGrown(c, d) && i.replica == j.replica && i.num < j.num
    requires i.replica in c.conf && i in d.nodes[i.replica].insts && j in d.nodes[i.replica].insts
    ensures i in c.nodes[i.replica].insts
  {
    var r := i.replica;
    assert Grown(c.nodes[r], d.nodes[r]);
    assert FreshCopy(c.nodes[r], d.nodes[r], i);
    assert c.nodes[r].id == r;
  }

  lemma RowsKept(c: Cluster, d: Cluster)
    requires GlobalInv(c) && GlobalInv(d) && RowsOk(c) && AllGrown(c, d)
    ensures RowsOk(d)
  {
    assert d.conf == c.conf;
    hide AllGrown, LocalOk, LeaderGraph, InstanceInv;
    forall i, j ensures RowPair(d, i, j) {
      if Clash(d, i, j) && i.replica == j.replica && i.num < j.num {
        NewIsLast(c, d, i, j);
        KnownCmd(c, i.replica, i);
        if j in c.nodes[j.replica].insts {
          KnownCmd(c, j.replica, j);
          OldRow(c, d, i, j);
        } else {
          NewRow(c, d, i, j);
        }
      }
    }
  }

  lemma OldKnown(c: Cluster, d: Cluster, x: ReplicaID, a: InstanceID, b: InstanceID)
    requires GlobalInv(c) && KnownOk(c) && Base(d) && AllGrown(c, d)
    requires x in c.conf && a in c.nodes[x].insts && b in c.nodes[x].insts && a != b && Clash(d, a, b)
    ensures Follows(d, x, a, b) || Follows(d, x, b, a)
  {
    assert Grown(c.nodes[x], d.nodes[x]);
    assert CopyKept(c.nodes[x], d.nodes[x], a) && CopyKept(c.nodes[x], d.nodes[x], b);
    hide LeaderGraph, InstanceInv, LocalOk, Clash, Grown;
    KnownCmd(c, x, a);
    KnownCmd(c, x, b);
    ClashBefore(c, d, a, b);
    assert KnownPair(c, x, a, b);
    if Follows(c, x, a, b) {
      FollowsStill(c, d, x, a, b);
    } else {
      FollowsStill(c, d, x, b, a);
    }
  }

  lemma FollowsStill(c: Cluster, d: Cluster, x: ReplicaID, b: InstanceID, a: InstanceID)
    requires GlobalInv(c) && Base(d) && AllGrown(c, d) && Follows(c, x, b, a)
    requires b in d.nodes[x].pre && d.nodes[x].pre[b] == c.nodes[x].pre[b]
    ensures Follows(d, x, b, a)
  {
    hide LeaderGraph, InstanceInv, LocalOk;
    var w :| w in c.nodes[x].pre[b].deps && Reach(LeaderGraph(c), w, a);
    LeaderGraphGrows(c, d);
    ReachMono(LeaderGraph(c), LeaderGraph(d), w, a);
    assert w in d.nodes[x].pre[b].deps;
  }

  /** b is new to x, a is not. */
  lemma NewKnown(c: Cluster, d: Cluster, x: ReplicaID, a: InstanceID, b: InstanceID)
    requires GlobalInv(c) && GlobalInv(d) && RowsOk(c) && AllGrown(c, d)
    requires x in c.conf && a in c.nodes[x].insts && b !in c.nodes[x].insts && b in d.nodes[x].insts
    requires Clash(d, a, b)
    ensures Follows(d, x, b, a)
  {
    assert FreshCopy(c.nodes[x], d.nodes[x], b) by {
      assert Grown(c.nodes[x], d.nodes[x]);
    }
    assert d.conf == c.conf;
    hide AllGrown, LocalOk, LeaderGraph, Covered, InstanceInv;
    KnownCmd(c, x, a);
    KnownCmd(d, x, b);
    LeaderKeeps(c, d, a);
    var deps := d.nodes[x].pre[b].deps;
    assert Covered(c.nodes[x].insts, deps, a);
    var w := CoveredReaches(c, x, deps, a);
    LeaderGraphGrows(c, d);
    ReachMono(LeaderGraph(c), LeaderGraph(d), w, a);
  }

  lemma OneNew(c: Cluster, d: Cluster, x: ReplicaID, a: InstanceID, b: InstanceID)
    requires Base(c) && Base(d) && AllGrown(c, d) && x in c.conf && a != b
    requires a in d.nodes[x].insts && b in d.nodes[x].insts
    ensures a in c.nodes[x].insts || b in c.nodes[x].insts
  {
    assert Grown(c.nodes[x], d.nodes[x]);
  }

  lemma ClashSymmetric(c: Cluster, a: InstanceID, b: InstanceID)
    requires Clash(c, a, b)
    ensures Clash(c, b, a)
  {
    InterferesSymmetric(Leader(c, a).insts[a].cmd.value, Leader(c, b).insts[b].cmd.value);
  }

  lemma KnownKept(c: Cluster, d: Cluster)
    requires GlobalInv(c) && GlobalInv(d) && RowsOk(c) && KnownOk(c) && AllGrown(c, d)
    ensures KnownOk(d)
  {
    assert d.conf == c.conf;
    hide AllGrown, LocalOk, LeaderGraph, InstanceInv, Follows, Clash;
    forall x, a, b ensures KnownPair(d, x, a, b) {
      if x in d.conf && a in d.nodes[x].insts && b in d.nodes[x].insts && a != b && Clash(d, a, b) {
        OneNew(c, d, x, a, b);
        if a !in c.nodes[x].insts {
          ClashSymmetric(d, a, b);
          NewKnown(c, d, x, b, a);
        } else if b !in c.nodes[x].insts {
          NewKnown(c, d, x, a, b);
        } else {
          OldKnown(c, d, x, a, b);
        }
      }
    }
  }

  lemma {:induction false} RunPairs(run: seq<Cluster>, i: nat)
    requires IsRun(run) && i < |run|
    ensures GlobalInv(run[i]) && RowsOk(run[i]) && KnownOk(run[i])
  {
    hide GlobalInv, Next, RowsOk, KnownOk, AllGrown, Base;
    RunInv(run, i);
    if i == 0 {
      StartPairs(run[0]);
    } else {
      RunPairs(run, i - 1);
      NextGrows(run[i - 1], run[i]);
      InvBase(run[i]);
      RowsKept(run[i - 1], run[i]);
      KnownKept(run[i - 1], run[i]);
    }
  }

  lemma StartPairs(c: Cluster)
    requires Init(c)
    ensures Base(c) && RowsOk(c) && KnownOk(c)
  {
  }

  // ----- Quorums -----

  function Members(conf: seq<ReplicaID>): set<ReplicaID> {
    set y | y in conf
  }

  /** Two majorities share a replica. */
  lemma MajoritiesMeet(conf: seq<ReplicaID>, p: set<ReplicaID>, q: set<ReplicaID>) returns (x: ReplicaID)
    requires p <= Members(conf) && q <= Members(conf)
    requires Quorum(conf, |p|) && Quorum(conf, |q|)
    ensures x in p && x in q
  {
    MembersSize(conf);
    CardinalityMono(p + q, Members(conf));
    assert |p + q| == |p| + |q| - |p * q|;
    assert p * q != {};
    x :| x in p * q;
  }

  lemma {:induction false} MembersSize(conf: seq<ReplicaID>)
    ensures |Members(conf)| <= |conf|
  {
    if conf != [] {
      var n := |conf| - 1;
      MembersSize(conf[..n]);
      assert conf == conf[..n] + [conf[n]];
      assert Members(conf) == Members(conf[..n]) + {conf[n]};
    }
  }

  /** The replicas whose first attributes the leader's attributes include. */
  ghost function Quorate(c: Cluster, a: InstanceID): set<ReplicaID> {
    Counted(c, a) + {a.replica}
  }

  lemma QuorateHolds(c: Cluster, a: InstanceID, x: ReplicaID)
    requires GlobalInv(c) && a.replica in c.conf && Led(c, a) && x in Quorate(c, a)
    ensures x in c.conf && a in c.nodes[x].insts && a in c.nodes[x].pre
    ensures c.nodes[x].pre[a].deps <= Leader(c, a).insts[a].deps
  {
    assert InstanceInv(c, a);
    LeaderCopyOf(c, a);
    assert x in Counted(c, a) ==> CountedOk(c, a, x);
  }

  lemma QuorateIsQuorum(c: Cluster, a: InstanceID)
    requires GlobalInv(c) && a.replica in c.conf && Led(c, a)
    requires Rank(Leader(c, a).insts[a].status) >= 2
    ensures Quorum(c.conf, |Quorate(c, a)|) && Quorate(c, a) <= Members(c.conf)
  {
    hide CountedOk, LocalOk, CopiesOk, MsgsOk, SentOnce, AskedFirst, KindsInOrder, NotYetRead;
    assert InstanceInv(c, a);
    LeaderCopyOf(c, a);
    assert |Quorate(c, a)| == |Counted(c, a)| + 1;
    forall x | x in Quorate(c, a) ensures x in c.conf {
      QuorateHolds(c, a, x);
    }
  }

  lemma FollowsReaches(c: Cluster, x: ReplicaID, b: InstanceID, a: InstanceID)
    requires GlobalInv(c) && Led(c, b) && x in Quorate(c, b) && Follows(c, x, b, a)
    ensures Reach(LeaderGraph(c), b, a)
  {
    hide LeaderGraph;
    var w :| w in c.nodes[x].pre[b].deps && Reach(LeaderGraph(c), w, a);
    QuorateHolds(c, b, x);
    LeaderEdge(c, b, w);
    ReachEdge(LeaderGraph(c), b, w);
    ReachTrans(LeaderGraph(c), b, w, a);
  }

  /**
   * Two different interfering instances whose leaders have gone past PreAccept
   * are connected by a path of leader-held dependencies.
   */
  lemma InterferingConnected(c: Cluster, a: InstanceID, b: InstanceID)
    requires Reachable(c) && a != b && Clash(c, a, b)
    requires Rank(Leader(c, a).insts[a].status) >= 2 && Rank(Leader(c, b).insts[b].status) >= 2
    ensures Base(c)
    ensures Reach(LeaderGraph(c), a, b) || Reach(LeaderGraph(c), b, a)
  {
    var run :| IsRun(run) && run[|run| - 1] == c;
    RunPairs(run, |run| - 1);
    hide IsRun, InstanceInv, LocalOk, LeaderGraph, Follows;
    QuorateIsQuorum(c, a);
    QuorateIsQuorum(c, b);
    var x := MajoritiesMeet(c.conf, Quorate(c, a), Quorate(c, b));
    QuorateHolds(c, a, x);
    QuorateHolds(c, b, x);
    assert KnownPair(c, x, a, b);
    if Follows(c, x, a, b) {
      FollowsReaches(c, x, a, b);
    } else {
      FollowsReaches(c, x, b, a);
    }
  }

  lemma {:induction false} RunGraphGrows(run: seq<Cluster>, i: nat, j: nat, a: InstanceID, b: InstanceID)
    requires IsRun(run) && i <= j < |run|
    requires Base(run[i]) && Reach(LeaderGraph(run[i]), a, b)
    ensures Base(run[j]) && Reach(LeaderGraph(run[j]), a, b)
  {
    hide Next, Init, Base, LeaderGraph, AllGrown;
    if i < j {
      RunGraphGrows(run, i, j - 1, a, b);
      RunInv(run, j - 1);
      NextGrows(run[j - 1], run[j]);
      LeaderGraphGrows(run[j - 1], run[j]);
      ReachMono(LeaderGraph(run[j - 1]), LeaderGraph(run[j]), a, b);
    }
  }

  /**
   * The pruned scan is as good as a full one: every known instance that
   * interferes is among the returned dependencies or reached from one of them
   * through the leaders' dependencies, then and ever after.
   */
  lemma PrunedScanReaches(run: seq<Cluster>, i: nat, j: nat, x: ReplicaID, cmd: Command,
                          ignored: InstanceID, a: InstanceID) returns (w: InstanceID)
    requires IsRun(run) && i <= j < |run| && x in run[i].conf && x in run[i].nodes && cmd.span.WellFormed()
    requires Relevant(run[i].nodes[x].insts, cmd, ignored, a)
    ensures Base(run[j])
    ensures w in SeqAndDeps(run[i].nodes[x].insts, run[i].nodes[x].nodes, cmd, ignored).deps
    ensures Reach(LeaderGraph(run[j]), w, a)
  {
    hide IsRun, LeaderGraph, Covered, LocalOk, InstanceInv, SeqAndDeps;
    RunPairs(run, i);
    var n := run[i].nodes[x];
    LocalAt(run[i], x);
    ScanCovers(n, cmd, ignored, a);
    w := CoveredReaches(run[i], x, SeqAndDeps(n.insts, n.nodes, cmd, ignored).deps, a);
    RunGraphGrows(run, i, j, w, a);
  }
}

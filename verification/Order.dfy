/**
 * The order of execution. Every replica executes whole components of the
 * committed dependency graph, and any two replicas execute two interfering
 * commands in the same order, unless the tie-break between them is a tie.
 */
module Order {
  import opened Types
  import opened State
  import opened Graph
  import opened Schedule
  import opened Handlers
  import opened Cluster
  import opened Local
  import opened Runs
  import opened Growth
  import opened Safety
  import opened Interference
  import opened History

  ghost predicate ExecAll(c: Cluster)
    requires Base(c)
  {
    forall x {:trigger c.nodes[x]} :: x in c.conf ==> ExecOk(c.nodes[x]) && Blocked(c.nodes[x])
  }

  lemma WaitsKept(n: Node, m: Node)
    requires LocalOk(n) && Kept(n, m) && m.pending == n.pending
    ensures WaitsSame(n, m)
  {
    forall id | id in n.pending ensures id in n.insts && id in m.insts && m.insts[id].deps == n.insts[id].deps {
      assert id in n.insts && id in n.pre.Keys;
      assert CopyKept(n, m, id);
    }
  }

  /** A step without a run of the executor. */
  lemma QuietExec(n: Node, m: Node)
    requires LocalOk(n) && Kept(n, m) && ExecSame(n, m) && m.pending == n.pending
    requires ExecOk(n) && Blocked(n)
    ensures ExecOk(m) && Blocked(m)
  {
    hide LocalOk, Kept, ExecSame, ExecOk, Blocked, WaitsSame;
    WaitsKept(n, m);
    ExecOkSame(n, m);
    BlockedSame(n, m);
  }

  lemma RunExec(n: Node, blocks: seq<seq<InstanceID>>)
    requires LocalOk(n) && ExecOk(n) && RunOk(n, blocks)
    ensures var m := DeliverBlocks(n, blocks); ExecOk(m) && Blocked(m)
  {
    hide LocalOk, BlocksMatch, Recorded, Blocked, RunOk, DeliverBlocks;
    RunDelivers(n, blocks);
    DeliveryMatches(n, blocks);
    DeliveryRecords(n, blocks);
    DeliveryBlocks(n, blocks);
  }

  lemma {:induction false} TickSame(n: Node, order: seq<InstanceID>)
    requires LocalOk(n) && NoDup(order) && forall id :: id in order ==> id in n.timers
    ensures ExecSame(n, Tick(n, order)) && Tick(n, order).pending == n.pending
  {
    hide LocalOk, TickOne, ExecSame;
    if order == [] {
      ExecSameItself(n);
    } else {
      var l := |order| - 1;
      assert forall id :: id in order[..l] ==> id in order;
      TickSame(n, order[..l]);
      TickOk(n, order[..l]);
      assert order[l] !in order[..l];
      var e := Tick(n, order[..l]);
      TickOneTouches(e, order[l]);
      TickOneSame(e, order[l]);
      ExecSameTrans(n, e, TickOne(e, order[l]));
    }
  }

  lemma OneExec(c: Cluster, d: Cluster, y: ReplicaID)
    requires Base(c) && Base(d) && c.conf == d.conf && y in c.conf && d.nodes == c.nodes[y := d.nodes[y]]
    requires ExecAll(c) && ExecOk(d.nodes[y]) && Blocked(d.nodes[y])
    ensures ExecAll(d)
  {
    hide ExecOk, Blocked;
  }

  lemma RequestExec(c: Cluster, d: Cluster, x: ReplicaID, cmd: Command)
    requires GlobalInv(c) && ExecAll(c) && RequestStep(c, d, x, cmd) && Base(d)
    ensures ExecAll(d)
  {
    hide GlobalInv, LocalOk, Kept, ExecSame, ExecOk, Blocked, OnRequest, FreshCopy;
    InvBase(c);
    var n := c.nodes[x];
    LocalAt(c, x);
    RequestTouches(n, cmd);
    RequestGrows(n, cmd);
    RequestSame(n, cmd);
    QuietExec(n, d.nodes[x]);
    OneExec(c, d, x);
  }

  lemma TickExec(c: Cluster, d: Cluster, x: ReplicaID, order: seq<InstanceID>)
    requires GlobalInv(c) && ExecAll(c) && TickStep(c, d, x, order) && Base(d)
    ensures ExecAll(d)
  {
    hide GlobalInv, LocalOk, Kept, ExecSame, ExecOk, Blocked, Tick;
    InvBase(c);
    assert forall id :: id in order ==> id in Elems(order);
    var n := c.nodes[x];
    LocalAt(c, x);
    TickSettled(n, order);
    TickSame(n, order);
    QuietExec(n, d.nodes[x]);
    OneExec(c, d, x);
  }

  lemma StepExec(n: Node, m: Message, blocks: seq<seq<InstanceID>>)
    requires LocalOk(n) && ExecOk(n) && Blocked(n)
    requires Kept(n, Step(n, m).node) && LocalOk(Step(n, m).node)
    requires Step(n, m).run ==> RunOk(Step(n, m).node, blocks)
    ensures var d := Finish(Step(n, m), blocks); ExecOk(d) && Blocked(d)
  {
    hide LocalOk, Kept, ExecSame, ExecOk, Blocked, Step, RunOk, DeliverBlocks;
    var o := Step(n, m);
    StepSame(n, m);
    if o.run {
      ExecOkSame(n, o.node);
      RunExec(o.node, blocks);
    } else {
      QuietExec(n, o.node);
    }
  }

  lemma DeliverExec(c: Cluster, d: Cluster, x: ReplicaID, y: ReplicaID, k: nat, blocks: seq<seq<InstanceID>>)
    requires GlobalInv(c) && ExecAll(c) && DeliverStep(c, d, x, y, k, blocks) && Base(d)
    ensures ExecAll(d)
  {
    hide GlobalInv, LocalOk, Kept, ExecOk, Blocked, Step, RunOk, Finish, FreshCopy, DeliverStep, AfterRead;
    InvBase(c);
    DeliverForm(c, d, x, y, k, blocks);
    LocalAt(c, y);
    ReadGrows(c, x, y, k);
    AfterReadInv(c, x, y, k);
    AfterReadAt(c, x, y, k);
    LocalAt(AfterRead(c, x, y, k), y);
    assert ExecOk(c.nodes[y]) && Blocked(c.nodes[y]);
    StepExec(c.nodes[y], c.nodes[x].msgs[k], blocks);
    OneExec(c, d, y);
  }

  lemma DeliverForm(c: Cluster, d: Cluster, x: ReplicaID, y: ReplicaID, k: nat, blocks: seq<seq<InstanceID>>)
    requires Base(c) && DeliverStep(c, d, x, y, k, blocks)
    ensures x in c.conf && y in c.conf && NextOnLink(c, x, y, k) && d.conf == c.conf && y in d.nodes
    ensures var o := Step(c.nodes[y], c.nodes[x].msgs[k]);
            d.nodes == c.nodes[y := Finish(o, blocks)] && (o.run ==> RunOk(o.node, blocks))
  {
    hide Step, Finish, RunOk;
  }

  lemma AfterReadAt(c: Cluster, x: ReplicaID, y: ReplicaID, k: nat)
    requires x in c.nodes && y in c.nodes && k < |c.nodes[x].msgs|
    ensures var d := AfterRead(c, x, y, k);
            d.conf == c.conf && y in d.nodes && d.nodes[y] == Step(c.nodes[y], c.nodes[x].msgs[k]).node
  {
    hide Step;
  }

  lemma NextExec(c: Cluster, d: Cluster)
    requires GlobalInv(c) && ExecAll(c) && Next(c, d)
    ensures Base(d) && ExecAll(d)
  {
    hide GlobalInv, RequestStep, DeliverStep, TickStep, ExecAll, Base;
    StepBase(c, d);
    if exists x, cmd :: RequestStep(c, d, x, cmd) {
      var x, cmd :| RequestStep(c, d, x, cmd);
      RequestExec(c, d, x, cmd);
    } else if exists x, y, k, blocks :: DeliverStep(c, d, x, y, k, blocks) {
      var x, y, k, blocks :| DeliverStep(c, d, x, y, k, blocks);
      DeliverExec(c, d, x, y, k, blocks);
    } else {
      var x, order :| TickStep(c, d, x, order);
      TickExec(c, d, x, order);
    }
  }

  lemma InitExec(c: Cluster)
    requires Init(c)
    ensures Base(c) && ExecAll(c)
  {
    forall x | x in c.conf ensures ExecOk(c.nodes[x]) && Blocked(c.nodes[x]) {
      var n := c.nodes[x];
      assert n.blocks == [] && ExecutedIds(n) == {} && Flat(n.blocks) == {};
    }
  }

  lemma {:induction false} RunExecAll(run: seq<Cluster>, i: nat)
    requires IsRun(run) && i < |run|
    ensures Base(run[i]) && ExecAll(run[i])
  {
    hide GlobalInv, Next, Init, ExecAll, Base;
    if i == 0 {
      InitExec(run[0]);
    } else {
      RunExecAll(run, i - 1);
      RunInv(run, i - 1);
      NextExec(run[i - 1], run[i]);
    }
  }

  lemma ExecAt(c: Cluster, x: ReplicaID)
    requires Reachable(c) && x in c.conf
    ensures GlobalInv(c) && Base(c) && ExecOk(c.nodes[x]) && Blocked(c.nodes[x])
  {
    hide GlobalInv, Base, ExecOk, Blocked, Next, Init;
    ReachableInv(c);
    InvBase(c);
    var run :| IsRun(run) && run[|run| - 1] == c;
    RunExecAll(run, |run| - 1);
    assert ExecAll(c);
  }

  lemma BlockedBy(n: Node, a: InstanceID) returns (y: InstanceID)
    requires LocalOk(n) && Blocked(n) && a in n.pending
    ensures Reach(PendingGraph(n), a, y)
    ensures y in n.insts ==> Rank(n.insts[y].status) < 3
  {
    var g := PendingGraph(n);
    assert a in g;
    assert !Ready(g, ExecutedIds(n), a);
    y :| Reach(g, a, y) && y !in g && y !in ExecutedIds(n);
  }

  /**
   * Nothing is held back: whatever still waits depends, directly or not, on an
   * instance this replica has neither executed nor committed.
   */
  lemma WaitingIsBlocked(c: Cluster, x: ReplicaID, a: InstanceID) returns (y: InstanceID)
    requires Reachable(c) && x in c.conf && x in c.nodes && a in c.nodes[x].pending
    ensures Reach(PendingGraph(c.nodes[x]), a, y)
    ensures y in c.nodes[x].insts ==> Rank(c.nodes[x].insts[y].status) < 3
  {
    hide Reachable, GlobalInv, Base, Blocked, ExecOk, LocalOk, PendingGraph;
    ExecAt(c, x);
    LocalAt(c, x);
    y := BlockedBy(c.nodes[x], a);
  }

  // ----- Components of the committed graph -----

  /** The dependencies of everything committed anywhere. */
  ghost function CommittedGraph(c: Cluster): DepGraph
    requires Base(c)
  {
    map a | a in Started(c) && Rank(c.nodes[a.replica].insts[a].status) >= 3 :: c.nodes[a.replica].insts[a].deps
  }

  ghost function CommittedSeqs(c: Cluster): map<InstanceID, SeqNum>
    requires Base(c)
  {
    map a | a in Started(c) && Rank(c.nodes[a.replica].insts[a].status) >= 3 :: c.nodes[a.replica].insts[a].seqNum
  }

  predicate Executes(c: Cluster, x: ReplicaID, a: InstanceID) {
    && x in c.conf && x in c.nodes
    && a in c.nodes[x].insts && c.nodes[x].insts[a].status == Executed
  }

  /** What a replica has executed is committed, with the same attributes everywhere. */
  lemma ExecutedIsCommitted(c: Cluster, x: ReplicaID, a: InstanceID)
    requires GlobalInv(c) && Executes(c, x, a)
    ensures a in CommittedGraph(c) && a in CommittedSeqs(c) && a in ExecutedGraph(c.nodes[x])
    ensures a in ExecutedSeqs(c.nodes[x])
    ensures CommittedGraph(c)[a] == ExecutedGraph(c.nodes[x])[a]
    ensures CommittedSeqs(c)[a] == ExecutedSeqs(c.nodes[x])[a]
  {
    hide InstanceInv, LocalOk;
    LeaderDecides(c, x, a);
    StartedIff(c, a);
  }

  lemma FlatIsExecuted(c: Cluster, x: ReplicaID, a: InstanceID)
    requires Base(c) && x in c.conf && BlocksMatch(c.nodes[x])
    ensures a in Flat(c.nodes[x].blocks) <==> Executes(c, x, a)
  {
    hide Flat, BlocksOk;
    assert a in Flat(c.nodes[x].blocks) <==> a in ExecutedIds(c.nodes[x]);
  }

  /** A replica's blocks, seen in the graph of everything committed. */
  lemma BlocksCommitted(c: Cluster, x: ReplicaID)
    requires GlobalInv(c) && x in c.conf && BlocksMatch(c.nodes[x])
    ensures BlocksOk(CommittedGraph(c), CommittedSeqs(c), {}, c.nodes[x].blocks)
    ensures EdgesBack(CommittedGraph(c), {}, c.nodes[x].blocks)
  {
    hide Flat, BlockOk, LocalOk, CommittedGraph, CommittedSeqs, ExecutedGraph, ExecutedSeqs, InstanceInv;
    var n := c.nodes[x];
    forall a | a in Flat(n.blocks)
      ensures a in CommittedGraph(c) && a in CommittedSeqs(c) && a in ExecutedGraph(n) && a in ExecutedSeqs(n)
      ensures CommittedGraph(c)[a] == ExecutedGraph(n)[a] && CommittedSeqs(c)[a] == ExecutedSeqs(n)[a]
    {
      FlatIsExecuted(c, x, a);
      ExecutedIsCommitted(c, x, a);
    }
    BlocksTransfer(ExecutedGraph(n), ExecutedSeqs(n), CommittedGraph(c), CommittedSeqs(c), {}, n.blocks);
  }

  /**
   * Although a replica sees only what it has committed itself, every component
   * it executes is a whole strongly connected component of the graph of
   * everything committed anywhere, and all it depends on executed before.
   */
  lemma WholeComponents(c: Cluster, x: ReplicaID, k: nat)
    requires Reachable(c) && x in c.conf && x in c.nodes && k < |c.nodes[x].blocks|
    ensures Base(c)
    ensures IsScc(CommittedGraph(c), Elems(c.nodes[x].blocks[k]))
    ensures forall a, b :: a in c.nodes[x].blocks[k] && Edge(CommittedGraph(c), a, b) ==>
              b in Flat(c.nodes[x].blocks[..k]) || b in c.nodes[x].blocks[k]
  {
    hide Reachable, GlobalInv, LocalOk, Base, IsScc, Flat;
    ExecAt(c, x);
    BlocksCommitted(c, x);
    assert BlockOk(CommittedGraph(c), CommittedSeqs(c), {} + Flat(c.nodes[x].blocks[..k]), c.nodes[x].blocks[k]);
  }

  /**
   * Inside every component that a replica has executed, sequence numbers never
   * fall, and between equal ones the leaders' numbers never fall.
   */
  lemma BlockAscends(c: Cluster, x: ReplicaID, k: nat, i: nat, j: nat)
    requires Reachable(c) && x in c.conf && x in c.nodes && k < |c.nodes[x].blocks| && i < j < |c.nodes[x].blocks[k]|
    ensures var n, a, b := c.nodes[x], c.nodes[x].blocks[k][i], c.nodes[x].blocks[k][j];
            && a in n.insts && b in n.insts && n.insts[a].status == Executed && n.insts[b].status == Executed
            && n.insts[a].seqNum <= n.insts[b].seqNum
            && (n.insts[a].seqNum == n.insts[b].seqNum ==> a.replica <= b.replica)
  {
    hide Reachable, GlobalInv, LocalOk, Base, Flat, BlocksOk;
    ExecAt(c, x);
    var n := c.nodes[x];
    BlocksAscend(ExecutedGraph(n), ExecutedSeqs(n), {}, n.blocks);
  }

  /** Every command is delivered once, in the order of the blocks. */
  lemma DeliveredOnce(c: Cluster, x: ReplicaID)
    requires Reachable(c) && x in c.conf && x in c.nodes
    ensures NoDup(Concat(c.nodes[x].blocks))
    ensures Elems(Concat(c.nodes[x].blocks)) == ExecutedIds(c.nodes[x])
    ensures Recorded(c.nodes[x].insts, Concat(c.nodes[x].blocks), c.nodes[x].executed)
  {
    hide Reachable, GlobalInv, LocalOk, Base, Concat, Recorded, Flat, NoDup;
    ExecAt(c, x);
    var n := c.nodes[x];
    ConcatNoDup(ExecutedGraph(n), ExecutedSeqs(n), {}, n.blocks);
    ConcatElems(n.blocks);
  }

  // ----- The same order everywhere -----

  /** The order in which x executed a and b. */
  ghost predicate ExecutedFirst(c: Cluster, x: ReplicaID, a: InstanceID, b: InstanceID)
    requires x in c.nodes
  {
    Precedes(Concat(c.nodes[x].blocks), a, b)
  }

  /** Neither sequence number nor replica tells a and b of one component apart. */
  ghost predicate Tied(c: Cluster, a: InstanceID, b: InstanceID)
    requires Base(c)
  {
    && MutualReach(CommittedGraph(c), a, b)
    && a in CommittedSeqs(c) && b in CommittedSeqs(c)
    && CommittedSeqs(c)[a] == CommittedSeqs(c)[b]
    && a.replica == b.replica
  }

  /** The committed graph puts a before b. */
  ghost predicate Must(g: DepGraph, seqs: map<InstanceID, SeqNum>, a: InstanceID, b: InstanceID) {
    && a in seqs && b in seqs
    && Reach(g, b, a)
    && (Reach(g, a, b) ==> ExecutesBefore(seqs, a, b))
  }

  lemma InBlock(bs: seq<seq<InstanceID>>, a: InstanceID) returns (p: nat)
    requires a in Flat(bs)
    ensures p < |bs| && a in bs[p]
  {
    var b :| b in bs && a in b;
    p :| p < |bs| && bs[p] == b;
  }

  /** What had executed before has no edges left in the graph. */
  ghost predicate Scheduling(g: DepGraph, seqs: map<InstanceID, SeqNum>, executed: set<InstanceID>,
                             bs: seq<seq<InstanceID>>)
  {
    BlocksOk(g, seqs, executed, bs) && EdgesBack(g, executed, bs) && Closed(g, executed)
  }

  lemma MustPrecede(g: DepGraph, seqs: map<InstanceID, SeqNum>, executed: set<InstanceID>,
                    bs: seq<seq<InstanceID>>, a: InstanceID, b: InstanceID)
    requires Scheduling(g, seqs, executed, bs)
    requires a in Flat(bs) && b in Flat(bs) && a != b && Must(g, seqs, a, b)
    ensures Precedes(Concat(bs), a, b)
  {
    hide Precedes, Concat, Reach, IsScc;
    var p := InBlock(bs, a);
    var q := InBlock(bs, b);
    assert BlockOk(g, seqs, executed + Flat(bs[..p]), bs[p]) && BlockOk(g, seqs, executed + Flat(bs[..q]), bs[q]);
    NotLater(g, seqs, executed, bs, a, b, p, q);
    if p == q {
      SccMembers(g, Elems(bs[p]), a, b);
      var i :| 0 <= i < |bs[p]| && bs[p][i] == a;
      var j :| 0 <= j < |bs[p]| && bs[p][j] == b;
      SameBlock(bs, p, i, j);
    } else {
      EarlierBlock(bs, p, q, a, b);
    }
  }

  lemma SccMembers(g: DepGraph, s: set<InstanceID>, a: InstanceID, b: InstanceID)
    requires IsScc(g, s) && a in s && b in s
    ensures Reach(g, a, b) && Reach(g, b, a)
  {
  }

  /** What b reaches is not in a later block than b. */
  lemma NotLater(g: DepGraph, seqs: map<InstanceID, SeqNum>, executed: set<InstanceID>,
                 bs: seq<seq<InstanceID>>, a: InstanceID, b: InstanceID, p: nat, q: nat)
    requires EdgesBack(g, executed, bs) && Closed(g, executed) && Reach(g, b, a)
    requires p < |bs| && q < |bs| && a in bs[p] && b in bs[q]
    requires BlockOk(g, seqs, executed + Flat(bs[..p]), bs[p])
    ensures p <= q
  {
    hide Reach, Flat;
    PrefixClosed(g, executed, bs, q + 1);
    FlatPrefix(bs, q);
    var upto := executed + Flat(bs[..q + 1]);
    assert a in Elems(bs[p]);
    ReachClosed(g, (iset y | y in upto), b, a);
    if q < p && a in Flat(bs[..q + 1]) {
      PrefixInside(bs, q + 1, p, a);
    }
  }

  lemma PrefixInside(bs: seq<seq<InstanceID>>, k: nat, p: nat, a: InstanceID)
    requires k <= p <= |bs| && a in Flat(bs[..k])
    ensures a in Flat(bs[..p])
  {
    assert bs[..p][..k] == bs[..k];
    var b :| b in bs[..k] && a in b;
    assert b in bs[..p];
  }

  /** Between executed instances, paths in the leaders' graph are committed. */
  lemma CommittedReach(c: Cluster, x: ReplicaID, b: InstanceID, a: InstanceID)
    requires GlobalInv(c) && Executes(c, x, b) && BlocksMatch(c.nodes[x])
    requires Reach(LeaderGraph(c), b, a)
    ensures Reach(CommittedGraph(c), b, a)
  {
    hide InstanceInv, LocalOk, BlockOk;
    var n := c.nodes[x];
    BlocksCommitted(c, x);
    ClosedBefore(CommittedGraph(c), CommittedSeqs(c), n.blocks);
    FlatIsExecuted(c, x, b);
    var p :| IsPath(LeaderGraph(c), p) && p[0] == b && p[|p| - 1] == a;
    PathCommitted(c, x, p, |p| - 1);
    assert IsPath(CommittedGraph(c), p);
  }

  lemma {:induction false} PathCommitted(c: Cluster, x: ReplicaID, p: seq<InstanceID>, i: nat)
    requires GlobalInv(c) && x in c.conf && BlocksMatch(c.nodes[x])
    requires Closed(CommittedGraph(c), Flat(c.nodes[x].blocks))
    requires IsPath(LeaderGraph(c), p) && p[0] in Flat(c.nodes[x].blocks) && i < |p|
    ensures p[i] in Flat(c.nodes[x].blocks)
    ensures forall j :: 0 <= j < i ==> Edge(CommittedGraph(c), p[j], p[j + 1])
  {
    hide Flat, InstanceInv, LocalOk, BlockOk, ExecutedGraph, ExecutedSeqs;
    if i > 0 {
      PathCommitted(c, x, p, i - 1);
      assert Edge(LeaderGraph(c), p[i - 1], p[i]);
      FlatIsExecuted(c, x, p[i - 1]);
      ExecutedIsCommitted(c, x, p[i - 1]);
      assert Edge(CommittedGraph(c), p[i - 1], p[i]);
    }
  }

  /** Of two interfering instances that x has executed, the committed graph puts one first. */
  lemma OneMustPrecede(c: Cluster, x: ReplicaID, a: InstanceID, b: InstanceID)
    requires Reachable(c) && a != b && Clash(c, a, b) && Executes(c, x, a) && Executes(c, x, b)
    requires Base(c) && !Tied(c, a, b)
    ensures var g, seqs := CommittedGraph(c), CommittedSeqs(c); Must(g, seqs, a, b) || Must(g, seqs, b, a)
  {
    hide Reachable, InstanceInv, LocalOk, Reach, LeaderGraph, ExecutedGraph, ExecutedSeqs;
    ExecAt(c, x);
    LeaderDecides(c, x, a);
    LeaderDecides(c, x, b);
    InterferingConnected(c, a, b);
    ExecutedIsCommitted(c, x, a);
    ExecutedIsCommitted(c, x, b);
    if Reach(LeaderGraph(c), a, b) {
      CommittedReach(c, x, a, b);
    } else {
      CommittedReach(c, x, b, a);
    }
  }

  lemma MustAt(c: Cluster, x: ReplicaID, a: InstanceID, b: InstanceID)
    requires Reachable(c) && a != b && Executes(c, x, a) && Executes(c, x, b) && Base(c)
    requires Must(CommittedGraph(c), CommittedSeqs(c), a, b)
    ensures ExecutedFirst(c, x, a, b) && !ExecutedFirst(c, x, b, a)
  {
    hide Reachable, InstanceInv, LocalOk, Must, Precedes, BlockOk, EdgesBack, Concat, Flat;
    ExecAt(c, x);
    BlocksCommitted(c, x);
    FlatIsExecuted(c, x, a);
    FlatIsExecuted(c, x, b);
    var bs := c.nodes[x].blocks;
    MustPrecede(CommittedGraph(c), CommittedSeqs(c), {}, bs, a, b);
    ConcatNoDup(CommittedGraph(c), CommittedSeqs(c), {}, bs);
    PrecedesOneWay(Concat(bs), a, b);
  }

  /**
   * Any two replicas that have both executed two interfering commands executed
   * them in the same order, unless the tie-break cannot tell them apart.
   */
  lemma SameOrder(c: Cluster, x: ReplicaID, y: ReplicaID, a: InstanceID, b: InstanceID)
    requires Reachable(c) && a != b && Clash(c, a, b)
    requires Executes(c, x, a) && Executes(c, x, b) && Executes(c, y, a) && Executes(c, y, b)
    requires Base(c) && !Tied(c, a, b)
    ensures ExecutedFirst(c, x, a, b) <==> ExecutedFirst(c, y, a, b)
    ensures ExecutedFirst(c, x, a, b) <==> !ExecutedFirst(c, x, b, a)
  {
    hide Reachable, Base, Must, Tied, ExecutedFirst, CommittedGraph, CommittedSeqs, Clash;
    OneMustPrecede(c, x, a, b);
    if Must(CommittedGraph(c), CommittedSeqs(c), a, b) {
      MustAt(c, x, a, b);
      MustAt(c, y, a, b);
    } else {
      MustAt(c, x, b, a);
      MustAt(c, y, b, a);
    }
  }

  // ----- Over whole runs -----

  /** What was executed stays executed, in the same place. */
  predicate LogGrows(n: Node, m: Node) {
    n.blocks <= m.blocks && n.executed <= m.executed
  }

  lemma StepLog(n: Node, m: Message, blocks: seq<seq<InstanceID>>)
    ensures LogGrows(n, Finish(Step(n, m), blocks))
  {
    hide Step, Concat, ExecutedIds;
    StepSame(n, m);
  }

  ghost predicate LogsGrow(c: Cluster, d: Cluster)
    requires Base(c) && Base(d)
  {
    c.conf == d.conf && forall z {:trigger c.nodes[z]} :: z in c.conf ==> LogGrows(c.nodes[z], d.nodes[z])
  }

  lemma OneLog(c: Cluster, d: Cluster, y: ReplicaID)
    requires Base(c) && Base(d) && c.conf == d.conf && y in c.conf && d.nodes == c.nodes[y := d.nodes[y]]
    requires LogGrows(c.nodes[y], d.nodes[y])
    ensures LogsGrow(c, d)
  {
  }

  lemma RequestLogs(c: Cluster, d: Cluster, x: ReplicaID, cmd: Command)
    requires Base(c) && Base(d) && RequestStep(c, d, x, cmd)
    ensures LogsGrow(c, d)
  {
    hide OnRequest;
    RequestSame(c.nodes[x], cmd);
    OneLog(c, d, x);
  }

  lemma DeliverLogs(c: Cluster, d: Cluster, x: ReplicaID, y: ReplicaID, k: nat, blocks: seq<seq<InstanceID>>)
    requires Base(c) && Base(d) && DeliverStep(c, d, x, y, k, blocks)
    ensures LogsGrow(c, d)
  {
    hide Step, Finish, RunOk;
    StepLog(c.nodes[y], c.nodes[x].msgs[k], blocks);
    OneLog(c, d, y);
  }

  lemma TickLogs(c: Cluster, d: Cluster, x: ReplicaID, order: seq<InstanceID>)
    requires GlobalInv(c) && Base(d) && TickStep(c, d, x, order)
    ensures LogsGrow(c, d)
  {
    hide GlobalInv, LocalOk, Tick;
    InvBase(c);
    assert forall id :: id in order ==> id in Elems(order);
    LocalAt(c, x);
    TickSame(c.nodes[x], order);
    OneLog(c, d, x);
  }

  lemma NextLog(c: Cluster, d: Cluster)
    requires GlobalInv(c) && Next(c, d)
    ensures Base(c) && Base(d) && LogsGrow(c, d)
  {
    hide GlobalInv, RequestStep, DeliverStep, TickStep, LogsGrow, Base;
    StepBase(c, d);
    if exists x, cmd :: RequestStep(c, d, x, cmd) {
      var x, cmd :| RequestStep(c, d, x, cmd);
      RequestLogs(c, d, x, cmd);
    } else if exists x, y, k, blocks :: DeliverStep(c, d, x, y, k, blocks) {
      var x, y, k, blocks :| DeliverStep(c, d, x, y, k, blocks);
      DeliverLogs(c, d, x, y, k, blocks);
    } else {
      var x, order :| TickStep(c, d, x, order);
      TickLogs(c, d, x, order);
    }
  }

  lemma NamesNode(c: Cluster, x: ReplicaID)
    requires Base(c) && x in c.conf
    ensures x in c.nodes
  {
  }

  lemma {:induction false} RunLog(run: seq<Cluster>, i: nat, j: nat, x: ReplicaID)
    requires IsRun(run) && i <= j < |run| && x in run[i].conf && x in run[i].nodes
    ensures x in run[j].conf && x in run[j].nodes && LogGrows(run[i].nodes[x], run[j].nodes[x])
  {
    hide Next, Init, Base, GlobalInv;
    if i < j {
      RunLog(run, i, j - 1, x);
      RunInv(run, j - 1);
      NextLog(run[j - 1], run[j]);
      NamesNode(run[j - 1], x);
      NamesNode(run[j], x);
    }
  }

  lemma RunReaches(run: seq<Cluster>, j: nat)
    requires IsRun(run) && j < |run|
    ensures Reachable(run[j])
  {
    hide Next, Init;
    assert IsRun(run[..j + 1]);
  }

  /** a and b stand in this order from the moment both have executed. */
  lemma FirstForever(run: seq<Cluster>, i: nat, j: nat, x: ReplicaID, a: InstanceID, b: InstanceID)
    requires IsRun(run) && i <= j < |run| && a != b && Executes(run[i], x, a) && Executes(run[i], x, b)
    ensures Executes(run[j], x, a) && Executes(run[j], x, b)
    ensures ExecutedFirst(run[i], x, a, b) ==> ExecutedFirst(run[j], x, a, b)
    ensures ExecutedFirst(run[i], x, a, b) || ExecutedFirst(run[i], x, b, a)
  {
    hide IsRun, GlobalInv, Base, LocalOk, Concat, BlocksOk, Flat, Recorded, Precedes, Elems;
    RunReaches(run, i);
    RunReaches(run, j);
    RunLog(run, i, j, x);
    ExecAt(run[i], x);
    ExecAt(run[j], x);
    var n, m := run[i].nodes[x], run[j].nodes[x];
    assert n.blocks == m.blocks[..|n.blocks|];
    assert m.blocks == m.blocks[..|m.blocks|];
    ConcatPrefix(m.blocks, |n.blocks|, |m.blocks|);
    ConcatElems(n.blocks);
    ConcatElems(m.blocks);
    assert Elems(Concat(n.blocks)) == ExecutedIds(n) && Elems(Concat(m.blocks)) == ExecutedIds(m);
    assert a in ExecutedIds(n) && b in ExecutedIds(n);
    StillFirst(Concat(n.blocks), Concat(m.blocks), a, b);
    assert a in ExecutedIds(m) && b in ExecutedIds(m);
  }

  /** What stands in a log stands there, in this order, in a longer one. */
  lemma StillFirst(s: seq<InstanceID>, t: seq<InstanceID>, a: InstanceID, b: InstanceID)
    requires s <= t && a in Elems(s) && b in Elems(s) && a != b
    ensures a in Elems(t) && b in Elems(t)
    ensures Precedes(s, a, b) ==> Precedes(t, a, b)
    ensures Precedes(s, a, b) || Precedes(s, b, a)
  {
    var p :| 0 <= p < |s| && s[p] == a;
    var q :| 0 <= q < |s| && s[q] == b;
    assert t[p] == a && t[q] == b;
    if Precedes(s, a, b) {
      var i, j :| 0 <= i < j < |s| && s[i] == a && s[j] == b;
      assert t[i] == a && t[j] == b;
    }
  }

  /**
   * The same at any two moments of a run: the order in which a replica has
   * executed two interfering commands is the order in which any other will.
   */
  lemma SameOrderForever(run: seq<Cluster>, i: nat, j: nat, x: ReplicaID, y: ReplicaID, a: InstanceID, b: InstanceID)
    requires IsRun(run) && i <= j < |run| && a != b && Clash(run[j], a, b)
    requires Executes(run[i], x, a) && Executes(run[i], x, b) && Executes(run[j], y, a) && Executes(run[j], y, b)
    requires Base(run[j]) && !Tied(run[j], a, b)
    ensures ExecutedFirst(run[i], x, a, b) <==> ExecutedFirst(run[j], y, a, b)
  {
    hide IsRun, Reachable, Base, Must, Tied, ExecutedFirst, CommittedGraph, CommittedSeqs, Clash, Executes;
    RunReaches(run, j);
    FirstForever(run, i, j, x, a, b);
    FirstForever(run, i, j, x, b, a);
    SameOrder(run[j], x, y, a, b);
  }
}

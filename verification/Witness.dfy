/**
 * Ties happen. Three replicas, three commands on one key and no failure: two
 * writes of one leader end up in one component with equal sequence numbers, and
 * two replicas execute them in opposite orders, so that their stores differ.
 */
module Witness {
  import opened Types
  import opened State
  import opened Graph
  import opened Schedule
  import opened Scan
  import opened Handlers
  import opened Cluster
  import opened Steps
  import opened Local
  import opened Runs
  import opened Growth
  import opened Order
  import opened History
  import Interference
  import Store

  const CONF: seq<ReplicaID> := [0, 1, 2]

  const I := InstanceID(0, 1)
  const J := InstanceID(0, 2)
  const K := InstanceID(1, 1)

  /** Two writes by replica 0 and a read by replica 1. */
  function Cmd(a: InstanceID): Command {
    if a == I then Store.Wrap(1, KvCommand(PUT, 0, 1))
    else if a == J then Store.Wrap(2, KvCommand(PUT, 0, 2))
    else Store.Wrap(3, KvCommand(GET, 0, 0))
  }

  /** What the leaders first computed, and what was committed in the end. */
  function First(a: InstanceID): Attrs {
    if a == J then Attrs(2, {I}) else Attrs(1, {})
  }

  function Final(a: InstanceID): Attrs {
    if a == I then Attrs(2, {K}) else if a == J then Attrs(2, {I}) else Attrs(3, {J})
  }

  function PA(a: InstanceID, to: ReplicaID): Message {
    Message(to, a, PreAcceptMsg(Cmd(a), First(a)))
  }

  function Acc(a: InstanceID, to: ReplicaID): Message {
    Message(to, a, AcceptMsg(Final(a)))
  }

  function Com(a: InstanceID, to: ReplicaID): Message {
    Message(to, a, CommitMsg(Cmd(a), Final(a)))
  }

  function Rep(a: InstanceID): Message {
    Message(a.replica, a, PreAcceptReply(Final(a)))
  }

  function Ok(a: InstanceID): Message {
    Message(a.replica, a, PreAcceptOK)
  }

  function Ack(a: InstanceID): Message {
    Message(a.replica, a, AcceptOK)
  }

  /** All that a replica sends in this run, in order. */
  function Script(x: ReplicaID): seq<Message> {
    if x == 0 then
      [PA(I, 1), PA(I, 2), PA(J, 1), PA(J, 2), Rep(K), Acc(I, 1), Acc(I, 2),
       Com(J, 1), Com(J, 2), Com(I, 1), Com(I, 2), Ack(K)]
    else if x == 1 then
      [PA(K, 0), PA(K, 2), Rep(I), Acc(K, 0), Acc(K, 2), Com(K, 0), Com(K, 2)]
    else
      [Ok(I), Ok(J), Rep(K), Ack(I), Ack(K)]
  }

  /** A copy of a, with the leader's counters. */
  function Copy(a: InstanceID, status: Status, attrs: Attrs, replies: nat, different: bool, acks: nat): Instance {
    Instance(status, Some(Cmd(a)), attrs.seqNum, attrs.deps, replies, different, acks, Timer(0, true))
  }

  /** A copy at a replica that does not lead a, or before any reply. */
  function Plain(a: InstanceID, status: Status, attrs: Attrs): Instance {
    Copy(a, status, attrs, 0, false, 0)
  }

  /** A replica's instances, how much of its script it has sent, and what it has executed. */
  datatype Side = Side(insts: Instances, sent: nat, blocks: seq<seq<InstanceID>>)

  /** The three replicas, and how far each has read each other: read[x][y] is how far y has read x. */
  datatype World = World(sides: seq<Side>, read: seq<seq<int>>)
  {
    predicate Shaped() {
      |sides| == 3 && |read| == 3 && |read[0]| == 3 && |read[1]| == 3 && |read[2]| == 3
    }
  }

  predicate Has(c: Cluster, x: ReplicaID, s: Side)
    requires x in c.nodes
  {
    && c.nodes[x].insts == s.insts && s.sent <= |Script(x)| && c.nodes[x].msgs == Script(x)[..s.sent]
    && c.nodes[x].blocks == s.blocks
  }

  ghost predicate SidesOk(c: Cluster, w: World) {
    w.Shaped() && forall x :: 0 <= x < 3 ==> x in c.nodes && Has(c, x, w.sides[x])
  }

  ghost predicate ReadsOk(c: Cluster, w: World) {
    w.Shaped() && forall x, y :: 0 <= x < 3 && 0 <= y < 3 ==> Pos(c, x, y) == w.read[x][y]
  }

  /** A reachable state of the run. */
  ghost predicate Looks(c: Cluster, w: World) {
    Reachable(c) && Base(c) && c.conf == CONF && SidesOk(c, w) && ReadsOk(c, w)
  }

  lemma Extend(c: Cluster, d: Cluster)
    requires Reachable(c) && Base(c) && Next(c, d)
    ensures Reachable(d)
  {
    hide Next, Init, Base;
    var run :| IsRun(run) && run[|run| - 1] == c;
    var more := run + [d];
    forall i | 0 <= i < |more| - 1 ensures Base(more[i]) && Next(more[i], more[i + 1]) {
      if i < |run| - 1 {
        assert Base(run[i]) && Next(run[i], run[i + 1]);
      } else {
        assert more[i] == c && more[i + 1] == d;
      }
    }
    assert IsRun(more) && more[|more| - 1] == d;
  }

  /** One message read; d is the state after. */
  ghost function After(c: Cluster, x: ReplicaID, y: ReplicaID, k: nat, bs: seq<seq<InstanceID>>): Cluster
    requires x in c.nodes && y in c.nodes && k < |c.nodes[x].msgs|
  {
    Put(Read(c, x, y, k), y, Finish(Step(c.nodes[y], c.nodes[x].msgs[k]), bs))
  }

  lemma Receive(c: Cluster, x: ReplicaID, y: ReplicaID, k: nat, bs: seq<seq<InstanceID>>)
    requires Reachable(c) && Base(c) && x in c.conf && y in c.conf && NextOnLink(c, x, y, k)
    requires var o := Step(c.nodes[y], c.nodes[x].msgs[k]); o.run ==> RunOk(o.node, bs)
    ensures var d := After(c, x, y, k, bs);
            && Reachable(d) && Base(d) && d.conf == c.conf
            && d.nodes == c.nodes[y := Finish(Step(c.nodes[y], c.nodes[x].msgs[k]), bs)]
            && ReadsOne(c, d, x, y, k)
  {
    hide Step, Finish, RunOk, Reachable;
    var d := After(c, x, y, k, bs);
    assert DeliverStep(c, d, x, y, k, bs);
    Extend(c, d);
    ReachableInv(d);
    InvBase(d);
    ReadEffect(c, x, y, k, d.nodes[y]);
  }

  // ----- The scans of the run -----

  /** Slots m to n of the row are empty or ignored. */
  lemma {:induction false} RowSkips(insts: Instances, r: ReplicaID, m: nat, n: nat, cmd: Command,
                                    ignored: InstanceID, group: set<Key>)
    requires m <= n
    requires forall k: nat :: m <= k < n ==> InstanceID(r, k) !in insts || InstanceID(r, k) == ignored
    ensures ScanRow(insts, r, n, cmd, ignored, group) == ScanRow(insts, r, m, cmd, ignored, group)
  {
    if m < n {
      assert InstanceID(r, n - 1) !in insts || InstanceID(r, n - 1) == ignored;
      RowSkips(insts, r, m, n - 1, cmd, ignored, group);
    }
  }

  /** The row as far as it is scanned. */
  function Row(insts: Instances, r: ReplicaID, n: nat, cmd: Command, ignored: InstanceID): Found {
    ScanRow(insts, r, n, cmd, ignored, {})
  }

  /** The slots that matter in row r end below b. */
  ghost predicate Ends(insts: Instances, ignored: InstanceID, r: ReplicaID, b: nat) {
    && (forall id :: id in insts && id != ignored && id.replica == r ==> id.num < b)
    && (b == 0 || InstanceID(r, b - 1) in insts)
  }

  lemma ThreeRows(insts: Instances, cmd: Command, ignored: InstanceID, b0: nat, b1: nat, b2: nat)
    requires Ends(insts, ignored, 0, b0) && Ends(insts, ignored, 1, b1) && Ends(insts, ignored, 2, b2)
    ensures SeqAndDeps(insts, CONF, cmd, ignored) ==
            Merge(Merge(Merge(Found(true, 0, {}), Row(insts, 0, b0, cmd, ignored)),
                        Row(insts, 1, b1, cmd, ignored)), Row(insts, 2, b2, cmd, ignored))
  {
    hide Ends, ScanRow, SeqAndDeps, Merge;
    BelowMax(insts, cmd, ignored, 0, b0);
    BelowMax(insts, cmd, ignored, 1, b1);
    BelowMax(insts, cmd, ignored, 2, b2);
    NoRows(insts, cmd, ignored);
    OneMoreRow(insts, CONF, cmd, ignored, 0);
    OneMoreRow(insts, CONF, cmd, ignored, 1);
    OneMoreRow(insts, CONF, cmd, ignored, 2);
    assert CONF[..0] == [] && CONF[..3] == CONF;
  }

  lemma BelowMax(insts: Instances, cmd: Command, ignored: InstanceID, r: ReplicaID, b: nat)
    requires Ends(insts, ignored, r, b)
    ensures ScanRow(insts, r, MaxNum(insts, r) + 1, cmd, ignored, {}) == Row(insts, r, b, cmd, ignored)
  {
    RowSkips(insts, r, b, MaxNum(insts, r) + 1, cmd, ignored, {});
  }

  lemma KeyZero(a: InstanceID)
    ensures Cmd(a).span.Keys() == {0}
  {
    assert Cmd(a).span.Contains(0);
  }

  /** A write closes the scan of its row. */
  lemma RowWrite(insts: Instances, r: ReplicaID, n: nat, a: InstanceID, w: InstanceID)
    requires n > 0 && w == InstanceID(r, n - 1) && w != a && (w == I || w == J)
    requires w in insts && insts[w].cmd == Some(Cmd(w))
    ensures Row(insts, r, n, Cmd(a), a) == Found(true, insts[w].seqNum, {w})
    ensures Row(insts, r, n, Cmd(a), InstanceID(0, 0)) == Found(true, insts[w].seqNum, {w})
  {
    KeyZero(a);
    KeyZero(w);
    assert {} + {0} == {0} && Single({0});
  }

  /** Nothing to depend on. */
  lemma ScanNone(insts: Instances, a: InstanceID, ignored: InstanceID)
    requires forall id :: id in insts ==> id == ignored
    ensures SeqAndDeps(insts, CONF, Cmd(a), ignored) == Found(true, 0, {})
  {
    ThreeRows(insts, Cmd(a), ignored, 0, 0, 0);
  }

  /** I is all there is to depend on. */
  lemma ScanAfterI(insts: Instances, ignored: InstanceID)
    requires forall id :: id in insts ==> id == I || id == ignored
    requires I in insts && I != ignored && insts[I].cmd == Some(Cmd(I))
    requires ignored == J || ignored == InstanceID(0, 0)
    ensures SeqAndDeps(insts, CONF, Cmd(J), ignored) == Found(true, insts[I].seqNum, {I})
  {
    ThreeRows(insts, Cmd(J), ignored, 2, 0, 0);
    RowWrite(insts, 0, 2, J, I);
  }

  /** J hides I from K. */
  lemma ScanAfterJ(insts: Instances)
    requires forall id :: id in insts ==> id == I || id == J || id == K
    requires J in insts && insts[J].cmd == Some(Cmd(J))
    ensures SeqAndDeps(insts, CONF, Cmd(K), K) == Found(true, insts[J].seqNum, {J})
  {
    ThreeRows(insts, Cmd(K), K, 3, 0, 0);
    RowWrite(insts, 0, 3, K, J);
  }

  /** The read K is all there is for I to depend on. */
  lemma ScanAfterK(insts: Instances)
    requires forall id :: id in insts ==> id == I || id == K
    requires K in insts && insts[K].cmd == Some(Cmd(K))
    ensures SeqAndDeps(insts, CONF, Cmd(I), I) == Found(true, insts[K].seqNum, {K})
  {
    ThreeRows(insts, Cmd(I), I, 0, 2, 0);
    assert Row(insts, 1, 1, Cmd(I), I) == Found(true, 0, {});
    assert !RangesOverlap({}, Cmd(K).span.Keys());
    assert {} + {K} == {K};
  }

  // ----- One step of the run -----

  /** Message k of x is the next that y has to read. */
  predicate Due(w: World, x: nat, y: nat, k: nat) {
    && w.Shaped() && x < 3 && y < 3 && x != y
    && 0 <= w.read[x][y] <= k < w.sides[x].sent <= |Script(x)|
    && Script(x)[k].to == y
    && forall j :: w.read[x][y] <= j < k ==> Script(x)[j].to != y
  }

  function Moved(w: World, x: nat, y: nat, k: nat, side: Side): World
    requires w.Shaped() && x < 3 && y < 3
  {
    World(w.sides[y := side], w.read[x := w.read[x][y := k + 1]])
  }

  lemma DueOnLink(c: Cluster, w: World, x: nat, y: nat, k: nat)
    requires c.conf == CONF && SidesOk(c, w) && ReadsOk(c, w) && Due(w, x, y, k)
    ensures x in c.conf && y in c.conf && x in c.nodes && y in c.nodes
    ensures NextOnLink(c, x, y, k) && c.nodes[x].msgs[k] == Script(x)[k]
  {
    hide Script;
    assert Has(c, x, w.sides[x]) && Has(c, y, w.sides[y]);
    assert CONF[x] == x && CONF[y] == y;
    forall j | Pos(c, x, y) <= j < k ensures c.nodes[x].msgs[j].to != y {
      assert c.nodes[x].msgs[j] == Script(x)[j];
    }
  }

  lemma DueNext(c: Cluster, w: World, x: nat, y: nat, k: nat)
    requires Looks(c, w) && Due(w, x, y, k)
    ensures x in c.conf && y in c.conf && x in c.nodes && y in c.nodes
    ensures NextOnLink(c, x, y, k) && c.nodes[x].msgs[k] == Script(x)[k]
    ensures GlobalInv(c) && LocalOk(c.nodes[y]) && ValidMessage(c.nodes[y], Script(x)[k])
    ensures Script(x)[k].inst.num >= 1
  {
    hide Reachable, InstanceInv, LocalOk, Script, SidesOk, ReadsOk, PosOk, LocalsOk, InstancesOk, MsgOk, Is;
    DueOnLink(c, w, x, y, k);
    ReachableInv(c);
    NextMessage(c, x, y, k);
    LocalAt(c, y);
  }

  /** The state after the step is the run's next one. */
  lemma Stepped(c: Cluster, w: World, x: nat, y: nat, k: nat, bs: seq<seq<InstanceID>>, side: Side)
    requires Looks(c, w) && Due(w, x, y, k)
    requires x in c.nodes && y in c.nodes && NextOnLink(c, x, y, k)
    requires var o := Step(c.nodes[y], c.nodes[x].msgs[k]);
             && (o.run ==> RunOk(o.node, bs))
             && Finish(o, bs).insts == side.insts
             && side.sent <= |Script(y)| && Finish(o, bs).msgs == Script(y)[..side.sent]
             && Finish(o, bs).blocks == side.blocks
    ensures Looks(After(c, x, y, k, bs), Moved(w, x, y, k, side))
  {
    hide Step, Finish, RunOk, Reachable, Script, NextOnLink, After, Base;
    assert CONF[x] == x && CONF[y] == y;
    Receive(c, x, y, k, bs);
    var d := After(c, x, y, k, bs);
    SidesMoved(c, d, w, x, y, k, side);
    ReadsMoved(c, d, w, x, y, k, side);
  }

  lemma SidesMoved(c: Cluster, d: Cluster, w: World, x: nat, y: nat, k: nat, side: Side)
    requires w.Shaped() && x < 3 && y < 3 && y in d.nodes
    requires SidesOk(c, w) && d.nodes == c.nodes[y := d.nodes[y]] && Has(d, y, side)
    ensures SidesOk(d, Moved(w, x, y, k, side))
  {
    hide Script;
  }

  lemma ReadsMoved(c: Cluster, d: Cluster, w: World, x: nat, y: nat, k: nat, side: Side)
    requires w.Shaped() && x < 3 && y < 3 && ReadsOne(c, d, x, y, k)
    requires ReadsOk(c, w)
    ensures ReadsOk(d, Moved(w, x, y, k, side))
  {
    forall u, v | 0 <= u < 3 && 0 <= v < 3 ensures Pos(d, u, v) == Moved(w, x, y, k, side).read[u][v] {
      assert (u, v) != (x, y) ==> Pos(d, u, v) == Pos(c, u, v);
    }
  }

  lemma SentOne(y: nat, sent: nat, m: Message)
    requires sent < |Script(y)| && m == Script(y)[sent]
    ensures Script(y)[..sent] + [m] == Script(y)[..sent + 1]
  {
  }

  function Computed(a: InstanceID, found: Found): Attrs {
    Attrs(Max(First(a).seqNum, found.maxSeq + 1), found.deps + First(a).deps)
  }

  /** Message k of x asks y to pre-accept a, and y finds what it depends on. */
  ghost predicate MayPreAccept(w: World, x: nat, y: nat, k: nat, a: InstanceID, found: Found) {
    && Due(w, x, y, k) && Script(x)[k] == PA(a, y) && a !in w.sides[y].insts
    && found.ok && found == SeqAndDeps(w.sides[y].insts[a := NEW_INSTANCE], CONF, Cmd(a), a)
    && w.sides[y].sent < |Script(y)|
    && Script(y)[w.sides[y].sent] ==
         Message(a.replica, a, if Computed(a, found) == First(a) then PreAcceptOK else PreAcceptReply(Computed(a, found)))
  }

  ghost function PreAcceptedBy(w: World, x: nat, y: nat, k: nat, a: InstanceID, found: Found): World
    requires MayPreAccept(w, x, y, k, a, found)
  {
    var side := w.sides[y];
    Moved(w, x, y, k, Side(side.insts[a := Plain(a, PreAccepted, Computed(a, found))], side.sent + 1, side.blocks))
  }

  lemma HearPreAccept(c: Cluster, w: World, x: nat, y: nat, k: nat, a: InstanceID, found: Found) returns (d: Cluster)
    requires Looks(c, w) && MayPreAccept(w, x, y, k, a, found)
    ensures Looks(d, PreAcceptedBy(w, x, y, k, a, found))
  {
    hide Reachable, Script, Step, SeqAndDeps, LocalOk, GlobalInv, ValidMessage;
    DueNext(c, w, x, y, k);
    var side, local := w.sides[y], Computed(a, found);
    assert Has(c, y, side);
    PreAcceptTouches(c.nodes[y], Script(x)[k]);
    SentOne(y, side.sent, Script(y)[side.sent]);
    StepSame(c.nodes[y], Script(x)[k]);
    FinishNone(Step(c.nodes[y], Script(x)[k]));
    Stepped(c, w, x, y, k, [], Side(side.insts[a := Plain(a, PreAccepted, local)], side.sent + 1, side.blocks));
    d := After(c, x, y, k, []);
  }

  predicate MayAccept(w: World, x: nat, y: nat, k: nat, a: InstanceID) {
    && Due(w, x, y, k) && Script(x)[k] == Acc(a, y)
    && a in w.sides[y].insts && Rank(w.sides[y].insts[a].status) < 3
    && w.sides[y].sent < |Script(y)| && Script(y)[w.sides[y].sent] == Ack(a)
  }

  function AcceptedBy(w: World, x: nat, y: nat, k: nat, a: InstanceID): World
    requires MayAccept(w, x, y, k, a)
  {
    var side := w.sides[y];
    var inst := side.insts[a].(status := Accepted, seqNum := Final(a).seqNum, deps := Final(a).deps);
    Moved(w, x, y, k, Side(side.insts[a := inst], side.sent + 1, side.blocks))
  }

  lemma HearAccept(c: Cluster, w: World, x: nat, y: nat, k: nat, a: InstanceID) returns (d: Cluster)
    requires Looks(c, w) && MayAccept(w, x, y, k, a)
    ensures Looks(d, AcceptedBy(w, x, y, k, a))
  {
    hide Reachable, Script, Step, LocalOk, GlobalInv, ValidMessage;
    DueNext(c, w, x, y, k);
    var side := w.sides[y];
    assert Has(c, y, side);
    AcceptTouches(c.nodes[y], Script(x)[k]);
    SentOne(y, side.sent, Ack(a));
    StepSame(c.nodes[y], Script(x)[k]);
    FinishNone(Step(c.nodes[y], Script(x)[k]));
    var inst := side.insts[a].(status := Accepted, seqNum := Final(a).seqNum, deps := Final(a).deps);
    Stepped(c, w, x, y, k, [], Side(side.insts[a := inst], side.sent + 1, side.blocks));
    d := After(c, x, y, k, []);
  }

  // ----- The executor in this run -----

  predicate IsCommitted(insts: Instances, a: InstanceID) {
    a in insts && insts[a].status == Committed
  }

  /** Nothing has executed, and what is committed has its final attributes. */
  predicate Settled(insts: Instances) {
    forall a :: a in insts ==>
      && insts[a].status != Executed
      && (insts[a].status == Committed ==>
            (a == I || a == J || a == K) && insts[a].Attributes() == Final(a) && insts[a].cmd == Some(Cmd(a)))
  }

  lemma WaitingGraph(n: Node)
    requires LocalOk(n) && Settled(n.insts)
    ensures ExecutedIds(n) == {}
    ensures forall a :: a in PendingGraph(n) <==> IsCommitted(n.insts, a)
    ensures forall a :: a in PendingGraph(n) ==>
              (a == I || a == J || a == K) && PendingGraph(n)[a] == Final(a).deps
              && a in PendingSeqs(n) && PendingSeqs(n)[a] == Final(a).seqNum
  {
  }

  /** The next instance round the cycle. */
  function NextDep(a: InstanceID): InstanceID {
    if a == I then K else if a == K then J else I
  }

  lemma NotReadyYet(g: DepGraph, a: InstanceID)
    requires forall b :: b in g ==> (b == I || b == J || b == K) && g[b] == Final(b).deps
    requires !(I in g && J in g && K in g)
    ensures !Ready(g, {}, a)
  {
    if a in g {
      var b := NextDep(a);
      assert Edge(g, a, b);
      ReachEdge(g, a, b);
      if b in g {
        assert Edge(g, b, NextDep(b));
        ReachEdge(g, b, NextDep(b));
        ReachTrans(g, a, b, NextDep(b));
      }
    }
  }

  /** While one of the three is missing, nothing executes. */
  lemma NothingRuns(n: Node)
    requires LocalOk(n) && Settled(n.insts)
    requires !(IsCommitted(n.insts, I) && IsCommitted(n.insts, J) && IsCommitted(n.insts, K))
    ensures RunOk(n, [])
  {
    hide LocalOk, Settled, IsCommitted, Ready;
    WaitingGraph(n);
    forall a ensures !Ready(PendingGraph(n), {}, a) {
      NotReadyYet(PendingGraph(n), a);
    }
    assert Flat([]) == {};
  }

  const CYCLE: set<InstanceID> := {I, J, K}

  ghost predicate IsCycle(g: DepGraph) {
    g.Keys == CYCLE && forall b :: b in g ==> g[b] == Final(b).deps
  }

  lemma CycleScc(g: DepGraph)
    requires IsCycle(g)
    ensures IsScc(g, CYCLE)
    ensures forall a :: Ready(g, {}, a) <==> a in CYCLE
  {
    ReachEdge(g, I, K);
    ReachEdge(g, K, J);
    ReachEdge(g, J, I);
    ReachTrans(g, I, K, J);
    ReachTrans(g, K, J, I);
    ReachTrans(g, J, I, K);
    ReachRefl(g, I);
    ReachRefl(g, J);
    ReachRefl(g, K);
    forall a, b | a in CYCLE && Reach(g, a, b) ensures b in CYCLE {
      ReachClosed(g, (iset y | y in CYCLE), a, b);
    }
  }

  lemma OneBlock(order: seq<InstanceID>)
    ensures Flat([order]) == Elems(order) && Flat([order][..0]) == {}
  {
    FlatAppend([], order);
    assert [] + [order] == [order];
    assert [order][..0] == [];
  }

  lemma CycleBlock(g: DepGraph, seqs: map<InstanceID, SeqNum>, order: seq<InstanceID>)
    requires IsCycle(g) && order in {[I, J, K], [J, I, K]}
    requires forall b :: b in CYCLE ==> b in seqs && seqs[b] == Final(b).seqNum
    ensures BlockOk(g, seqs, {}, order) && Elems(order) == CYCLE
  {
    hide IsScc, Ready;
    CycleScc(g);
    assert Elems(order) == CYCLE;
  }

  /** With all three committed they are one component; the two writes come in either order. */
  lemma AllRun(n: Node, order: seq<InstanceID>)
    requires LocalOk(n) && Settled(n.insts)
    requires IsCommitted(n.insts, I) && IsCommitted(n.insts, J) && IsCommitted(n.insts, K)
    requires order in {[I, J, K], [J, I, K]}
    ensures RunOk(n, [order])
  {
    hide LocalOk, Settled, IsCommitted, Ready, IsScc, BlockOk, Flat, Elems;
    WaitingGraph(n);
    var g := PendingGraph(n);
    assert g.Keys == CYCLE;
    CycleScc(g);
    CycleBlock(g, PendingSeqs(n), order);
    OneBlock(order);
    assert {} + Flat([order][..0]) == {};
  }

  lemma FinishNone(o: Outcome)
    ensures Finish(o, []).insts == o.node.insts && Finish(o, []).msgs == o.node.msgs
    ensures Finish(o, []).blocks == o.node.blocks
  {
    var n := o.node;
    assert Flat([]) == {};
    assert MarkExecuted(n.insts, {}) == n.insts;
    assert n.blocks + [] == n.blocks;
  }

  lemma FinishAll(o: Outcome, order: seq<InstanceID>)
    requires o.run && CanDeliver(o.node, Flat([order]))
    ensures var n := Finish(o, [order]);
            n.insts == MarkExecuted(o.node.insts, Elems(order)) && n.msgs == o.node.msgs
            && n.blocks == o.node.blocks + [order]
  {
    hide Concat, Flat;
    OneBlock(order);
  }

  lemma SentMore(y: nat, sent: nat, more: nat)
    requires sent + more <= |Script(y)|
    ensures Script(y)[..sent] + Script(y)[sent..sent + more] == Script(y)[..sent + more]
  {
  }

  /** What the leader sends as it acts on a reply. */
  function Reaction(y: nat, a: InstanceID, was: Instance, body: Body): seq<Message>
    requires was.cmd.Some?
  {
    var next, to := Noticed(was, body), Acted(CONF, was, body).status;
    if to == next.status then [] else BroadcastMsgs(CONF, y, a, AdvanceBody(next, to))
  }

  /** All three are committed, or not yet. */
  predicate Complete(insts: Instances) {
    IsCommitted(insts, I) && IsCommitted(insts, J) && IsCommitted(insts, K)
  }

  function Acting(w: World, x: nat, y: nat, k: nat): Instances
    requires Due(w, x, y, k) && Script(x)[k].inst in w.sides[y].insts
  {
    var a, insts := Script(x)[k].inst, w.sides[y].insts;
    insts[a := Acted(CONF, insts[a], Script(x)[k].body)]
  }

  /** Message k of x is a reply that y, the leader, acts on by sending more messages. */
  predicate MayAct(w: World, x: nat, y: nat, k: nat, more: nat) {
    && Due(w, x, y, k) && IsReply(Script(x)[k].body)
    && var a, body, side := Script(x)[k].inst, Script(x)[k].body, w.sides[y];
       && a in side.insts && side.insts[a].cmd.Some?
       && side.insts[a].status == (if body.AcceptOK? then Accepted else PreAccepted)
       && side.sent + more <= |Script(y)|
       && Script(y)[side.sent..side.sent + more] == Reaction(y, a, side.insts[a], body)
       && Settled(Acting(w, x, y, k)) && !Complete(Acting(w, x, y, k))
  }

  function ActedOn(w: World, x: nat, y: nat, k: nat, more: nat): World
    requires MayAct(w, x, y, k, more)
  {
    Moved(w, x, y, k, Side(Acting(w, x, y, k), w.sides[y].sent + more, w.sides[y].blocks))
  }

  lemma HearReply(c: Cluster, w: World, x: nat, y: nat, k: nat, more: nat) returns (d: Cluster)
    requires Looks(c, w) && MayAct(w, x, y, k, more)
    ensures Looks(d, ActedOn(w, x, y, k, more))
  {
    hide Reachable, Script, Step, LocalOk, GlobalInv, ValidMessage, RunOk, Finish, Acted, BroadcastMsgs, Settled,
      IsCommitted, Touches, Reaction, NotedOk;
    DueNext(c, w, x, y, k);
    assert Has(c, y, w.sides[y]);
    ActedStep(c, x, y, k);
    Reacted(c.nodes[y], w.sides[y], Script(x)[k], y, more);
    NothingRuns(Step(c.nodes[y], Script(x)[k]).node);
    StepSame(c.nodes[y], Script(x)[k]);
    FinishNone(Step(c.nodes[y], Script(x)[k]));
    Stepped(c, w, x, y, k, [], Side(Acting(w, x, y, k), w.sides[y].sent + more, w.sides[y].blocks));
    d := After(c, x, y, k, []);
  }

  lemma Reacted(n: Node, side: Side, m: Message, y: nat, more: nat)
    requires m.inst in n.insts && m.inst in n.pre && n.insts[m.inst].cmd.Some? && n.id == y && n.nodes == CONF
    requires Touches(n, Step(n, m).node, m.inst, Acted(n.nodes, n.insts[m.inst], m.body), n.pre[m.inst],
                     ActedMsgs(n, m.inst, m.body))
    requires side.sent + more <= |Script(y)| && n.msgs == Script(y)[..side.sent]
    requires Script(y)[side.sent..side.sent + more] == Reaction(y, m.inst, n.insts[m.inst], m.body)
    ensures Step(n, m).node.insts == n.insts[m.inst := Acted(CONF, n.insts[m.inst], m.body)]
    ensures Step(n, m).node.msgs == Script(y)[..side.sent + more]
  {
    hide Script, Step, Acted, BroadcastMsgs;
    SentMore(y, side.sent, more);
  }

  predicate MayIgnore(w: World, x: nat, y: nat, k: nat) {
    && Due(w, x, y, k) && IsReply(Script(x)[k].body) && Script(x)[k].inst in w.sides[y].insts
    && w.sides[y].insts[Script(x)[k].inst].status != if Script(x)[k].body.AcceptOK? then Accepted else PreAccepted
  }

  function Ignored(w: World, x: nat, y: nat, k: nat): World
    requires MayIgnore(w, x, y, k)
  {
    Moved(w, x, y, k, w.sides[y])
  }

  lemma HearLate(c: Cluster, w: World, x: nat, y: nat, k: nat) returns (d: Cluster)
    requires Looks(c, w) && MayIgnore(w, x, y, k)
    ensures Looks(d, Ignored(w, x, y, k))
  {
    hide Reachable, Script, LocalOk, GlobalInv, ValidMessage, RunOk;
    DueNext(c, w, x, y, k);
    assert Has(c, y, w.sides[y]);
    IgnoredStays(c.nodes[y], Script(x)[k]);
    Stepped(c, w, x, y, k, [], w.sides[y]);
    d := After(c, x, y, k, []);
  }

  lemma CommitRuns(n: Node, m: Message)
    requires ValidMessage(n, m) && m.body.CommitMsg? && m.inst in n.insts && Rank(n.insts[m.inst].status) < 3
    ensures Step(n, m).run
  {
  }

  /** A replica's instances after it has learnt of a commit. */
  function Learnt(insts: Instances, a: InstanceID): Instances
    requires a in insts
  {
    insts[a := insts[a].(status := Committed, cmd := Some(Cmd(a)), seqNum := Final(a).seqNum, deps := Final(a).deps)]
  }

  /** Message k of x tells y that a is committed. */
  predicate MayLearn(w: World, x: nat, y: nat, k: nat, a: InstanceID) {
    && Due(w, x, y, k) && Script(x)[k] == Com(a, y)
    && a in w.sides[y].insts && Rank(w.sides[y].insts[a].status) < 3
    && Settled(Learnt(w.sides[y].insts, a))
  }

  /** If that was the last of the three they execute in the given order. */
  function LearntBy(w: World, x: nat, y: nat, k: nat, a: InstanceID, order: seq<InstanceID>): World
    requires MayLearn(w, x, y, k, a)
  {
    var insts, side := Learnt(w.sides[y].insts, a), w.sides[y];
    Moved(w, x, y, k, if Complete(insts) then Side(MarkExecuted(insts, CYCLE), side.sent, side.blocks + [order])
                      else Side(insts, side.sent, side.blocks))
  }

  lemma HearCommit(c: Cluster, w: World, x: nat, y: nat, k: nat, a: InstanceID, order: seq<InstanceID>) returns (d: Cluster)
    requires Looks(c, w) && MayLearn(w, x, y, k, a) && order in {[I, J, K], [J, I, K]}
    ensures Looks(d, LearntBy(w, x, y, k, a, order))
  {
    hide Reachable, Script, Step, LocalOk, GlobalInv, ValidMessage, RunOk, Finish, Settled, IsCommitted, CanDeliver;
    DueNext(c, w, x, y, k);
    var n, m, side := c.nodes[y], Script(x)[k], w.sides[y];
    assert Has(c, y, side);
    CommitTouches(n, m);
    StepSame(n, m);
    assert Step(n, m).node.msgs == n.msgs + [];
    var insts := Learnt(side.insts, a);
    if Complete(insts) {
      CommitRuns(n, m);
      AllRun(Step(n, m).node, order);
      RunDelivers(Step(n, m).node, [order]);
      FinishAll(Step(n, m), order);
      assert Elems(order) == CYCLE;
      Stepped(c, w, x, y, k, [order], Side(MarkExecuted(insts, CYCLE), side.sent, side.blocks + [order]));
      d := After(c, x, y, k, [order]);
    } else {
      NothingRuns(Step(n, m).node);
      FinishNone(Step(n, m));
      Stepped(c, w, x, y, k, [], Side(insts, side.sent, side.blocks));
      d := After(c, x, y, k, []);
    }
  }

  // ----- The run -----

  /** The messages of one round to the other two replicas. */
  lemma ToOthers(y: nat, a: InstanceID, body: Body)
    requires y < 2
    ensures BroadcastMsgs(CONF, y, a, body) == [Message(1 - y, a, body), Message(2, a, body)]
  {
    assert CONF[..2] == [0, 1] && [0, 1][..1] == [0] && [0][..0] == [];
    assert BroadcastMsgs([], y, a, body) == [];
    assert BroadcastMsgs([0], y, a, body) == [] + if y == 0 then [] else [Message(0, a, body)];
    assert BroadcastMsgs([0, 1], y, a, body) == [Message(1 - y, a, body)];
  }

  /** The world after x has started a. */
  function Started(w: World, x: nat, a: InstanceID): World
    requires w.Shaped() && x < 3
  {
    var side := w.sides[x];
    World(w.sides[x := Side(side.insts[a := Plain(a, PreAccepted, First(a))], side.sent + 2, side.blocks)], w.read)
  }

  ghost predicate MayStart(w: World, x: nat, a: InstanceID, found: Found) {
    && w.Shaped() && x < 2 && a.replica == x && a in CYCLE && a.num >= 1
    && (forall b :: b in w.sides[x].insts ==> b.replica == x && b.num < a.num)
    && (a.num == 1 || InstanceID(x, a.num - 1) in w.sides[x].insts)
    && found.ok && found == SeqAndDeps(w.sides[x].insts, CONF, Cmd(a), InstanceID(0, 0))
    && First(a) == Attrs(found.maxSeq + 1, found.deps)
    && w.sides[x].sent + 2 <= |Script(x)|
    && Script(x)[w.sides[x].sent..w.sides[x].sent + 2] == [PA(a, 1 - x), PA(a, 2)]
  }

  /** x starts a. */
  lemma Propose(c: Cluster, w: World, x: nat, a: InstanceID, found: Found) returns (d: Cluster)
    requires Looks(c, w) && MayStart(w, x, a, found)
    ensures Looks(d, Started(w, x, a))
  {
    hide Reachable, Script, SeqAndDeps, LocalOk, OnRequest, GlobalInv;
    assert CONF[x] == x;
    var n, side := c.nodes[x], w.sides[x];
    assert Has(c, x, side);
    ReachableInv(c);
    LocalAt(c, x);
    Proposed(n, a, found);
    SentMore(x, side.sent, 2);
    d := Put(c, x, OnRequest(n, Cmd(a)).node);
    Requested1(c, d, x, Cmd(a));
    StartedSides(c, d, w, x, a);
  }

  lemma Requested1(c: Cluster, d: Cluster, x: nat, cmd: Command)
    requires Reachable(c) && Base(c) && RequestStep(c, d, x, cmd)
    ensures Reachable(d) && Base(d) && d.conf == c.conf && d.pos == c.pos
  {
    hide Reachable;
    Extend(c, d);
    ReachableInv(d);
    InvBase(d);
  }

  lemma StartedSides(c: Cluster, d: Cluster, w: World, x: nat, a: InstanceID)
    requires w.Shaped() && x < 3 && SidesOk(c, w) && ReadsOk(c, w) && d.pos == c.pos
    requires x in d.nodes && d.nodes == c.nodes[x := d.nodes[x]] && Has(d, x, Started(w, x, a).sides[x])
    ensures SidesOk(d, Started(w, x, a)) && ReadsOk(d, Started(w, x, a))
  {
    hide Script;
  }

  lemma Proposed(n: Node, a: InstanceID, found: Found)
    requires LocalOk(n) && n.nodes == CONF && n.id == a.replica && n.id < 2 && a.num >= 1
    requires forall b :: b in n.insts ==> b.replica == n.id && b.num < a.num
    requires a.num == 1 || InstanceID(n.id, a.num - 1) in n.insts
    requires found == SeqAndDeps(n.insts, CONF, Cmd(a), InstanceID(0, 0))
    requires First(a) == Attrs(found.maxSeq + 1, found.deps)
    ensures var m := OnRequest(n, Cmd(a)).node;
            m.insts == n.insts[a := Plain(a, PreAccepted, First(a))]
            && m.msgs == n.msgs + [PA(a, 1 - n.id), PA(a, 2)] && m.blocks == n.blocks
  {
    hide SeqAndDeps, LocalOk, OnRequest, BroadcastMsgs;
    var m := MaxNum(n.insts, n.id);
    assert InstanceID(n.id, m) in n.insts ==> m < a.num;
    assert a.num > 1 ==> a.num - 1 <= m;
    RequestTouches(n, Cmd(a));
    RequestSame(n, Cmd(a));
    ToOthers(n.id, a, PreAcceptMsg(Cmd(a), First(a)));
  }

  /** The first reply adds a dependency and a higher sequence number: the slow path. */
  lemma ActsOnDifference(a: InstanceID)
    requires a == I || a == K
    ensures Acted(CONF, Plain(a, PreAccepted, First(a)), PreAcceptReply(Final(a))) ==
            Copy(a, Accepted, Final(a), 1, true, 0)
  {
    assert First(a).deps + Final(a).deps == Final(a).deps;
    assert |First(a).deps| == 0 && |Final(a).deps| == 1;
  }

  function W0(): World {
    World([
        Side(map[], 0, []),
        Side(map[], 0, []),
        Side(map[], 0, [])],
      [[0, 0, 0], [0, 0, 0], [0, 0, 0]])
  }

  function W1(): World {
    World([
        Side(map[], 0, []),
        Side(map[K := Plain(K, PreAccepted, First(K))], 2, []),
        Side(map[], 0, [])],
      [[0, 0, 0], [0, 0, 0], [0, 0, 0]])
  }

  /** Replica 1 starts the read K. */
  lemma To1()
    ensures MayStart(W0(), 1, K, Found(true, 0, {}))
    ensures Started(W0(), 1, K) == W1()
  {
    hide SeqAndDeps, BroadcastMsgs;
    ScanNone(W0().sides[1].insts, K, InstanceID(0, 0));
    assert W0().sides[1].insts[K := Plain(K, PreAccepted, First(K))] == W1().sides[1].insts;
    assert W1().sides == W0().sides[1 := W1().sides[1]];
  }

  function W2(): World {
    World([
        Side(map[I := Plain(I, PreAccepted, First(I))], 2, []),
        Side(map[K := Plain(K, PreAccepted, First(K))], 2, []),
        Side(map[], 0, [])],
      [[0, 0, 0], [0, 0, 0], [0, 0, 0]])
  }

  /** Replica 0 starts the write I. */
  lemma To2()
    ensures MayStart(W1(), 0, I, Found(true, 0, {}))
    ensures Started(W1(), 0, I) == W2()
  {
    hide SeqAndDeps, BroadcastMsgs;
    ScanNone(W1().sides[0].insts, I, InstanceID(0, 0));
    assert W1().sides[0].insts[I := Plain(I, PreAccepted, First(I))] == W2().sides[0].insts;
    assert W2().sides == W1().sides[0 := W2().sides[0]];
  }

  function W3(): World {
    World([
        Side(map[I := Plain(I, PreAccepted, First(I)), J := Plain(J, PreAccepted, First(J))], 4, []),
        Side(map[K := Plain(K, PreAccepted, First(K))], 2, []),
        Side(map[], 0, [])],
      [[0, 0, 0], [0, 0, 0], [0, 0, 0]])
  }

  /** Replica 0 starts the write J, which depends on I. */
  lemma To3()
    ensures MayStart(W2(), 0, J, Found(true, 1, {I}))
    ensures Started(W2(), 0, J) == W3()
  {
    hide SeqAndDeps, BroadcastMsgs;
    ScanAfterI(W2().sides[0].insts, InstanceID(0, 0));
    assert W2().sides[0].insts[J := Plain(J, PreAccepted, First(J))] == W3().sides[0].insts;
    assert W3().sides == W2().sides[0 := W3().sides[0]];
  }

  function W4(): World {
    World([
        Side(map[I := Plain(I, PreAccepted, First(I)), J := Plain(J, PreAccepted, First(J))], 4, []),
        Side(map[K := Plain(K, PreAccepted, First(K))], 2, []),
        Side(map[I := Plain(I, PreAccepted, First(I))], 1, [])],
      [[0, 0, 2], [0, 0, 0], [0, 0, 0]])
  }

  /** Replica 2 hears of I first and agrees. */
  lemma To4()
    ensures MayPreAccept(W3(), 0, 2, 1, I, Found(true, 0, {}))
    ensures PreAcceptedBy(W3(), 0, 2, 1, I, Found(true, 0, {})) == W4()
  {
    hide SeqAndDeps, BroadcastMsgs;
    ScanNone(W3().sides[2].insts[I := NEW_INSTANCE], I, I);
    assert Computed(I, Found(true, 0, {})) == First(I);
    assert W3().sides[2].insts[I := Plain(I, PreAccepted, First(I))] == W4().sides[2].insts;
    assert W4().read[0] == W3().read[0][2 := 2];
    assert W4().read == W3().read[0 := W4().read[0]];
    assert W4().sides == W3().sides[2 := W4().sides[2]];
  }

  function W5(): World {
    World([
        Side(map[I := Plain(I, PreAccepted, First(I)), J := Plain(J, PreAccepted, First(J))], 4, []),
        Side(map[K := Plain(K, PreAccepted, First(K))], 2, []),
        Side(map[I := Plain(I, PreAccepted, First(I)), J := Plain(J, PreAccepted, First(J))], 2, [])],
      [[0, 0, 4], [0, 0, 0], [0, 0, 0]])
  }

  /** Replica 2 agrees to J as well. */
  lemma To5()
    ensures MayPreAccept(W4(), 0, 2, 3, J, Found(true, 1, {I}))
    ensures PreAcceptedBy(W4(), 0, 2, 3, J, Found(true, 1, {I})) == W5()
  {
    hide SeqAndDeps, BroadcastMsgs;
    ScanAfterI(W4().sides[2].insts[J := NEW_INSTANCE], J);
    assert Computed(J, Found(true, 1, {I})) == First(J);
    assert W4().sides[2].insts[J := Plain(J, PreAccepted, First(J))] == W5().sides[2].insts;
    assert W5().read[0] == W4().read[0][2 := 4];
    assert W5().read == W4().read[0 := W5().read[0]];
    assert W5().sides == W4().sides[2 := W5().sides[2]];
  }

  function W6(): World {
    World([
        Side(map[I := Plain(I, PreAccepted, First(I)), J := Plain(J, PreAccepted, First(J))], 4, []),
        Side(map[K := Plain(K, PreAccepted, First(K))], 2, []),
        Side(map[I := Plain(I, PreAccepted, First(I)), J := Plain(J, PreAccepted, First(J)), K := Plain(K, PreAccepted, Final(K))], 3, [])],
      [[0, 0, 4], [0, 0, 2], [0, 0, 0]])
  }

  /** Replica 2 makes K depend on J. */
  lemma To6()
    ensures MayPreAccept(W5(), 1, 2, 1, K, Found(true, 2, {J}))
    ensures PreAcceptedBy(W5(), 1, 2, 1, K, Found(true, 2, {J})) == W6()
  {
    hide SeqAndDeps, BroadcastMsgs;
    ScanAfterJ(W5().sides[2].insts[K := NEW_INSTANCE]);
    assert Computed(K, Found(true, 2, {J})) == Final(K);
    assert W5().sides[2].insts[K := Plain(K, PreAccepted, Final(K))] == W6().sides[2].insts;
    assert W6().read[1] == W5().read[1][2 := 2];
    assert W6().read == W5().read[1 := W6().read[1]];
    assert W6().sides == W5().sides[2 := W6().sides[2]];
  }

  function W7(): World {
    World([
        Side(map[I := Plain(I, PreAccepted, First(I)), J := Plain(J, PreAccepted, First(J))], 4, []),
        Side(map[K := Plain(K, PreAccepted, First(K)), I := Plain(I, PreAccepted, Final(I))], 3, []),
        Side(map[I := Plain(I, PreAccepted, First(I)), J := Plain(J, PreAccepted, First(J)), K := Plain(K, PreAccepted, Final(K))], 3, [])],
      [[0, 1, 4], [0, 0, 2], [0, 0, 0]])
  }

  /** Replica 1, which knows K only, makes I depend on K. */
  lemma To7()
    ensures MayPreAccept(W6(), 0, 1, 0, I, Found(true, 1, {K}))
    ensures PreAcceptedBy(W6(), 0, 1, 0, I, Found(true, 1, {K})) == W7()
  {
    hide SeqAndDeps, BroadcastMsgs;
    ScanAfterK(W6().sides[1].insts[I := NEW_INSTANCE]);
    assert Computed(I, Found(true, 1, {K})) == Final(I);
    assert W6().sides[1].insts[I := Plain(I, PreAccepted, Final(I))] == W7().sides[1].insts;
    assert W7().read[0] == W6().read[0][1 := 1];
    assert W7().read == W6().read[0 := W7().read[0]];
    assert W7().sides == W6().sides[1 := W7().sides[1]];
  }

  function W8(): World {
    World([
        Side(map[I := Plain(I, PreAccepted, First(I)), J := Plain(J, PreAccepted, First(J))], 4, []),
        Side(map[K := Copy(K, Accepted, Final(K), 1, true, 0), I := Plain(I, PreAccepted, Final(I))], 5, []),
        Side(map[I := Plain(I, PreAccepted, First(I)), J := Plain(J, PreAccepted, First(J)), K := Plain(K, PreAccepted, Final(K))], 3, [])],
      [[0, 1, 4], [0, 0, 2], [0, 3, 0]])
  }

  /** K takes the slow path with a dependency on J. */
  lemma To8()
    ensures MayAct(W7(), 2, 1, 2, 2)
    ensures ActedOn(W7(), 2, 1, 2, 2) == W8()
  {
    hide SeqAndDeps, BroadcastMsgs;
    ActsOnDifference(K);
    ToOthers(1, K, AcceptMsg(Final(K)));
    assert Script(1)[3..5] == [Script(1)[3], Script(1)[4]];
    assert W7().sides[1].insts[K := Copy(K, Accepted, Final(K), 1, true, 0)] == W8().sides[1].insts;
    assert Settled(W8().sides[1].insts);
    assert W8().read[2] == W7().read[2][1 := 3];
    assert W8().read == W7().read[2 := W8().read[2]];
    assert W8().sides == W7().sides[1 := W8().sides[1]];
  }

  function W9(): World {
    World([
        Side(map[I := Plain(I, PreAccepted, First(I)), J := Plain(J, PreAccepted, First(J)), K := Plain(K, PreAccepted, Final(K))], 5, []),
        Side(map[K := Copy(K, Accepted, Final(K), 1, true, 0), I := Plain(I, PreAccepted, Final(I))], 5, []),
        Side(map[I := Plain(I, PreAccepted, First(I)), J := Plain(J, PreAccepted, First(J)), K := Plain(K, PreAccepted, Final(K))], 3, [])],
      [[0, 1, 4], [1, 0, 2], [0, 3, 0]])
  }

  /** Replica 0 makes K depend on J as well. */
  lemma To9()
    ensures MayPreAccept(W8(), 1, 0, 0, K, Found(true, 2, {J}))
    ensures PreAcceptedBy(W8(), 1, 0, 0, K, Found(true, 2, {J})) == W9()
  {
    hide SeqAndDeps, BroadcastMsgs;
    ScanAfterJ(W8().sides[0].insts[K := NEW_INSTANCE]);
    assert Computed(K, Found(true, 2, {J})) == Final(K);
    assert W8().sides[0].insts[K := Plain(K, PreAccepted, Final(K))] == W9().sides[0].insts;
    assert W9().read[1] == W8().read[1][0 := 1];
    assert W9().read == W8().read[1 := W9().read[1]];
    assert W9().sides == W8().sides[0 := W9().sides[0]];
  }

  function W10(): World {
    World([
        Side(map[I := Copy(I, Accepted, Final(I), 1, true, 0), J := Plain(J, PreAccepted, First(J)), K := Plain(K, PreAccepted, Final(K))], 7, []),
        Side(map[K := Copy(K, Accepted, Final(K), 1, true, 0), I := Plain(I, PreAccepted, Final(I))], 5, []),
        Side(map[I := Plain(I, PreAccepted, First(I)), J := Plain(J, PreAccepted, First(J)), K := Plain(K, PreAccepted, Final(K))], 3, [])],
      [[0, 1, 4], [3, 0, 2], [0, 3, 0]])
  }

  /** I takes the slow path with a dependency on K and sequence number 2. */
  lemma To10()
    ensures MayAct(W9(), 1, 0, 2, 2)
    ensures ActedOn(W9(), 1, 0, 2, 2) == W10()
  {
    hide SeqAndDeps, BroadcastMsgs;
    ActsOnDifference(I);
    ToOthers(0, I, AcceptMsg(Final(I)));
    assert Script(0)[5..7] == [Script(0)[5], Script(0)[6]];
    assert W9().sides[0].insts[I := Copy(I, Accepted, Final(I), 1, true, 0)] == W10().sides[0].insts;
    assert Settled(W10().sides[0].insts);
    assert W10().read[1] == W9().read[1][0 := 3];
    assert W10().read == W9().read[1 := W10().read[1]];
    assert W10().sides == W9().sides[0 := W10().sides[0]];
  }

  function W11(): World {
    World([
        Side(map[I := Copy(I, Accepted, Final(I), 1, true, 0), J := Plain(J, PreAccepted, First(J)), K := Plain(K, PreAccepted, Final(K))], 7, []),
        Side(map[K := Copy(K, Accepted, Final(K), 1, true, 0), I := Plain(I, PreAccepted, Final(I))], 5, []),
        Side(map[I := Plain(I, PreAccepted, First(I)), J := Plain(J, PreAccepted, First(J)), K := Plain(K, PreAccepted, Final(K))], 3, [])],
      [[0, 1, 4], [3, 0, 2], [1, 3, 0]])
  }

  /** Replica 2's agreement to I comes too late. */
  lemma To11()
    ensures MayIgnore(W10(), 2, 0, 0)
    ensures Ignored(W10(), 2, 0, 0) == W11()
  {
    hide SeqAndDeps, BroadcastMsgs;
    assert W11().read[2] == W10().read[2][0 := 1];
    assert W11().read == W10().read[2 := W11().read[2]];
    assert W11().sides == W10().sides[0 := W11().sides[0]];
  }

  function W12(): World {
    World([
        Side(map[I := Copy(I, Accepted, Final(I), 1, true, 0), J := Copy(J, Committed, Final(J), 1, false, 0), K := Plain(K, PreAccepted, Final(K))], 9, []),
        Side(map[K := Copy(K, Accepted, Final(K), 1, true, 0), I := Plain(I, PreAccepted, Final(I))], 5, []),
        Side(map[I := Plain(I, PreAccepted, First(I)), J := Plain(J, PreAccepted, First(J)), K := Plain(K, PreAccepted, Final(K))], 3, [])],
      [[0, 1, 4], [3, 0, 2], [2, 3, 0]])
  }

  /** J commits on the fast path with sequence number 2. */
  lemma To12()
    ensures MayAct(W11(), 2, 0, 1, 2)
    ensures ActedOn(W11(), 2, 0, 1, 2) == W12()
  {
    hide SeqAndDeps, BroadcastMsgs;
    assert Acted(CONF, W11().sides[0].insts[J], Script(2)[1].body) == Copy(J, Committed, Final(J), 1, false, 0);
    ToOthers(0, J, CommitMsg(Cmd(J), Final(J)));
    assert Script(0)[7..9] == [Script(0)[7], Script(0)[8]];
    assert W11().sides[0].insts[J := Copy(J, Committed, Final(J), 1, false, 0)] == W12().sides[0].insts;
    assert Settled(W12().sides[0].insts);
    assert W12().read[2] == W11().read[2][0 := 2];
    assert W12().read == W11().read[2 := W12().read[2]];
    assert W12().sides == W11().sides[0 := W12().sides[0]];
  }

  function W13(): World {
    World([
        Side(map[I := Copy(I, Accepted, Final(I), 1, true, 0), J := Copy(J, Committed, Final(J), 1, false, 0), K := Plain(K, PreAccepted, Final(K))], 9, []),
        Side(map[K := Copy(K, Accepted, Final(K), 1, true, 0), I := Plain(I, PreAccepted, Final(I))], 5, []),
        Side(map[I := Plain(I, Accepted, Final(I)), J := Plain(J, PreAccepted, First(J)), K := Plain(K, PreAccepted, Final(K))], 4, [])],
      [[0, 1, 7], [3, 0, 2], [2, 3, 0]])
  }

  /** Replica 2 accepts I. */
  lemma To13()
    ensures MayAccept(W12(), 0, 2, 6, I)
    ensures AcceptedBy(W12(), 0, 2, 6, I) == W13()
  {
    hide SeqAndDeps, BroadcastMsgs;
    assert W12().sides[2].insts[I := Plain(I, Accepted, Final(I))] == W13().sides[2].insts;
    assert W13().read[0] == W12().read[0][2 := 7];
    assert W13().read == W12().read[0 := W13().read[0]];
    assert W13().sides == W12().sides[2 := W13().sides[2]];
  }

  function W14(): World {
    World([
        Side(map[I := Copy(I, Committed, Final(I), 1, true, 1), J := Copy(J, Committed, Final(J), 1, false, 0), K := Plain(K, PreAccepted, Final(K))], 11, []),
        Side(map[K := Copy(K, Accepted, Final(K), 1, true, 0), I := Plain(I, PreAccepted, Final(I))], 5, []),
        Side(map[I := Plain(I, Accepted, Final(I)), J := Plain(J, PreAccepted, First(J)), K := Plain(K, PreAccepted, Final(K))], 4, [])],
      [[0, 1, 7], [3, 0, 2], [4, 3, 0]])
  }

  /** I commits. */
  lemma To14()
    ensures MayAct(W13(), 2, 0, 3, 2)
    ensures ActedOn(W13(), 2, 0, 3, 2) == W14()
  {
    hide SeqAndDeps, BroadcastMsgs;
    assert Acted(CONF, W13().sides[0].insts[I], Script(2)[3].body) == Copy(I, Committed, Final(I), 1, true, 1);
    ToOthers(0, I, CommitMsg(Cmd(I), Final(I)));
    assert Script(0)[9..11] == [Script(0)[9], Script(0)[10]];
    assert W13().sides[0].insts[I := Copy(I, Committed, Final(I), 1, true, 1)] == W14().sides[0].insts;
    assert Settled(W14().sides[0].insts);
    assert W14().read[2] == W13().read[2][0 := 4];
    assert W14().read == W13().read[2 := W14().read[2]];
    assert W14().sides == W13().sides[0 := W14().sides[0]];
  }

  function W15(): World {
    World([
        Side(map[I := Copy(I, Committed, Final(I), 1, true, 1), J := Copy(J, Committed, Final(J), 1, false, 0), K := Plain(K, PreAccepted, Final(K))], 11, []),
        Side(map[K := Copy(K, Accepted, Final(K), 1, true, 0), I := Plain(I, PreAccepted, Final(I))], 5, []),
        Side(map[I := Plain(I, Accepted, Final(I)), J := Plain(J, PreAccepted, First(J)), K := Plain(K, Accepted, Final(K))], 5, [])],
      [[0, 1, 7], [3, 0, 5], [4, 3, 0]])
  }

  /** Replica 2 accepts K. */
  lemma To15()
    ensures MayAccept(W14(), 1, 2, 4, K)
    ensures AcceptedBy(W14(), 1, 2, 4, K) == W15()
  {
    hide SeqAndDeps, BroadcastMsgs;
    assert W14().sides[2].insts[K := Plain(K, Accepted, Final(K))] == W15().sides[2].insts;
    assert W15().read[1] == W14().read[1][2 := 5];
    assert W15().read == W14().read[1 := W15().read[1]];
    assert W15().sides == W14().sides[2 := W15().sides[2]];
  }

  function W16(): World {
    World([
        Side(map[I := Copy(I, Committed, Final(I), 1, true, 1), J := Copy(J, Committed, Final(J), 1, false, 0), K := Plain(K, PreAccepted, Final(K))], 11, []),
        Side(map[K := Copy(K, Committed, Final(K), 1, true, 1), I := Plain(I, PreAccepted, Final(I))], 7, []),
        Side(map[I := Plain(I, Accepted, Final(I)), J := Plain(J, PreAccepted, First(J)), K := Plain(K, Accepted, Final(K))], 5, [])],
      [[0, 1, 7], [3, 0, 5], [4, 5, 0]])
  }

  /** K commits. */
  lemma To16()
    ensures MayAct(W15(), 2, 1, 4, 2)
    ensures ActedOn(W15(), 2, 1, 4, 2) == W16()
  {
    hide SeqAndDeps, BroadcastMsgs;
    assert Acted(CONF, W15().sides[1].insts[K], Script(2)[4].body) == Copy(K, Committed, Final(K), 1, true, 1);
    ToOthers(1, K, CommitMsg(Cmd(K), Final(K)));
    assert Script(1)[5..7] == [Script(1)[5], Script(1)[6]];
    assert W15().sides[1].insts[K := Copy(K, Committed, Final(K), 1, true, 1)] == W16().sides[1].insts;
    assert Settled(W16().sides[1].insts);
    assert W16().read[2] == W15().read[2][1 := 5];
    assert W16().read == W15().read[2 := W16().read[2]];
    assert W16().sides == W15().sides[1 := W16().sides[1]];
  }

  function W17(): World {
    World([
        Side(map[I := Copy(I, Committed, Final(I), 1, true, 1), J := Copy(J, Committed, Final(J), 1, false, 0), K := Plain(K, Accepted, Final(K))], 12, []),
        Side(map[K := Copy(K, Committed, Final(K), 1, true, 1), I := Plain(I, PreAccepted, Final(I))], 7, []),
        Side(map[I := Plain(I, Accepted, Final(I)), J := Plain(J, PreAccepted, First(J)), K := Plain(K, Accepted, Final(K))], 5, [])],
      [[0, 1, 7], [4, 0, 5], [4, 5, 0]])
  }

  /** Replica 0 accepts K. */
  lemma To17()
    ensures MayAccept(W16(), 1, 0, 3, K)
    ensures AcceptedBy(W16(), 1, 0, 3, K) == W17()
  {
    hide SeqAndDeps, BroadcastMsgs;
    assert W16().sides[0].insts[K := Plain(K, Accepted, Final(K))] == W17().sides[0].insts;
    assert W17().read[1] == W16().read[1][0 := 4];
    assert W17().read == W16().read[1 := W17().read[1]];
    assert W17().sides == W16().sides[0 := W17().sides[0]];
  }

  function W18(): World {
    World([
        Side(map[I := Copy(I, Executed, Final(I), 1, true, 1), J := Copy(J, Executed, Final(J), 1, false, 0), K := Plain(K, Executed, Final(K))], 12, [[I, J, K]]),
        Side(map[K := Copy(K, Committed, Final(K), 1, true, 1), I := Plain(I, PreAccepted, Final(I))], 7, []),
        Side(map[I := Plain(I, Accepted, Final(I)), J := Plain(J, PreAccepted, First(J)), K := Plain(K, Accepted, Final(K))], 5, [])],
      [[0, 1, 7], [6, 0, 5], [4, 5, 0]])
  }

  /** Replica 0 learns of K and executes I, J, K. */
  lemma To18()
    ensures MayLearn(W17(), 1, 0, 5, K)
    ensures LearntBy(W17(), 1, 0, 5, K, [I, J, K]) == W18()
  {
    hide SeqAndDeps, BroadcastMsgs;
    assert MayLearn(W17(), 1, 0, 5, K);
    hide Script;
    assert Complete(Learnt(W17().sides[0].insts, K));
    assert MarkExecuted(Learnt(W17().sides[0].insts, K), CYCLE) == W18().sides[0].insts;
    assert [] + [[I, J, K]] == [[I, J, K]];
    assert W18().read[1] == W17().read[1][0 := 6];
    assert W18().read == W17().read[1 := W18().read[1]];
    assert W18().sides == W17().sides[0 := W18().sides[0]];
  }

  function W19(): World {
    World([
        Side(map[I := Copy(I, Executed, Final(I), 1, true, 1), J := Copy(J, Executed, Final(J), 1, false, 0), K := Plain(K, Executed, Final(K))], 12, [[I, J, K]]),
        Side(map[K := Copy(K, Committed, Final(K), 1, true, 1), I := Plain(I, PreAccepted, Final(I))], 7, []),
        Side(map[I := Plain(I, Accepted, Final(I)), J := Plain(J, Committed, Final(J)), K := Plain(K, Accepted, Final(K))], 5, [])],
      [[0, 1, 9], [6, 0, 5], [4, 5, 0]])
  }

  /** Replica 2 learns of J. */
  lemma To19()
    ensures MayLearn(W18(), 0, 2, 8, J)
    ensures LearntBy(W18(), 0, 2, 8, J, [I, J, K]) == W19()
  {
    hide SeqAndDeps, BroadcastMsgs;
    assert Learnt(W18().sides[2].insts, J) == W19().sides[2].insts;
    assert W19().read[0] == W18().read[0][2 := 9];
    assert W19().read == W18().read[0 := W19().read[0]];
    assert W19().sides == W18().sides[2 := W19().sides[2]];
  }

  function W20(): World {
    World([
        Side(map[I := Copy(I, Executed, Final(I), 1, true, 1), J := Copy(J, Executed, Final(J), 1, false, 0), K := Plain(K, Executed, Final(K))], 12, [[I, J, K]]),
        Side(map[K := Copy(K, Committed, Final(K), 1, true, 1), I := Plain(I, PreAccepted, Final(I))], 7, []),
        Side(map[I := Plain(I, Committed, Final(I)), J := Plain(J, Committed, Final(J)), K := Plain(K, Accepted, Final(K))], 5, [])],
      [[0, 1, 11], [6, 0, 5], [4, 5, 0]])
  }

  /** Replica 2 learns of I. */
  lemma To20()
    ensures MayLearn(W19(), 0, 2, 10, I)
    ensures LearntBy(W19(), 0, 2, 10, I, [I, J, K]) == W20()
  {
    hide SeqAndDeps, BroadcastMsgs;
    assert Learnt(W19().sides[2].insts, I) == W20().sides[2].insts;
    assert W20().read[0] == W19().read[0][2 := 11];
    assert W20().read == W19().read[0 := W20().read[0]];
    assert W20().sides == W19().sides[2 := W20().sides[2]];
  }

  function W21(): World {
    World([
        Side(map[I := Copy(I, Executed, Final(I), 1, true, 1), J := Copy(J, Executed, Final(J), 1, false, 0), K := Plain(K, Executed, Final(K))], 12, [[I, J, K]]),
        Side(map[K := Copy(K, Committed, Final(K), 1, true, 1), I := Plain(I, PreAccepted, Final(I))], 7, []),
        Side(map[I := Plain(I, Executed, Final(I)), J := Plain(J, Executed, Final(J)), K := Plain(K, Executed, Final(K))], 5, [[J, I, K]])],
      [[0, 1, 11], [6, 0, 7], [4, 5, 0]])
  }

  /** Replica 2 learns of K and executes J, I, K. */
  lemma To21()
    ensures MayLearn(W20(), 1, 2, 6, K)
    ensures LearntBy(W20(), 1, 2, 6, K, [J, I, K]) == W21()
  {
    hide SeqAndDeps, BroadcastMsgs;
    assert Complete(Learnt(W20().sides[2].insts, K));
    assert MarkExecuted(Learnt(W20().sides[2].insts, K), CYCLE) == W21().sides[2].insts;
    assert [] + [[J, I, K]] == [[J, I, K]];
    assert W21().read[1] == W20().read[1][2 := 7];
    assert W21().read == W20().read[1 := W21().read[1]];
    assert W21().sides == W20().sides[2 := W21().sides[2]];
  }

  lemma InitReached(c: Cluster)
    requires Init(c)
    ensures Reachable(c)
  {
    hide Next;
    assert IsRun([c]) && [c][0] == c;
  }

  lemma Begin() returns (c: Cluster)
    ensures Looks(c, W0())
  {
    hide Reachable;
    c := StateOf(CONF, map x | x in CONF :: EmptyNode(x, CONF), map[], map[], map[]);
    InitReached(c);
    assert Script(0)[..0] == [] && Script(1)[..0] == [] && Script(2)[..0] == [];
  }

  /** The whole run. */
  lemma WholeRun() returns (c: Cluster)
    ensures Looks(c, W21())
  {
    hide *;
    c := Begin();
    To1();
    c := Propose(c, W0(), 1, K, Found(true, 0, {}));
    To2();
    c := Propose(c, W1(), 0, I, Found(true, 0, {}));
    To3();
    c := Propose(c, W2(), 0, J, Found(true, 1, {I}));
    To4();
    c := HearPreAccept(c, W3(), 0, 2, 1, I, Found(true, 0, {}));
    To5();
    c := HearPreAccept(c, W4(), 0, 2, 3, J, Found(true, 1, {I}));
    To6();
    c := HearPreAccept(c, W5(), 1, 2, 1, K, Found(true, 2, {J}));
    To7();
    c := HearPreAccept(c, W6(), 0, 1, 0, I, Found(true, 1, {K}));
    To8();
    c := HearReply(c, W7(), 2, 1, 2, 2);
    To9();
    c := HearPreAccept(c, W8(), 1, 0, 0, K, Found(true, 2, {J}));
    To10();
    c := HearReply(c, W9(), 1, 0, 2, 2);
    To11();
    c := HearLate(c, W10(), 2, 0, 0);
    To12();
    c := HearReply(c, W11(), 2, 0, 1, 2);
    To13();
    c := HearAccept(c, W12(), 0, 2, 6, I);
    To14();
    c := HearReply(c, W13(), 2, 0, 3, 2);
    To15();
    c := HearAccept(c, W14(), 1, 2, 4, K);
    To16();
    c := HearReply(c, W15(), 2, 1, 4, 2);
    To17();
    c := HearAccept(c, W16(), 1, 0, 3, K);
    To18();
    c := HearCommit(c, W17(), 1, 0, 5, K, [I, J, K]);
    To19();
    c := HearCommit(c, W18(), 0, 2, 8, J, [I, J, K]);
    To20();
    c := HearCommit(c, W19(), 0, 2, 10, I, [I, J, K]);
    To21();
    c := HearCommit(c, W20(), 1, 2, 6, K, [J, I, K]);
  }

  lemma EndSide(x: nat)
    requires x == 0 || x == 2
    ensures W21().Shaped() && var s := W21().sides[x];
            && s.insts.Keys == CYCLE && s.blocks == [if x == 0 then [I, J, K] else [J, I, K]]
            && forall a :: a in CYCLE ==> s.insts[a].status == Executed && s.insts[a].cmd == Some(Cmd(a))
                                          && s.insts[a].Attributes() == Final(a)
  {
  }

  lemma EndFacts(c: Cluster, x: nat)
    requires Looks(c, W21()) && (x == 0 || x == 2)
    ensures Reachable(c) && Base(c) && c.conf == CONF && GlobalInv(c)
    ensures x in c.nodes && c.nodes[x].insts.Keys == CYCLE && ExecutedIds(c.nodes[x]) == CYCLE
    ensures c.nodes[x].blocks == [if x == 0 then [I, J, K] else [J, I, K]]
    ensures forall a :: a in CYCLE ==> Executes(c, x, a) && c.nodes[x].insts[a].cmd == Some(Cmd(a))
                                       && c.nodes[x].insts[a].Attributes() == Final(a)
  {
    hide Reachable, Script, GlobalInv, W21;
    EndSide(x);
    ReachableInv(c);
    assert Has(c, x, W21().sides[x]);
    assert CONF[x] == x;
  }

  /** What a replica delivered, given the order in which it executed. */
  lemma Delivered3(c: Cluster, x: ReplicaID, order: seq<InstanceID>)
    requires Reachable(c) && Base(c) && x in c.conf && x in c.nodes
    requires c.nodes[x].blocks == [order] && |order| == 3 && forall a :: a in order ==> a in CYCLE
    requires forall a :: a in CYCLE ==> a in c.nodes[x].insts && c.nodes[x].insts[a].cmd == Some(Cmd(a))
    ensures c.nodes[x].executed == [Cmd(order[0]), Cmd(order[1]), Cmd(order[2])]
    ensures Concat(c.nodes[x].blocks) == order
  {
    hide Reachable, Base;
    DeliveredOnce(c, x);
    assert [order][..0] == [] && Concat([]) == [];
    assert Concat([order]) == [] + order;
  }

  lemma LastWriteWins(cmds: seq<Command>, a: InstanceID, b: InstanceID)
    requires cmds == [Cmd(a), Cmd(b), Cmd(K)] && a in {I, J} && b in {I, J}
    ensures 0 in Store.Replay(cmds) && Store.Replay(cmds)[0] == Cmd(b).data.value.v
  {
    Store.ReplayLast(cmds, 3, 0, 1);
    assert cmds[..3] == cmds;
  }

  /**
   * The tie-break of a component can tie, although the source takes it for
   * granted that it cannot: I and J are led by one replica, share a component
   * and a sequence number, and interfere. Replicas 0 and 2 have executed the same
   * instances, in different orders, and disagree on the value of the key.
   */
  lemma TiesDiverge() returns (c: Cluster)
    ensures Reachable(c) && Base(c) && c.conf == CONF && 0 in c.nodes && 2 in c.nodes
    ensures forall a :: a in CYCLE ==> Executes(c, 0, a) && Executes(c, 2, a)
    ensures ExecutedIds(c.nodes[0]) == ExecutedIds(c.nodes[2]) == CYCLE
    ensures Interference.Clash(c, I, J) && Tied(c, I, J)
    ensures ExecutedFirst(c, 0, I, J) && ExecutedFirst(c, 2, J, I)
    ensures Store.Replay(c.nodes[0].executed) != Store.Replay(c.nodes[2].executed)
  {
    hide Reachable, GlobalInv, Looks, Base, Tied, Concat, ExecutedFirst, Interference.Clash, Store.Replay;
    c := WholeRun();
    EndFacts(c, 0);
    EndFacts(c, 2);
    Delivered3(c, 0, [I, J, K]);
    Delivered3(c, 2, [J, I, K]);
    LastWriteWins(c.nodes[0].executed, I, J);
    LastWriteWins(c.nodes[2].executed, J, I);
    EndOrder(c);
    EndTie(c);
  }

  lemma EndOrder(c: Cluster)
    requires 0 in c.nodes && 2 in c.nodes
    requires Concat(c.nodes[0].blocks) == [I, J, K] && Concat(c.nodes[2].blocks) == [J, I, K]
    ensures ExecutedFirst(c, 0, I, J) && ExecutedFirst(c, 2, J, I)
  {
    var p, q := Concat(c.nodes[0].blocks), Concat(c.nodes[2].blocks);
    assert p[0] == I && p[1] == J && q[0] == J && q[1] == I;
  }

  lemma EndTie(c: Cluster)
    requires Reachable(c) && Base(c) && c.conf == CONF && GlobalInv(c)
    requires c.nodes[0].blocks == [[I, J, K]]
    requires forall a :: a in CYCLE ==> Executes(c, 0, a) && c.nodes[0].insts[a].cmd == Some(Cmd(a))
                                        && c.nodes[0].insts[a].Attributes() == Final(a)
    ensures Interference.Clash(c, I, J) && Tied(c, I, J)
  {
    hide Reachable, GlobalInv, Base;
    WholeComponents(c, 0, 0);
    assert I in Elems(c.nodes[0].blocks[0]) && J in Elems(c.nodes[0].blocks[0]);
    hide IsScc, Reach;
    SccMembers(CommittedGraph(c), Elems(c.nodes[0].blocks[0]), I, J);
    ExecutedIsCommitted(c, 0, I);
    ExecutedIsCommitted(c, 0, J);
    Interference.KnownCmd(c, 0, I);
    Interference.KnownCmd(c, 0, J);
  }
}

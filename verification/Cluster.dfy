/**
 * All replicas together with the messages between them, and what every run
 * keeps true of each instance.
 */
module Cluster {
  import opened Types
  import opened State
  import opened Graph
  import opened Scan
  import opened Handlers

  /**
   * Messages stay in their sender's outbox; pos says how far each link has been
   * read. Two history variables record the replicas whose PreAccept and Accept
   * replies an instance's leader has counted.
   */
  datatype Cluster = StateOf(
    conf: seq<ReplicaID>,
    nodes: map<ReplicaID, Node>,
    pos: map<(ReplicaID, ReplicaID), nat>,
    counted: map<InstanceID, set<ReplicaID>>,
    acked: map<InstanceID, set<ReplicaID>>)

  function Pos(c: Cluster, x: ReplicaID, y: ReplicaID): nat {
    if (x, y) in c.pos then c.pos[(x, y)] else 0
  }

  function Counted(c: Cluster, a: InstanceID): set<ReplicaID> {
    if a in c.counted then c.counted[a] else {}
  }

  function Acked(c: Cluster, a: InstanceID): set<ReplicaID> {
    if a in c.acked then c.acked[a] else {}
  }

  predicate Distinct(conf: seq<ReplicaID>) {
    forall i, j :: 0 <= i < j < |conf| ==> conf[i] != conf[j]
  }

  ghost predicate Base(c: Cluster) {
    && |c.conf| >= 2
    && Distinct(c.conf)
    && (forall x :: x in c.conf ==> x in c.nodes && c.nodes[x].id == x && c.nodes[x].nodes == c.conf)
  }

  function EmptyNode(x: ReplicaID, conf: seq<ReplicaID>): Node {
    Node(x, conf, map[], {}, {}, [], [], false, [], map[])
  }

  ghost predicate Init(c: Cluster) {
    && |c.conf| >= 2
    && Distinct(c.conf)
    && c.nodes == (map x | x in c.conf :: EmptyNode(x, c.conf))
    && c.pos == map[] && c.counted == map[] && c.acked == map[]
  }

  function Put(c: Cluster, x: ReplicaID, n: Node): Cluster {
    c.(nodes := c.nodes[x := n])
  }

  ghost predicate RequestStep(c: Cluster, d: Cluster, x: ReplicaID, cmd: Command)
    requires Base(c)
  {
    && x in c.conf
    && cmd.span.WellFormed()
    && d == Put(c, x, OnRequest(c.nodes[x], cmd).node)
  }

  /** Message k of x is the next one that y has to read from x. */
  predicate NextOnLink(c: Cluster, x: ReplicaID, y: ReplicaID, k: nat)
    requires x in c.nodes
  {
    && Pos(c, x, y) <= k < |c.nodes[x].msgs|
    && c.nodes[x].msgs[k].to == y
    && forall j :: Pos(c, x, y) <= j < k ==> c.nodes[x].msgs[j].to != y
  }

  /** The replies the leader counts as it reads m from x. */
  function NoteReply(c: Cluster, x: ReplicaID, y: ReplicaID, m: Message): Cluster
    requires y in c.nodes
  {
    var a := m.inst;
    if a !in c.nodes[y].insts then c
    else if (m.body.PreAcceptOK? || m.body.PreAcceptReply?) && c.nodes[y].insts[a].status == PreAccepted then
      c.(counted := c.counted[a := Counted(c, a) + {x}])
    else if m.body.AcceptOK? && c.nodes[y].insts[a].status == Accepted then
      c.(acked := c.acked[a := Acked(c, a) + {x}])
    else c
  }

  function Read(c: Cluster, x: ReplicaID, y: ReplicaID, k: nat): Cluster
    requires x in c.nodes && y in c.nodes && k < |c.nodes[x].msgs|
  {
    var d := NoteReply(c, x, y, c.nodes[x].msgs[k]);
    d.(pos := c.pos[(x, y) := k + 1])
  }

  ghost predicate DeliverStep(c: Cluster, d: Cluster, x: ReplicaID, y: ReplicaID, k: nat,
                              blocks: seq<seq<InstanceID>>)
    requires Base(c)
  {
    && x in c.conf && y in c.conf
    && NextOnLink(c, x, y, k)
    && var o := Step(c.nodes[y], c.nodes[x].msgs[k]);
       && (o.run ==> RunOk(o.node, blocks))
       && d == Put(Read(c, x, y, k), y, Finish(o, blocks))
  }

  ghost predicate TickStep(c: Cluster, d: Cluster, x: ReplicaID, order: seq<InstanceID>)
    requires Base(c)
  {
    && x in c.conf
    && NoDup(order) && Elems(order) == c.nodes[x].timers
    && d == Put(c, x, Tick(c.nodes[x], order))
  }

  ghost predicate Next(c: Cluster, d: Cluster)
    requires Base(c)
  {
    || (exists x, cmd :: RequestStep(c, d, x, cmd))
    || (exists x, y, k, blocks :: DeliverStep(c, d, x, y, k, blocks))
    || (exists x, order :: TickStep(c, d, x, order))
  }

  /** A state some run from an initial state arrives at. */
  ghost predicate IsRun(run: seq<Cluster>) {
    && |run| > 0
    && Init(run[0])
    && (forall i :: 0 <= i < |run| - 1 ==> Base(run[i]) && Next(run[i], run[i + 1]))
  }

  ghost predicate Reachable(c: Cluster) {
    exists run :: IsRun(run) && run[|run| - 1] == c
  }

  /** No link has been read past its end. */
  ghost predicate PosOk(c: Cluster)
    requires Base(c)
  {
    forall x, y {:trigger Pos(c, x, y)} :: x in c.conf && y in c.conf ==> Pos(c, x, y) <= |c.nodes[x].msgs|
  }

  // ----- What every reachable state keeps, one instance at a time -----

  function Kind(b: Body): nat {
    match b
    case PreAcceptMsg(_, _) => 0
    case PreAcceptOK => 1
    case PreAcceptReply(_) => 1
    case AcceptMsg(_) => 2
    case AcceptOK => 3
    case CommitMsg(_, _) => 4
  }

  /** a's leader, and the leader's own copy of a. */
  function Leader(c: Cluster, a: InstanceID): Node
    requires a.replica in c.nodes
  {
    c.nodes[a.replica]
  }

  predicate Led(c: Cluster, a: InstanceID) {
    && a.replica in c.conf && a.replica in c.nodes
    && a in Leader(c, a).insts && a in Leader(c, a).pre
    && Leader(c, a).insts[a].cmd.Some?
    && Leader(c, a).insts[a].cmd.value.span.WellFormed()
  }

  predicate LeaderCopy(c: Cluster, a: InstanceID)
    requires Led(c, a)
  {
    var inst, pre := Leader(c, a).insts[a], Leader(c, a).pre[a];
    && inst.status != NoStatus
    && pre.deps <= inst.deps && pre.seqNum <= inst.seqNum
    && (!inst.differentReplies ==> inst.Attributes() == pre)
  }

  /** A copy held by a replica that does not lead a. */
  predicate AcceptorCopy(c: Cluster, x: ReplicaID, a: InstanceID)
    requires Led(c, a) && x in c.nodes && a in c.nodes[x].insts
  {
    var inst, own := c.nodes[x].insts[a], Leader(c, a).insts[a];
    && a in c.nodes[x].pre
    && inst.status != NoStatus
    && inst.cmd == own.cmd
    && Leader(c, a).pre[a].deps <= c.nodes[x].pre[a].deps
    && Leader(c, a).pre[a].seqNum <= c.nodes[x].pre[a].seqNum
    && (inst.status == PreAccepted ==> inst.Attributes() == c.nodes[x].pre[a])
    && (Rank(inst.status) >= 2 ==> inst.Attributes() == own.Attributes() && Rank(own.status) >= 2)
    && (Rank(inst.status) >= 3 ==> Rank(own.status) >= 3)
  }

  ghost predicate CopiesOk(c: Cluster, a: InstanceID)
    requires Base(c)
  {
    forall x {:trigger c.nodes[x]} :: x in c.conf && a in c.nodes[x].insts ==>
      Led(c, a) && if x == a.replica then LeaderCopy(c, a) else AcceptorCopy(c, x, a)
  }

  /** A message about an instance, given what the replicas now hold. */
  predicate MsgOk(c: Cluster, x: ReplicaID, m: Message)
    requires x in c.nodes
  {
    var a := m.inst;
    && Led(c, a)
    && m.to in c.conf && m.to != x
    && var own, pre := Leader(c, a).insts[a], Leader(c, a).pre[a];
       match m.body
       case PreAcceptMsg(cmd, attrs) => x == a.replica && own.cmd == Some(cmd) && attrs == pre
       case AcceptMsg(attrs) => x == a.replica && Rank(own.status) >= 2 && attrs == own.Attributes()
       case CommitMsg(cmd, attrs) =>
         x == a.replica && Rank(own.status) >= 3 && own.cmd == Some(cmd) && attrs == own.Attributes()
       case PreAcceptOK => Answers(c, x, m) && c.nodes[x].pre[a] == pre
       case PreAcceptReply(u) => Answers(c, x, m) && c.nodes[x].pre[a] == u && u != pre
       case AcceptOK => Answers(c, x, m) && Rank(c.nodes[x].insts[a].status) >= 2 && Rank(own.status) >= 2
  }

  predicate Answers(c: Cluster, x: ReplicaID, m: Message)
    requires x in c.nodes
  {
    m.to == m.inst.replica && m.inst in c.nodes[x].insts && m.inst in c.nodes[x].pre
  }

  ghost predicate MsgsOk(c: Cluster, a: InstanceID)
    requires Base(c)
  {
    forall x, k {:trigger c.nodes[x].msgs[k]} ::
      x in c.conf && 0 <= k < |c.nodes[x].msgs| && c.nodes[x].msgs[k].inst == a
      ==> MsgOk(c, x, c.nodes[x].msgs[k])
  }

  /** Message k of x is of this kind, about a, for y. */
  predicate Is(c: Cluster, x: ReplicaID, k: int, a: InstanceID, kind: nat, y: ReplicaID)
    requires x in c.nodes
  {
    && 0 <= k < |c.nodes[x].msgs|
    && c.nodes[x].msgs[k].inst == a
    && Kind(c.nodes[x].msgs[k].body) == kind
    && c.nodes[x].msgs[k].to == y
  }

  /** No replica sends another the same kind of message about a twice. */
  ghost predicate SentOnce(c: Cluster, a: InstanceID)
    requires Base(c)
  {
    forall x, y, kind, j, k {:trigger Is(c, x, j, a, kind, y), Is(c, x, k, a, kind, y)} ::
      x in c.conf && Is(c, x, j, a, kind, y) && Is(c, x, k, a, kind, y) ==> j == k
  }

  /** The leader has asked y to pre-accept a. */
  ghost predicate Asked(c: Cluster, a: InstanceID, y: ReplicaID)
    requires a.replica in c.nodes
  {
    exists j :: Is(c, a.replica, j, a, 0, y)
  }

  /** y holds a copy of a exactly when it has read the request to pre-accept it. */
  ghost predicate AskedFirst(c: Cluster, a: InstanceID)
    requires Base(c)
  {
    a.replica in c.conf ==>
      && (forall y, k {:trigger Is(c, a.replica, k, a, 0, y)} ::
            y in c.conf && Is(c, a.replica, k, a, 0, y) ==>
              (a in c.nodes[y].insts <==> k < Pos(c, a.replica, y)))
      && (a in Leader(c, a).insts ==>
            forall y {:trigger Asked(c, a, y)} :: y in c.conf && y != a.replica ==> Asked(c, a, y))
  }

  /** Of two kinds of message about a to y, the lower kind was sent first. */
  ghost predicate KindsInOrder(c: Cluster, a: InstanceID)
    requires Base(c)
  {
    a.replica in c.conf ==>
      forall y, j, k, low, high {:trigger Is(c, a.replica, j, a, low, y), Is(c, a.replica, k, a, high, y)} ::
        Is(c, a.replica, j, a, low, y) && Is(c, a.replica, k, a, high, y) && low < high ==> j < k
  }

  /** What y has not read yet, its copy does not show yet. */
  ghost predicate NotYetRead(c: Cluster, a: InstanceID)
    requires Base(c)
  {
    a.replica in c.conf ==>
      && (forall y, k {:trigger Is(c, a.replica, k, a, 2, y)} ::
            y in c.conf && Is(c, a.replica, k, a, 2, y) && a in c.nodes[y].insts
            && Pos(c, a.replica, y) <= k
            ==> Rank(c.nodes[y].insts[a].status) < 2)
      && (forall y, k {:trigger Is(c, a.replica, k, a, 4, y)} ::
            y in c.conf && Is(c, a.replica, k, a, 4, y) && a in c.nodes[y].insts
            && Pos(c, a.replica, y) <= k
            ==> Rank(c.nodes[y].insts[a].status) < 3)
  }

  /** A replica whose PreAccept reply the leader has merged. */
  ghost predicate CountedOk(c: Cluster, a: InstanceID, x: ReplicaID)
    requires Led(c, a)
  {
    && x in c.conf && x in c.nodes && x != a.replica
    && a in c.nodes[x].insts && a in c.nodes[x].pre
    && c.nodes[x].pre[a].deps <= Leader(c, a).insts[a].deps
    && c.nodes[x].pre[a].seqNum <= Leader(c, a).insts[a].seqNum
    && (!Leader(c, a).insts[a].differentReplies ==> c.nodes[x].pre[a] == Leader(c, a).pre[a])
    && (forall k {:trigger Is(c, x, k, a, 1, a.replica)} ::
          Is(c, x, k, a, 1, a.replica) ==> k < Pos(c, x, a.replica))
  }

  /** A replica whose Accept reply the leader has counted. */
  ghost predicate AckedOk(c: Cluster, a: InstanceID, x: ReplicaID)
    requires Led(c, a)
  {
    && x in c.conf && x in c.nodes && x != a.replica
    && a in c.nodes[x].insts
    && Rank(c.nodes[x].insts[a].status) >= 2
    && (forall k {:trigger Is(c, x, k, a, 3, a.replica)} ::
          Is(c, x, k, a, 3, a.replica) ==> k < Pos(c, x, a.replica))
  }

  predicate FastChosen(c: Cluster, a: InstanceID)
    requires Led(c, a)
  {
    !Leader(c, a).insts[a].differentReplies && FastQuorum(c.conf, |Counted(c, a)| + 1)
  }

  predicate SlowChosen(c: Cluster, a: InstanceID) {
    Quorum(c.conf, |Acked(c, a)| + 1)
  }

  ghost predicate CountsOk(c: Cluster, a: InstanceID)
    requires Base(c)
  {
    if a.replica !in c.conf || a !in Leader(c, a).insts then Counted(c, a) == {} && Acked(c, a) == {}
    else
      && Led(c, a)
      && var own := Leader(c, a).insts[a];
         && own.preAcceptReplies == |Counted(c, a)|
         && own.acceptReplies == |Acked(c, a)|
         && (forall x :: x in Counted(c, a) ==> CountedOk(c, a, x))
         && (forall x :: x in Acked(c, a) ==> AckedOk(c, a, x))
         && (Acked(c, a) != {} ==> Rank(own.status) >= 2)
         && (Rank(own.status) >= 2 ==> Quorum(c.conf, |Counted(c, a)| + 1))
         && (Rank(own.status) >= 3 ==> FastChosen(c, a) || SlowChosen(c, a))
  }

  ghost predicate InstanceInv(c: Cluster, a: InstanceID)
    requires Base(c)
  {
    && CopiesOk(c, a)
    && MsgsOk(c, a)
    && SentOnce(c, a)
    && AskedFirst(c, a)
    && KindsInOrder(c, a)
    && NotYetRead(c, a)
    && CountsOk(c, a)
  }
}

/**
 * Replicas that have executed the same instances hold the same key/value
 * store, and gave every command the same answer.
 */
module Convergence {
  import opened Types
  import opened State
  import opened Graph
  import opened Scan
  import opened Handlers
  import opened Cluster
  import opened Local
  import opened Runs
  import opened Growth
  import opened Safety
  import opened Interference
  import opened History
  import opened Order
  import opened Store

  /** Every command in the system is one the adapter proposed. */
  ghost predicate FromAdapter(c: Cluster) {
    forall x, a {:trigger c.nodes[x].insts[a]} ::
      x in c.conf && x in c.nodes && a in c.nodes[x].insts && c.nodes[x].insts[a].cmd.Some?
      ==> Wrapped(c.nodes[x].insts[a].cmd.value)
  }

  // ----- Commands come from requests -----

  /** A step whose request, if it is one, comes from the adapter. */
  ghost predicate AdapterStep(c: Cluster, d: Cluster)
    requires Base(c)
  {
    || (exists x, cmd :: RequestStep(c, d, x, cmd) && Wrapped(cmd))
    || (exists x, y, k, blocks :: DeliverStep(c, d, x, y, k, blocks))
    || (exists x, order :: TickStep(c, d, x, order))
  }

  /** A run in which clients go through the adapter. */
  ghost predicate AdapterRun(run: seq<Cluster>) {
    && IsRun(run)
    && forall i :: 0 <= i < |run| - 1 ==> Base(run[i]) && AdapterStep(run[i], run[i + 1])
  }

  ghost predicate LedByAdapter(c: Cluster) {
    forall a :: Led(c, a) ==> Wrapped(Leader(c, a).insts[a].cmd.value)
  }

  /** Whatever new instances a step gives their leaders hold the adapter's commands. */
  ghost predicate NewWrapped(c: Cluster, d: Cluster)
    requires Base(c) && Base(d) && c.conf == d.conf
  {
    forall a :: Led(d, a) && a !in c.nodes[a.replica].insts ==> Wrapped(Leader(d, a).insts[a].cmd.value)
  }

  lemma LedStays(c: Cluster, d: Cluster)
    requires GlobalInv(c) && LedByAdapter(c) && Base(c) && Base(d) && AllGrown(c, d) && NewWrapped(c, d)
    ensures LedByAdapter(d)
  {
    forall a | Led(d, a) ensures Wrapped(Leader(d, a).insts[a].cmd.value) {
      if a in c.nodes[a.replica].insts {
        KnownCmd(c, a.replica, a);
        LeaderKeeps(c, d, a);
      }
    }
  }

  lemma RequestNew(c: Cluster, d: Cluster, x: ReplicaID, cmd: Command)
    requires GlobalInv(c) && Base(c) && Base(d) && RequestStep(c, d, x, cmd) && Wrapped(cmd)
    ensures NewWrapped(c, d)
  {
    hide GlobalInv, OnRequest;
    LocalAt(c, x);
    RequestOk(c.nodes[x], cmd);
    RequestForm(c.nodes[x], cmd);
  }

  /** A message never gives a replica a new instance of its own. */
  lemma DispatchKeys(n: Node, m: Message)
    requires m.inst in n.insts
    ensures Dispatch(n, m).node.insts.Keys == n.insts.Keys
  {
    hide OnEitherPreAcceptReply, OnPreAccept, OnAcceptOK, OnCommit;
    match m.body
    case PreAcceptMsg(cmd, attrs) => PreAcceptKeys(n, m.inst, cmd, attrs);
    case PreAcceptOK =>
      var inst := n.insts[m.inst];
      EitherKeys(SetInst(n, m.inst, inst.(preAcceptReplies := inst.preAcceptReplies + 1)), m.inst);
    case PreAcceptReply(updated) =>
      EitherKeys(SetInst(n, m.inst, MergeReply(n.insts[m.inst], updated)), m.inst);
    case AcceptMsg(_) =>
    case AcceptOK => AcceptOKKeys(n, m.inst);
    case CommitMsg(cmd, attrs) => CommitKeys(n, m.inst, cmd, attrs);
  }

  lemma TransitionKeys(n: Node, id: InstanceID, to: Status)
    requires id in n.insts
    ensures TransitionTo(n, id, to).node.insts.Keys == n.insts.Keys
  {
    hide BroadcastMsgs;
  }

  lemma EitherKeys(n: Node, id: InstanceID)
    requires id in n.insts
    ensures OnEitherPreAcceptReply(n, id).node.insts.Keys == n.insts.Keys
  {
    hide TransitionTo;
    TransitionKeys(UnregisterTimer(n, id), id, Committed);
    TransitionKeys(UnregisterTimer(n, id), id, Accepted);
  }

  lemma PreAcceptKeys(n: Node, id: InstanceID, cmd: Command, attrs: Attrs)
    requires id in n.insts
    ensures OnPreAccept(n, id, cmd, attrs).node.insts.Keys == n.insts.Keys
  {
    hide SeqAndDeps, LocalAttrs;
  }

  lemma AcceptOKKeys(n: Node, id: InstanceID)
    requires id in n.insts
    ensures OnAcceptOK(n, id).node.insts.Keys == n.insts.Keys
  {
    hide TransitionTo;
    var inst := n.insts[id];
    TransitionKeys(SetInst(n, id, inst.(acceptReplies := inst.acceptReplies + 1)), id, Committed);
  }

  lemma CommitKeys(n: Node, id: InstanceID, cmd: Command, attrs: Attrs)
    requires id in n.insts
    ensures OnCommit(n, id, cmd, attrs).node.insts.Keys == n.insts.Keys
  {
  }

  lemma StepKeys(n: Node, m: Message)
    ensures forall b :: b in Step(n, m).node.insts && b !in n.insts ==> b.replica != n.id
  {
    hide Dispatch;
    if m.inst in n.insts {
      DispatchKeys(n, m);
      assert forall b :: b in Dispatch(n, m).node.insts.Keys ==> b in n.insts.Keys;
    } else {
      var s := SetInst(n, m.inst, NEW_INSTANCE);
      DispatchKeys(s, m);
      assert forall b :: b in Dispatch(s, m).node.insts.Keys ==> b in s.insts.Keys;
    }
  }

  lemma FinishKeys(o: Outcome, blocks: seq<seq<InstanceID>>)
    ensures Finish(o, blocks).insts.Keys == o.node.insts.Keys
  {
  }

  /** A change at one replica that gives it no new instance of its own row gives nobody one. */
  lemma NothingNew(c: Cluster, d: Cluster, y: ReplicaID)
    requires Base(c) && Base(d) && c.conf == d.conf && y in c.conf && y in d.nodes
    requires d.nodes == c.nodes[y := d.nodes[y]]
    requires forall b :: b in d.nodes[y].insts && b !in c.nodes[y].insts ==> b.replica != y
    ensures NewWrapped(c, d)
  {
  }

  lemma DeliverNew(c: Cluster, d: Cluster, x: ReplicaID, y: ReplicaID, k: nat, blocks: seq<seq<InstanceID>>)
    requires Base(c) && Base(d) && DeliverStep(c, d, x, y, k, blocks)
    ensures c.conf == d.conf && NewWrapped(c, d)
  {
    var n, m := c.nodes[y], c.nodes[x].msgs[k];
    hide Step, Finish, RunOk, NextOnLink, NewWrapped;
    StepKeys(n, m);
    FinishKeys(Step(n, m), blocks);
    assert forall b :: b in d.nodes[y].insts.Keys ==> b in Step(n, m).node.insts.Keys;
    NothingNew(c, d, y);
  }

  lemma TickNew(c: Cluster, d: Cluster, x: ReplicaID, order: seq<InstanceID>)
    requires GlobalInv(c) && Base(c) && Base(d) && TickStep(c, d, x, order)
    ensures NewWrapped(c, d)
  {
    hide GlobalInv, Tick, LocalOk;
    LocalAt(c, x);
    assert forall id :: id in order ==> id in Elems(order);
    TickSettled(c.nodes[x], order);
    assert forall b :: b in d.nodes[x].insts.Keys ==> b in c.nodes[x].insts.Keys;
  }

  lemma AdapterKeeps(c: Cluster, d: Cluster)
    requires GlobalInv(c) && LedByAdapter(c) && Base(c) && Next(c, d) && AdapterStep(c, d)
    ensures LedByAdapter(d)
  {
    hide GlobalInv, LedByAdapter, NewWrapped, RequestStep, DeliverStep, TickStep, AllGrown, Base;
    NextGrows(c, d);
    assert c.conf == d.conf by { ConfKept(c, d); }
    if exists x, cmd :: RequestStep(c, d, x, cmd) && Wrapped(cmd) {
      var x, cmd :| RequestStep(c, d, x, cmd) && Wrapped(cmd);
      RequestNew(c, d, x, cmd);
    } else if exists x, y, k, blocks :: DeliverStep(c, d, x, y, k, blocks) {
      var x, y, k, blocks :| DeliverStep(c, d, x, y, k, blocks);
      DeliverNew(c, d, x, y, k, blocks);
    } else {
      var x, order :| TickStep(c, d, x, order);
      TickNew(c, d, x, order);
    }
    LedStays(c, d);
  }

  lemma ConfKept(c: Cluster, d: Cluster)
    requires Base(c) && Base(d) && AllGrown(c, d)
    ensures c.conf == d.conf
  {
  }

  lemma {:induction false} AdapterLeads(run: seq<Cluster>, i: nat)
    requires AdapterRun(run) && i < |run|
    ensures LedByAdapter(run[i])
  {
    hide LedByAdapter, GlobalInv, AdapterStep, Next;
    if i == 0 {
      NobodyLeads(run[0]);
    } else {
      AdapterLeads(run, i - 1);
      RunInv(run, i - 1);
      AdapterKeeps(run[i - 1], run[i]);
    }
  }

  lemma NobodyLeads(c: Cluster)
    requires Init(c)
    ensures LedByAdapter(c)
  {
  }

  /** In every state of such a run every command is one that the adapter proposed. */
  lemma AdapterCommands(run: seq<Cluster>, i: nat)
    requires AdapterRun(run) && i < |run|
    ensures Reachable(run[i]) && Base(run[i]) && FromAdapter(run[i])
  {
    hide GlobalInv, IsRun;
    AdapterLeads(run, i);
    RunInv(run, i);
    RunReaches(run, i);
    var c := run[i];
    InvBase(c);
    forall x, a | x in c.conf && x in c.nodes && a in c.nodes[x].insts && c.nodes[x].insts[a].cmd.Some?
      ensures Wrapped(c.nodes[x].insts[a].cmd.value)
    {
      KnownCmd(c, x, a);
    }
  }

  /** No two interfering instances that x has executed tie. */
  ghost predicate NoTies(c: Cluster, x: ReplicaID)
    requires Base(c)
  {
    forall a, b {:trigger Clash(c, a, b)} ::
      a != b && Executes(c, x, a) && Executes(c, x, b) && Clash(c, a, b) ==> !Tied(c, a, b)
  }

  /** The commands of the instances x has executed. */
  function CommandsOf(n: Node): map<InstanceID, Command> {
    map a | a in n.insts && n.insts[a].status == Executed && n.insts[a].cmd.Some? :: n.insts[a].cmd.value
  }

  lemma CommandOf(c: Cluster, x: ReplicaID, a: InstanceID)
    requires GlobalInv(c) && Executes(c, x, a)
    ensures Led(c, a) && a in CommandsOf(c.nodes[x])
    ensures Leader(c, a).insts[a].cmd == Some(CommandsOf(c.nodes[x])[a]) == c.nodes[x].insts[a].cmd
  {
    hide InstanceInv;
    LeaderDecides(c, x, a);
  }

  /** The log of y, read with the commands as x knows them. */
  lemma LogNamed(c: Cluster, x: ReplicaID, y: ReplicaID)
    requires Reachable(c) && x in c.conf && y in c.conf && x in c.nodes && y in c.nodes
    requires ExecutedIds(c.nodes[x]) == ExecutedIds(c.nodes[y])
    ensures Named(CommandsOf(c.nodes[x]), Concat(c.nodes[y].blocks), c.nodes[y].executed)
  {
    hide Reachable, GlobalInv, Concat, NoDup;
    ReachableInv(c);
    DeliveredOnce(c, y);
    var ids := Concat(c.nodes[y].blocks);
    forall i | 0 <= i < |ids|
      ensures ids[i] in CommandsOf(c.nodes[x]) && c.nodes[y].executed[i] == CommandsOf(c.nodes[x])[ids[i]]
    {
      var a := ids[i];
      assert a in Elems(ids);
      assert a in ExecutedIds(c.nodes[x]);
      CommandOf(c, x, a);
      CommandOf(c, y, a);
    }
  }

  lemma ConflictOrder(c: Cluster, x: ReplicaID, y: ReplicaID)
    requires Reachable(c) && x in c.conf && y in c.conf && FromAdapter(c)
    requires Base(c) && NoTies(c, x)
    requires ExecutedIds(c.nodes[x]) == ExecutedIds(c.nodes[y])
    ensures SameConflicts(CommandsOf(c.nodes[x]), Concat(c.nodes[x].blocks), Concat(c.nodes[y].blocks))
  {
    hide Reachable, GlobalInv, Concat, NoDup, Tied, Precedes, Base, Conflicting, Clash, Conflict;
    ReachableInv(c);
    NamesNode(c, x);
    NamesNode(c, y);
    DeliveredOnce(c, x);
    DeliveredOnce(c, y);
    var n := c.nodes[x];
    var ids, ids' := Concat(n.blocks), Concat(c.nodes[y].blocks);
    assert forall a :: a in ids <==> a in Elems(ids);
    forall a | a in ids ensures a in CommandsOf(n) && Executes(c, x, a) && Executes(c, y, a) {
      assert a in ExecutedIds(n) && a in ExecutedIds(c.nodes[y]);
      CommandOf(c, x, a);
    }
    forall a, b | a in ids && b in ids && a != b && Conflicting(CommandsOf(n)[a], CommandsOf(n)[b])
      ensures Precedes(ids, a, b) <==> Precedes(ids', a, b)
    {
      ConflictingClash(c, x, a, b);
      SameOrder(c, x, y, a, b);
      assert ExecutedFirst(c, x, a, b) <==> ExecutedFirst(c, y, a, b);
    }
  }

  lemma ConflictingClash(c: Cluster, x: ReplicaID, a: InstanceID, b: InstanceID)
    requires GlobalInv(c) && FromAdapter(c) && Executes(c, x, a) && Executes(c, x, b)
    requires a in CommandsOf(c.nodes[x]) && b in CommandsOf(c.nodes[x])
    requires Conflicting(CommandsOf(c.nodes[x])[a], CommandsOf(c.nodes[x])[b])
    ensures Clash(c, a, b)
  {
    hide GlobalInv;
    CommandOf(c, x, a);
    CommandOf(c, x, b);
    assert Wrapped(c.nodes[x].insts[a].cmd.value) && Wrapped(c.nodes[x].insts[b].cmd.value);
    WrapPreservesConflict(CommandsOf(c.nodes[x])[a], CommandsOf(c.nodes[x])[b]);
  }

  lemma SameStores(c: Cluster, x: ReplicaID, y: ReplicaID)
    requires Reachable(c) && x in c.conf && y in c.conf && FromAdapter(c)
    requires Base(c) && NoTies(c, x)
    requires ExecutedIds(c.nodes[x]) == ExecutedIds(c.nodes[y])
    ensures Replay(c.nodes[x].executed) == Replay(c.nodes[y].executed)
  {
    hide Reachable, Concat, NoTies, FromAdapter, Base, SameConflicts, Named;
    NamesNode(c, x);
    NamesNode(c, y);
    ConflictOrder(c, x, y);
    LogNamed(c, x, x);
    LogNamed(c, x, y);
    SameStore(CommandsOf(c.nodes[x]), Concat(c.nodes[x].blocks), Concat(c.nodes[y].blocks),
              c.nodes[x].executed, c.nodes[y].executed);
  }

  lemma SameAnswers(c: Cluster, x: ReplicaID, y: ReplicaID, n: nat, m: nat)
    requires Reachable(c) && x in c.conf && y in c.conf && FromAdapter(c)
    requires Base(c) && NoTies(c, x)
    requires ExecutedIds(c.nodes[x]) == ExecutedIds(c.nodes[y])
    requires n < |Concat(c.nodes[x].blocks)| && m < |Concat(c.nodes[y].blocks)|
    requires Concat(c.nodes[x].blocks)[n] == Concat(c.nodes[y].blocks)[m]
    ensures n < |c.nodes[x].executed| && m < |c.nodes[y].executed|
    ensures AnswerAt(c.nodes[x].executed, n) == AnswerAt(c.nodes[y].executed, m)
  {
    hide Reachable, Concat, NoTies, FromAdapter, Base, SameConflicts;
    NamesNode(c, x);
    NamesNode(c, y);
    ConflictOrder(c, x, y);
    LogNamed(c, x, x);
    LogNamed(c, x, y);
    SameAnswer(CommandsOf(c.nodes[x]), Concat(c.nodes[x].blocks), Concat(c.nodes[y].blocks),
               c.nodes[x].executed, c.nodes[y].executed, n, m);
  }

  /** In every state of a run through the adapter: equal sets of executed instances, conflicts in one order. */
  lemma OrdersAgree(run: seq<Cluster>, i: nat, x: ReplicaID, y: ReplicaID)
    requires AdapterRun(run) && i < |run| && x in run[i].conf && y in run[i].conf
    requires Base(run[i]) && NoTies(run[i], x)
    requires ExecutedIds(run[i].nodes[x]) == ExecutedIds(run[i].nodes[y])
    ensures SameConflicts(CommandsOf(run[i].nodes[x]),
                          Concat(run[i].nodes[x].blocks), Concat(run[i].nodes[y].blocks))
  {
    hide AdapterRun, Reachable, FromAdapter, NoTies, Concat, SameConflicts;
    AdapterCommands(run, i);
    ConflictOrder(run[i], x, y);
  }

  /** Then the stores are equal. */
  lemma StoresAgree(run: seq<Cluster>, i: nat, x: ReplicaID, y: ReplicaID)
    requires AdapterRun(run) && i < |run| && x in run[i].conf && y in run[i].conf
    requires Base(run[i]) && NoTies(run[i], x)
    requires ExecutedIds(run[i].nodes[x]) == ExecutedIds(run[i].nodes[y])
    ensures Replay(run[i].nodes[x].executed) == Replay(run[i].nodes[y].executed)
  {
    hide AdapterRun, Reachable, FromAdapter, NoTies;
    AdapterCommands(run, i);
    SameStores(run[i], x, y);
  }

  /** And the instance that stands at n in one log and at m in the other was answered alike. */
  lemma AnswersAgree(run: seq<Cluster>, i: nat, x: ReplicaID, y: ReplicaID, n: nat, m: nat)
    requires AdapterRun(run) && i < |run| && x in run[i].conf && y in run[i].conf
    requires Base(run[i]) && NoTies(run[i], x)
    requires ExecutedIds(run[i].nodes[x]) == ExecutedIds(run[i].nodes[y])
    requires n < |Concat(run[i].nodes[x].blocks)| && m < |Concat(run[i].nodes[y].blocks)|
    requires Concat(run[i].nodes[x].blocks)[n] == Concat(run[i].nodes[y].blocks)[m]
    ensures n < |run[i].nodes[x].executed| && m < |run[i].nodes[y].executed|
    ensures AnswerAt(run[i].nodes[x].executed, n) == AnswerAt(run[i].nodes[y].executed, m)
  {
    hide AdapterRun, Reachable, FromAdapter, NoTies, Concat;
    AdapterCommands(run, i);
    SameAnswers(run[i], x, y, n, m);
  }
}

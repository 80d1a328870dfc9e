/**
 * The replica as the program keeps it: instances and timers updated in place,
 * an outbox that grows and is handed out, an executor that runs whenever
 * something commits. Every method is proved to do what Handlers says.
 */
module Replica {
  import opened Types
  import S = State
  import opened Graph
  import opened Scan
  import opened Schedule
  import opened Execution
  import opened Handlers
  import opened Timers
  import History
  import Local
  import Progress
  import Proposals

  class Instance {
    const id: InstanceID
    const slowPathTimer: TickingTimer
    var status: S.Status
    var cmd: Option<Command>
    var seqNum: SeqNum
    var deps: set<InstanceID>
    var preAcceptReplies: nat
    var differentReplies: bool
    var acceptReplies: nat

    constructor (id: InstanceID)
      ensures this.id == id == slowPathTimer.owner && fresh(slowPathTimer)
      ensures Value() == S.NEW_INSTANCE
    {
      this.id := id;
      slowPathTimer := new TickingTimer(id);
      status, cmd, seqNum, deps := S.NoStatus, None, 0, {};
      preAcceptReplies, differentReplies, acceptReplies := 0, false, 0;
    }

    ghost function Value(): S.Instance
      reads this, slowPathTimer
    {
      S.Instance(status, cmd, seqNum, deps, preAcceptReplies, differentReplies, acceptReplies, slowPathTimer.Value())
    }
  }

  class Epaxos {
    const id: ReplicaID
    const nodes: seq<ReplicaID>
    const executor: Executor
    var commands: map<InstanceID, Instance>
    var timers: set<InstanceID>
    var msgs: seq<S.Message>
    var executedCmds: seq<Command>
    var panicked: bool

    /** What has been handed out already, and the history variables of the model. */
    ghost var sent: seq<S.Message>
    ghost var delivered: seq<Command>
    ghost var blocks: seq<seq<InstanceID>>
    ghost var pre: map<InstanceID, Attrs>

    ghost function Cells(): set<Instance>
      reads this`commands
    {
      set i | i in commands :: commands[i]
    }

    ghost function CellTimers(): set<TickingTimer>
      reads this`commands
    {
      set i | i in commands :: commands[i].slowPathTimer
    }

    ghost predicate InTree(inst: Instance)
      reads this`commands
    {
      inst.id in commands && commands[inst.id] == inst
    }

    /** Every instance is filed under its own id and owns its timer. */
    ghost predicate Filed()
      reads this`commands
    {
      forall i :: i in commands ==> commands[i].id == i && commands[i].slowPathTimer.owner == i
    }

    ghost function Insts(): S.Instances
      reads this`commands, Cells(), CellTimers()
    {
      map i | i in commands :: commands[i].Value()
    }

    /** The executor's vertices are committed instances, with their attributes. */
    ghost predicate Linked()
      reads this`commands, Cells(), executor
    {
      && executor.Named() && executor.Idle()
      && forall i :: i in executor.vertices ==>
           && i in commands && commands[i].status == S.Committed && commands[i].cmd.Some?
           && Elems(executor.vertices[i].deps) == commands[i].deps
           && executor.vertices[i].seqNum == commands[i].seqNum
    }

    ghost predicate Valid()
      reads this`commands, this`timers, Cells(), executor
    {
      Filed() && Linked() && timers <= commands.Keys
    }

    /** The replica's state is what o says, its executor having run as blocks bs tell. */
    ghost predicate Ends(o: Outcome, bs: seq<seq<InstanceID>>)
      reads this, Cells(), CellTimers(), executor
    {
      && (o.run ==> RunOk(o.node, bs))
      && View() == Finish(o, bs)
    }

    ghost function View(): S.Node
      reads this, Cells(), CellTimers(), executor
    {
      S.Node(id, nodes, Insts(), timers, executor.vertices.Keys, sent + msgs, delivered + executedCmds,
             panicked, blocks, pre)
    }

    ghost function Owned(): set<object>
      reads this, executor
    {
      Cells() + CellTimers() + executor.Nodes() + {executor}
    }

    constructor (id: ReplicaID, nodes: seq<ReplicaID>)
      ensures Valid() && fresh(Owned())
      ensures this.id == id && this.nodes == nodes
      ensures View() == S.Node(id, nodes, map[], {}, {}, [], [], false, [], map[])
    {
      this.id, this.nodes := id, nodes;
      executor := new Executor();
      commands, timers, msgs, executedCmds, panicked := map[], {}, [], [], false;
      sent, delivered, blocks, pre := [], [], [], map[];
    }

    // ----- Lookups and the dependency scan -----

    method MaxInstanceNum(r: ReplicaID) returns (m: nat)
      requires Filed()
      ensures m == MaxNum(Insts(), r)
    {
      m := 0;
      var todo := commands.Keys;
      while todo != {}
        invariant todo <= commands.Keys
        invariant forall i :: i in commands && i !in todo && i.replica == r ==> i.num <= m
        invariant m == 0 || InstanceID(r, m) in commands
        decreases todo
      {
        var i :| i in todo;
        if i.replica == r && i.num > m {
          m := i.num;
        }
        todo := todo - {i};
      }
      assert InstanceID(r, m) in Insts() ==> m <= MaxNum(Insts(), r);
    }

    /** One replica's row, newest first, added to what earlier rows gave. */
    method ScanReplica(r: ReplicaID, cmd: Command, ignored: InstanceID, acc: Found, ghost insts: S.Instances)
      returns (f: Found)
      requires Filed() && acc.ok && insts == Insts()
      ensures var all := Merge(acc, ScanRow(insts, r, MaxNum(insts, r) + 1, cmd, ignored, {}));
              f.ok == all.ok && (f.ok ==> f == all)
    {
      hide Single, RangesOverlap;
      var n := MaxInstanceNum(r);
      n := n + 1;
      ghost var all := Merge(acc, ScanRow(insts, r, n, cmd, ignored, {}));
      f := acc;
      var group: set<Key> := {};
      while n > 0
        invariant insts == Insts()
        invariant f.ok && Merge(f, ScanRow(insts, r, n, cmd, ignored, group)) == all
      {
        n := n - 1;
        var i := InstanceID(r, n);
        if i in commands && i != ignored {
          var inst := commands[i];
          assert insts[i] == inst.Value();
          if inst.cmd.None? {
            return Found(false, 0, {});
          }
          var other := inst.cmd.value;
          if other.Interferes(cmd) {
            if other.writing {
              var grown := group + other.span.Keys();
              if grown == group {
                MergeNote(f, ScanRow(insts, r, n, cmd, ignored, group), inst.seqNum);
                f := Note(f, inst.seqNum);
              } else if Single(grown) && cmd.span.Keys() <= grown {
                return Depend(f, inst.seqNum, i);
              } else {
                MergeDepend(f, ScanRow(insts, r, n, cmd, ignored, grown), inst.seqNum, i);
                f := Depend(f, inst.seqNum, i);
                group := grown;
              }
            } else if RangesOverlap(group, other.span.Keys()) {
              MergeNote(f, ScanRow(insts, r, n, cmd, ignored, group), inst.seqNum);
              f := Note(f, inst.seqNum);
            } else {
              MergeDepend(f, ScanRow(insts, r, n, cmd, ignored, group), inst.seqNum, i);
              f := Depend(f, inst.seqNum, i);
            }
          }
        }
      }
      assert f.deps + {} == f.deps;
      assert ScanRow(insts, r, 0, cmd, ignored, group) == Found(true, 0, {});
    }

    /** Interfering instances known here, over the rows in any order; f.ok is false on a missing command. */
    method SeqAndDepsForCommand(cmd: Command, ignored: InstanceID) returns (f: Found)
      requires Filed()
      ensures var all := SeqAndDeps(Insts(), nodes, cmd, ignored); f.ok == all.ok && (f.ok ==> f == all)
    {
      hide ScanRow, SeqAndDeps, Merge;
      ghost var insts := Insts();
      ghost var visited: seq<ReplicaID> := [];
      f := Found(true, 0, {});
      NoRows(insts, cmd, ignored);
      var rest := set r | r in nodes;
      while rest != {}
        invariant insts == Insts()
        invariant f.ok && f == SeqAndDeps(insts, visited, cmd, ignored)
        invariant forall r :: r in nodes <==> r in visited || r in rest
        decreases rest
      {
        var r :| r in rest;
        ghost var more := visited + [r];
        assert more[..|visited|] == visited && more[..|visited| + 1] == more;
        OneMoreRow(insts, more, cmd, ignored, |visited|);
        f := ScanReplica(r, cmd, ignored, f, insts);
        if !f.ok {
          NotOkAnyway(insts, more, nodes, cmd, ignored);
          assert insts == Insts();
          return;
        }
        rest, visited := rest - {r}, more;
      }
      RowOrder(insts, visited, nodes, cmd, ignored);
    }

    /** Only one instance has changed, in its own fields or in its timer. */
    twostate predicate OnlyCell(inst: Instance)
      reads this`commands, Cells(), CellTimers()
    {
      && commands == old(commands)
      && forall i :: i in commands && i != inst.id ==>
           unchanged(commands[i]) && unchanged(commands[i].slowPathTimer)
    }

    twostate lemma OneCell(inst: Instance)
      requires old(InTree(inst)) && OnlyCell(inst)
      ensures Insts() == old(Insts())[inst.id := inst.Value()]
    {
    }

    twostate lemma NoCell()
      requires commands == old(commands)
      requires forall i :: i in commands ==> unchanged(commands[i]) && unchanged(commands[i].slowPathTimer)
      ensures Insts() == old(Insts())
    {
    }

    twostate lemma StillValid(inst: Instance)
      requires old(Valid()) && old(InTree(inst)) && OnlyCell(inst)
      requires inst.id !in executor.vertices && unchanged(executor)
      requires timers <= commands.Keys
      ensures Valid()
    {
    }

    twostate lemma CellMoved(inst: Instance)
      requires old(Valid()) && old(InTree(inst)) && OnlyCell(inst) && unchanged(this) && unchanged(executor)
      requires inst.id !in executor.vertices
      ensures Valid() && View() == SetInst(old(View()), inst.id, inst.Value())
    {
      OneCell(inst);
      StillValid(inst);
    }

    // ----- Messages -----

    method SendTo(body: S.Body, to: ReplicaID, i: InstanceID)
      modifies this`msgs
      ensures msgs == old(msgs) + [S.Message(to, i, body)]
    {
      msgs := msgs + [S.Message(to, i, body)];
    }

    method Broadcast(i: InstanceID, body: S.Body)
      requires Valid()
      modifies this`msgs
      ensures Valid() && View() == Handlers.Broadcast(old(View()), i, body)
    {
      assert msgs + [] == msgs;
      for k := 0 to |nodes|
        invariant msgs == old(msgs) + BroadcastMsgs(nodes[..k], id, i, body)
      {
        assert nodes[..k + 1][..k] == nodes[..k];
        if nodes[k] != id {
          SendTo(body, nodes[k], i);
        }
      }
      assert nodes[..|nodes|] == nodes;
      assert sent + msgs == old(sent + msgs) + BroadcastMsgs(nodes, id, i, body);
    }

    method Reply(i: InstanceID, body: S.Body)
      requires Valid()
      modifies this`msgs
      ensures Valid() && View() == Handlers.Reply(old(View()), i, body)
    {
      SendTo(body, i.replica, i);
      assert sent + msgs == old(sent + msgs) + [S.Message(i.replica, i, body)];
    }

    /** Hands out what has gathered since the last time. */
    method TakeReady() returns (messages: seq<S.Message>, commandsToRun: seq<Command>)
      modifies this`msgs, this`executedCmds, this`sent, this`delivered
      ensures View() == old(View())
      ensures sent == old(sent) + messages && delivered == old(delivered) + commandsToRun
      ensures msgs == [] && executedCmds == []
    {
      messages, commandsToRun := msgs, executedCmds;
      sent, delivered := sent + msgs, delivered + executedCmds;
      msgs, executedCmds := [], [];
      assert sent + msgs == old(sent + msgs) && delivered + executedCmds == old(delivered + executedCmds);
    }

    // ----- Timers -----

    /** Only the instance's timer and its registration have changed. */
    twostate lemma CellTimed(inst: Instance)
      requires old(Valid()) && old(InTree(inst)) && OnlyCell(inst) && unchanged(inst) && unchanged(executor)
      requires msgs == old(msgs) && executedCmds == old(executedCmds) && panicked == old(panicked)
      requires sent == old(sent) && delivered == old(delivered) && blocks == old(blocks) && pre == old(pre)
      requires timers <= commands.Keys
      ensures Valid()
      ensures View() == SetInst(old(View()), inst.id, old(inst.Value()).(timer := inst.slowPathTimer.Value())).(timers := timers)
    {
      OneCell(inst);
    }

    method UnregisterTimer(inst: Instance)
      requires Valid() && InTree(inst)
      modifies this`timers, inst.slowPathTimer
      ensures Valid() && View() == Handlers.UnregisterTimer(old(View()), inst.id)
    {
      hide Linked, View;
      CellAt(inst);
      TimersKnown();
      inst.slowPathTimer.Stop();
      timers := timers - {inst.id};
      CellTimed(inst);
    }

    method RegisterOneTimeTimer(inst: Instance)
      requires Valid() && InTree(inst)
      modifies this`timers, inst.slowPathTimer
      ensures Valid() && View() == Handlers.RegisterTimer(old(View()), inst.id)
    {
      hide Linked, View;
      CellAt(inst);
      TimersKnown();
      timers := timers + {inst.id};
      inst.slowPathTimer.Reset();
      CellTimed(inst);
    }

    // ----- Execution -----

    /** The executor's graph is the graph of the instances that wait. */
    lemma PendingGraphs()
      requires Valid()
      ensures executor.Pending() == PendingGraph(View())
      ensures executor.SeqNums() == PendingSeqs(View())
      ensures ExecutedIds(View()) !! executor.vertices.Keys
    {
    }

    /** One instance of a component executes. */
    method Execute(inst: Instance)
      requires Valid() && InTree(inst) && inst.id !in executor.vertices
      requires inst.status == S.Committed && inst.cmd.Some?
      modifies this`executedCmds, inst`status
      ensures Valid() && View() == Handlers.TransitionTo(old(View()), inst.id, S.Executed).node
    {
      hide Handlers.TransitionTo;
      ExecuteOne(View(), inst.id);
      inst.status := S.Executed;
      executedCmds := executedCmds + [inst.cmd.value];
      assert OnlyCell(inst);
      OneCell(inst);
      StillValid(inst);
      assert delivered + executedCmds == old(delivered + executedCmds) + [inst.cmd.value];
    }

    /** Executes the given instances in order. */
    method ExecuteEach(ids: seq<InstanceID>, ghost n: S.Node)
      requires Valid() && View() == n && NoDup(ids) && CanDeliver(n, Elems(ids))
      requires Elems(ids) !! executor.vertices.Keys
      modifies this`executedCmds, Cells()`status
      ensures Valid() && View() == ExecuteAll(n, ids)
    {
      hide Handlers.TransitionTo;
      for k := 0 to |ids|
        invariant Valid() && View() == ExecuteAll(n, ids[..k])
        modifies this`executedCmds, Cells()`status
      {
        NextToExecute(n, ids, k);
        assert ids[k] in Elems(ids);
        Execute(commands[ids[k]]);
      }
      assert ids[..|ids|] == ids;
    }

    /** One run of the executor over the instances that wait. */
    method RunPass() returns (run: seq<seq<InstanceID>>)
      requires Valid()
      modifies executor, executor.Nodes()
      ensures Valid() && executor.Nodes() <= old(executor.Nodes())
      ensures RunOk(old(View()), run) && View() == old(View()).(pending := old(View()).pending - Flat(run))
    {
      hide Scheduled, Flat;
      ghost var n := View();
      PendingGraphs();
      var history := set i | i in commands && commands[i].status == S.Executed;
      WaitingFacts();
      run := executor.Run(history);
      NoCell();
    }

    ghost method Record(bs: seq<seq<InstanceID>>)
      requires Valid()
      modifies this`blocks
      ensures Valid() && View() == old(View()).(blocks := old(View()).blocks + bs)
    {
      blocks := blocks + bs;
    }

    /** Runs the executor and executes what it lets through. */
    method RunExecutor() returns (ghost bs: seq<seq<InstanceID>>)
      requires Valid()
      modifies this`executedCmds, this`blocks, Cells()`status, executor, executor.Nodes()
      ensures Valid() && executor.Nodes() <= old(executor.Nodes())
      ensures RunOk(old(View()), bs) && View() == DeliverBlocks(old(View()), bs)
    {
      hide Scheduled, Flat, Concat, DeliverBlocks, ExecuteAll;
      ghost var n := View();
      WaitingFacts();
      var run := RunPass();
      bs := run;
      RunFacts(n, bs);
      DeliveredAtOnce(n, bs);
      ExecuteEach(Concat(run), n.(pending := n.pending - Flat(bs)));
      Record(bs);
    }

    lemma WaitingFacts()
      requires Valid()
      ensures forall i :: i in executor.vertices ==>
                i in Insts() && Insts()[i].status == S.Committed && Insts()[i].cmd.Some?
      ensures (set i | i in commands && commands[i].status == S.Executed) == ExecutedIds(View())
    {
    }

    /** The executor takes a committed instance up. */
    method AddExec(inst: Instance)
      requires Valid() && InTree(inst) && inst.status == S.Committed && inst.cmd.Some?
      modifies executor
      ensures Valid() && View() == old(View()).(pending := old(View()).pending + {inst.id})
      ensures fresh(executor.Nodes() - old(executor.Nodes()))
    {
      var deps := DepSlice(inst.deps);
      executor.AddExec(inst.id, deps, inst.seqNum);
      assert Insts() == old(Insts());
      assert executor.vertices.Keys == old(executor.vertices.Keys) + {inst.id};
    }

    method PrepareToExecute(inst: Instance) returns (ghost bs: seq<seq<InstanceID>>)
      requires Valid() && InTree(inst) && inst.cmd.Some?
      modifies this`executedCmds, this`blocks, this`panicked, Cells()`status, executor, executor.Nodes()
      ensures Valid() && Ends(Handlers.PrepareToExecute(old(View()), inst.id), bs)
      ensures fresh(executor.Nodes() - old(executor.Nodes()))
    {
      hide DeliverBlocks, RunOk;
      bs := [];
      if inst.status != S.Committed {
        GiveUp();
        return;
      }
      AddExec(inst);
      bs := RunExecutor();
    }

    /** The program's panic. */
    method GiveUp()
      requires Valid()
      modifies this`panicked
      ensures Valid() && View() == Panic(old(View())).node
    {
      panicked := true;
    }

    // ----- Transitions -----

    lemma CellAt(inst: Instance)
      requires Valid() && InTree(inst)
      ensures inst.id in View().insts && View().insts[inst.id] == inst.Value()
      ensures View().nodes == nodes && View().id == id
      ensures inst.status != S.Committed ==> inst.id !in executor.vertices
    {
    }

    method SetStatus(inst: Instance, to: S.Status)
      requires Valid() && InTree(inst) && inst.id !in executor.vertices
      modifies inst`status
      ensures Valid() && View() == SetInst(old(View()), inst.id, old(inst.Value()).(status := to))
    {
      inst.status := to;
      OneCell(inst);
      StillValid(inst);
    }

    /** The transition table; what is not in it is a panic. */
    method TransitionTo(inst: Instance, to: S.Status) returns (ghost bs: seq<seq<InstanceID>>)
      requires Valid() && InTree(inst)
      requires inst.status == S.Committed && to == S.Executed ==> inst.id !in executor.vertices
      modifies this`msgs, this`executedCmds, this`blocks, this`panicked, Cells()`status, executor, executor.Nodes()
      ensures Valid() && Ends(Handlers.TransitionTo(old(View()), inst.id, to), bs)
      ensures fresh(executor.Nodes() - old(executor.Nodes()))
    {
      hide DeliverBlocks, RunOk, View, Valid, Handlers.Broadcast, BroadcastMsgs, Finish, Handlers.PrepareToExecute;
      bs := [];
      CellAt(inst);
      QuietEnds(Handlers.TransitionTo(View(), inst.id, to), bs);
      match (inst.status, to) {
        case (NoStatus, PreAccepted) =>
          if inst.cmd.None? {
            GiveUp();
          } else {
            SetStatus(inst, to);
            Broadcast(inst.id, S.PreAcceptMsg(inst.cmd.value, Attrs(inst.seqNum, inst.deps)));
          }
        case (PreAccepted, Accepted) =>
          Accept(inst);
        case (PreAccepted, Committed) =>
          bs := Commit(inst);
        case (Accepted, Committed) =>
          bs := Commit(inst);
        case (Committed, Executed) =>
          if inst.cmd.None? {
            GiveUp();
          } else {
            Execute(inst);
          }
        case _ =>
          GiveUp();
      }
    }

    /** The transition to Accepted, or the panic of one that is not in the table. */
    method Accept(inst: Instance)
      requires Valid() && InTree(inst)
      modifies this`msgs, this`panicked, inst`status
      ensures Valid() && View() == Handlers.TransitionTo(old(View()), inst.id, S.Accepted).node
      ensures !Handlers.TransitionTo(old(View()), inst.id, S.Accepted).run
    {
      hide View, Valid, Handlers.Broadcast, Handlers.PrepareToExecute;
      CellAt(inst);
      if inst.status == S.PreAccepted {
        SetStatus(inst, S.Accepted);
        Broadcast(inst.id, S.AcceptMsg(Attrs(inst.seqNum, inst.deps)));
      } else {
        GiveUp();
      }
    }

    /** The two transitions to Committed. */
    method Commit(inst: Instance) returns (ghost bs: seq<seq<InstanceID>>)
      requires Valid() && InTree(inst) && (inst.status == S.PreAccepted || inst.status == S.Accepted)
      modifies this`msgs, this`executedCmds, this`blocks, this`panicked, Cells()`status, executor, executor.Nodes()
      ensures Valid() && Ends(Handlers.TransitionTo(old(View()), inst.id, S.Committed), bs)
      ensures fresh(executor.Nodes() - old(executor.Nodes()))
    {
      hide DeliverBlocks, RunOk, View, Valid, Handlers.TransitionTo, Handlers.PrepareToExecute;
      bs := [];
      CellAt(inst);
      CommitForm(View(), inst.id);
      if inst.cmd.None? {
        GiveUp();
      } else {
        SetStatus(inst, S.Committed);
        Broadcast(inst.id, S.CommitMsg(inst.cmd.value, Attrs(inst.seqNum, inst.deps)));
        bs := PrepareToExecute(inst);
      }
    }

    // ----- Replies to the leader -----

    method CountPreAcceptReply(inst: Instance)
      requires Valid() && InTree(inst) && inst.id !in executor.vertices
      modifies inst`preAcceptReplies
      ensures Valid()
      ensures View() == SetInst(old(View()), inst.id,
                                old(inst.Value()).(preAcceptReplies := old(inst.preAcceptReplies) + 1))
    {
      inst.preAcceptReplies := inst.preAcceptReplies + 1;
      OneCell(inst);
      StillValid(inst);
    }

    /** Takes over what the reply knows and the leader did not. */
    method MergeAttributes(inst: Instance, updated: Attrs)
      requires Valid() && InTree(inst) && inst.id !in executor.vertices
      modifies inst
      ensures Valid() && View() == SetInst(old(View()), inst.id, MergeReply(old(inst.Value()), updated))
    {
      if updated.seqNum > inst.seqNum {
        inst.seqNum := updated.seqNum;
        inst.differentReplies := true;
      }
      var oldDepsLen := |inst.deps|;
      inst.deps := inst.deps + updated.deps;
      if oldDepsLen != |inst.deps| {
        inst.differentReplies := true;
      }
      inst.preAcceptReplies := inst.preAcceptReplies + 1;
      assert inst.Value() == MergeReply(old(inst.Value()), updated);
      hide MergeReply;
      CellMoved(inst);
    }

    method OnEitherPreAcceptReply(inst: Instance) returns (ghost bs: seq<seq<InstanceID>>)
      requires Valid() && InTree(inst)
      modifies this`msgs, this`executedCmds, this`blocks, this`panicked, Cells()`status, executor, executor.Nodes()
      modifies this`timers, inst.slowPathTimer
      ensures Valid() && Ends(Handlers.OnEitherPreAcceptReply(old(View()), inst.id), bs)
      ensures fresh(executor.Nodes() - old(executor.Nodes()))
    {
      hide RunOk, View, Valid, Handlers.TransitionTo, Handlers.UnregisterTimer, Handlers.RegisterTimer, Finish;
      bs := [];
      CellAt(inst);
      QuietEnds(Quiet(View()), bs);
      QuietEnds(Quiet(Handlers.RegisterTimer(View(), inst.id)), bs);
      var replies := inst.preAcceptReplies + 1;
      if !inst.differentReplies && FastQuorum(nodes, replies) {
        UnregisterTimer(inst);
        bs := TransitionTo(inst, S.Committed);
      } else if Quorum(nodes, replies) {
        if inst.differentReplies {
          UnregisterTimer(inst);
          bs := TransitionTo(inst, S.Accepted);
        } else {
          if !inst.slowPathTimer.IsSet() {
            RegisterOneTimeTimer(inst);
          }
        }
      }
    }

    method OnPreAcceptOK(inst: Instance) returns (ghost bs: seq<seq<InstanceID>>)
      requires Valid() && InTree(inst)
      modifies this`msgs, this`executedCmds, this`blocks, this`panicked, this`timers
      modifies Cells(), CellTimers(), executor, executor.Nodes()
      ensures Valid() && Ends(Handlers.OnPreAcceptOK(old(View()), inst.id), bs)
      ensures old(inst.status) == S.PreAccepted && old(inst.cmd).Some? ==>
                Progress.Answers(old(View()), View(), inst.id, S.PreAcceptOK)
      ensures fresh(executor.Nodes() - old(executor.Nodes()))
    {
      hide RunOk, View, Valid, Finish, Handlers.OnEitherPreAcceptReply, Progress.Answers;
      bs := [];
      CellAt(inst);
      ghost var n := View();
      QuietEnds(Quiet(n), bs);
      if inst.status == S.PreAccepted {
        CountPreAcceptReply(inst);
        bs := OnEitherPreAcceptReply(inst);
        ReplyEnds(n, inst.id, S.PreAcceptOK, bs);
      }
    }

    method OnPreAcceptReply(inst: Instance, updated: Attrs) returns (ghost bs: seq<seq<InstanceID>>)
      requires Valid() && InTree(inst)
      modifies this`msgs, this`executedCmds, this`blocks, this`panicked, this`timers
      modifies Cells(), CellTimers(), executor, executor.Nodes()
      ensures Valid() && Ends(Handlers.OnPreAcceptReply(old(View()), inst.id, updated), bs)
      ensures old(inst.status) == S.PreAccepted && old(inst.cmd).Some? ==>
                Progress.Answers(old(View()), View(), inst.id, S.PreAcceptReply(updated))
      ensures fresh(executor.Nodes() - old(executor.Nodes()))
    {
      hide RunOk, View, Valid, Finish, Handlers.OnEitherPreAcceptReply, Progress.Answers;
      bs := [];
      CellAt(inst);
      ghost var n := View();
      QuietEnds(Quiet(n), bs);
      if inst.status == S.PreAccepted {
        MergeAttributes(inst, updated);
        bs := OnEitherPreAcceptReply(inst);
        ReplyEnds(n, inst.id, S.PreAcceptReply(updated), bs);
      }
    }

    lemma ReplyEnds(n: S.Node, i: InstanceID, body: S.Body, bs: seq<seq<InstanceID>>)
      requires i in n.insts && n.insts[i].status == S.PreAccepted && (body.PreAcceptOK? || body.PreAcceptReply?)
      requires Ends(if body.PreAcceptOK? then Handlers.OnPreAcceptOK(n, i)
                    else Handlers.OnPreAcceptReply(n, i, body.updated), bs)
      ensures n.insts[i].cmd.Some? ==> Progress.Answers(n, View(), i, body)
    {
      hide RunOk, View, Finish, Progress.Answers, Handlers.OnPreAcceptOK, Handlers.OnPreAcceptReply;
      if n.insts[i].cmd.Some? {
        Progress.ReplyAnswered(n, i, body, bs);
      }
    }

    lemma AckEnds(n: S.Node, i: InstanceID, bs: seq<seq<InstanceID>>)
      requires i in n.insts && n.insts[i].status == S.Accepted && Ends(Handlers.OnAcceptOK(n, i), bs)
      ensures n.insts[i].cmd.Some? ==> Progress.Answers(n, View(), i, S.AcceptOK)
    {
      hide RunOk, View, Finish, Progress.Answers, Handlers.OnAcceptOK;
      if n.insts[i].cmd.Some? {
        Progress.AckAnswered(n, i, bs);
      }
    }

    lemma CommitEnds(n: S.Node, i: InstanceID, cmd: Command, attrs: Attrs, bs: seq<seq<InstanceID>>)
      requires i in n.insts && Ends(Handlers.OnCommit(n, i, cmd, attrs), bs)
      ensures Progress.Learns(n, View(), i, cmd, attrs)
    {
      hide RunOk, View, Finish, Progress.Learns, Handlers.OnCommit;
      Progress.CommitMeans(n, i, cmd, attrs, bs);
    }

    method CountAcceptReply(inst: Instance)
      requires Valid() && InTree(inst) && inst.id !in executor.vertices
      modifies inst`acceptReplies
      ensures Valid()
      ensures View() == SetInst(old(View()), inst.id,
                                old(inst.Value()).(acceptReplies := old(inst.acceptReplies) + 1))
    {
      inst.acceptReplies := inst.acceptReplies + 1;
      OneCell(inst);
      StillValid(inst);
    }

    method OnAcceptOK(inst: Instance) returns (ghost bs: seq<seq<InstanceID>>)
      requires Valid() && InTree(inst)
      modifies this`msgs, this`executedCmds, this`blocks, this`panicked, this`timers
      modifies Cells(), CellTimers(), executor, executor.Nodes()
      ensures Valid() && Ends(Handlers.OnAcceptOK(old(View()), inst.id), bs)
      ensures old(inst.status) == S.Accepted && old(inst.cmd).Some? ==>
                Progress.Answers(old(View()), View(), inst.id, S.AcceptOK)
      ensures fresh(executor.Nodes() - old(executor.Nodes()))
    {
      hide RunOk, View, Valid, Finish, Handlers.TransitionTo, Progress.Answers;
      bs := [];
      CellAt(inst);
      ghost var n := View();
      QuietEnds(Quiet(n), bs);
      if inst.status == S.Accepted {
        CountAcceptReply(inst);
        CellAt(inst);
        QuietEnds(Quiet(View()), bs);
        if Quorum(nodes, inst.acceptReplies + 1) {
          bs := TransitionTo(inst, S.Committed);
        }
        AckEnds(n, inst.id, bs);
      }
    }

    // ----- Messages from the leader -----

    /** Takes over sequence number and dependencies, at the given status. */
    method ReplaceInstanceData(inst: Instance, status: S.Status, attrs: Attrs)
      requires Valid() && InTree(inst) && inst.id !in executor.vertices
      modifies inst`status, inst`seqNum, inst`deps
      ensures Valid()
      ensures View() == SetInst(old(View()), inst.id,
                                old(inst.Value()).(status := status, seqNum := attrs.seqNum, deps := attrs.deps))
    {
      inst.status := status;
      inst.seqNum, inst.deps := attrs.seqNum, attrs.deps;
      OneCell(inst);
      StillValid(inst);
    }

    /** The same with the command. */
    method ReplaceInstance(inst: Instance, status: S.Status, cmd: Command, attrs: Attrs)
      requires Valid() && InTree(inst) && inst.id !in executor.vertices
      modifies inst`status, inst`cmd, inst`seqNum, inst`deps
      ensures Valid() && inst.cmd.Some?
      ensures View() == SetInst(old(View()), inst.id,
                                old(inst.Value()).(status := status, cmd := Some(cmd),
                                                   seqNum := attrs.seqNum, deps := attrs.deps))
    {
      inst.status := status;
      inst.cmd := Some(cmd);
      inst.seqNum, inst.deps := attrs.seqNum, attrs.deps;
      OneCell(inst);
      StillValid(inst);
    }

    /** Notes the attributes this replica first computed. */
    ghost method NoteFirst(i: InstanceID, attrs: Attrs)
      requires Valid()
      modifies this`pre
      ensures Valid() && View() == old(View()).(pre := old(View()).pre[i := attrs])
    {
      pre := pre[i := attrs];
    }

    method OnPreAccept(inst: Instance, cmd: Command, attrs: Attrs) returns (ghost bs: seq<seq<InstanceID>>)
      requires Valid() && InTree(inst)
      modifies this`msgs, this`panicked, this`pre, Cells()
      ensures Valid() && Ends(Handlers.OnPreAccept(old(View()), inst.id, cmd, attrs), bs)
      ensures !View().panicked && (old(inst.status) == S.NoStatus || old(inst.status) == S.PreAccepted) ==>
                Proposals.PreAccepts(old(View()), View(), inst.id, cmd, attrs)
    {
      hide View, Valid, Finish, SeqAndDeps, Proposals.PreAccepts;
      bs := [];
      CellAt(inst);
      ghost var n := View();
      QuietEnds(Handlers.OnPreAccept(n, inst.id, cmd, attrs), bs);
      if inst.status != S.NoStatus && inst.status != S.PreAccepted {
        return;
      }
      SeqAndDepsIgnores(n.insts, n.nodes, cmd, inst.id, n.insts[inst.id].(status := S.PreAccepted));
      SetStatus(inst, S.PreAccepted);
      var found := SeqAndDepsFor(cmd, inst.id);
      if !found.ok {
        GiveUp();
        return;
      }
      CellAt(inst);
      AnswerPreAccept(inst, cmd, attrs, found, n);
    }

    /** The instance's new attributes, and the reply that tells whether they differ. */
    method AnswerPreAccept(inst: Instance, cmd: Command, attrs: Attrs, found: Found, ghost n: S.Node)
      requires Valid() && InTree(inst) && inst.status == S.PreAccepted
      requires inst.id in n.insts && View() == SetInst(n, inst.id, n.insts[inst.id].(status := S.PreAccepted))
      requires n.insts[inst.id].status == S.NoStatus || n.insts[inst.id].status == S.PreAccepted
      requires found.ok && found == SeqAndDeps(n.insts, n.nodes, cmd, inst.id)
      modifies this`msgs, this`pre, inst
      ensures Valid() && View() == Handlers.OnPreAccept(n, inst.id, cmd, attrs).node
      ensures Proposals.PreAccepts(n, View(), inst.id, cmd, attrs)
    {
      hide View, Valid, SeqAndDeps, Proposals.PreAccepts;
      Proposals.PreAcceptMeans(n, inst.id, cmd, attrs);
      CellAt(inst);
      var local := Attrs(Max(attrs.seqNum, found.maxSeq + 1), found.deps + attrs.deps);
      SetTwice(n, inst.id, inst.Value(),
               inst.Value().(cmd := Some(cmd), seqNum := local.seqNum, deps := local.deps));
      ReplaceInstance(inst, S.PreAccepted, cmd, local);
      NoteFirst(inst.id, local);
      if local.seqNum == attrs.seqNum && |local.deps| == |attrs.deps| {
        Reply(inst.id, S.PreAcceptOK);
      } else {
        Reply(inst.id, S.PreAcceptReply(local));
      }
    }

    /** The scan, seen from the replica's state. */
    method SeqAndDepsFor(cmd: Command, ignored: InstanceID) returns (f: Found)
      requires Valid()
      modifies {}
      ensures Valid() && View() == old(View())
      ensures var all := SeqAndDeps(View().insts, View().nodes, cmd, ignored);
              f.ok == all.ok && (f.ok ==> f == all)
    {
      hide SeqAndDeps;
      f := SeqAndDepsForCommand(cmd, ignored);
    }

    method OnAccept(inst: Instance, attrs: Attrs) returns (ghost bs: seq<seq<InstanceID>>)
      requires Valid() && InTree(inst)
      modifies this`msgs, Cells()
      ensures Valid() && Ends(Handlers.OnAccept(old(View()), inst.id, attrs), bs)
      ensures Progress.TakesOver(old(View()), View(), inst.id, attrs)
    {
      hide View, Valid, Finish, Progress.TakesOver;
      bs := [];
      CellAt(inst);
      Progress.AcceptMeans(View(), inst.id, attrs);
      QuietEnds(Handlers.OnAccept(View(), inst.id, attrs), bs);
      if inst.status != S.Committed && inst.status != S.Executed {
        ReplaceInstanceData(inst, S.Accepted, attrs);
        Reply(inst.id, S.AcceptOK);
      }
    }

    method OnCommit(inst: Instance, cmd: Command, attrs: Attrs) returns (ghost bs: seq<seq<InstanceID>>)
      requires Valid() && InTree(inst)
      modifies this`executedCmds, this`blocks, this`panicked, Cells(), executor, executor.Nodes()
      ensures Valid() && Ends(Handlers.OnCommit(old(View()), inst.id, cmd, attrs), bs)
      ensures Progress.Learns(old(View()), View(), inst.id, cmd, attrs)
      ensures fresh(executor.Nodes() - old(executor.Nodes()))
    {
      hide RunOk, View, Valid, Finish, Handlers.PrepareToExecute, Progress.Learns;
      bs := [];
      CellAt(inst);
      ghost var n := View();
      QuietEnds(Quiet(n), bs);
      if inst.status != S.Committed && inst.status != S.Executed {
        ReplaceInstance(inst, S.Committed, cmd, attrs);
        CellAt(inst);
        bs := PrepareToExecute(inst);
      }
      CommitEnds(n, inst.id, cmd, attrs, bs);
    }

    // ----- Requests, messages and ticks -----

    method NewInstance(i: InstanceID) returns (inst: Instance)
      requires Valid() && i !in commands
      modifies this`commands
      ensures Valid() && InTree(inst) && inst.id == i && fresh(inst) && fresh(inst.slowPathTimer)
      ensures inst.Value() == S.NEW_INSTANCE && commands == old(commands)[i := inst]
      ensures View() == SetInst(old(View()), i, S.NEW_INSTANCE)
    {
      inst := new Instance(i);
      commands := commands[i := inst];
      assert Insts() == old(Insts())[i := S.NEW_INSTANCE];
    }

    twostate lemma OneMore(new inst: Instance)
      requires commands == old(commands)[inst.id := inst] && fresh(inst) && fresh(inst.slowPathTimer)
      requires fresh(executor.Nodes() - old(executor.Nodes()))
      ensures fresh(Owned() - old(Owned()))
    {
    }

    twostate lemma NoMore()
      requires commands == old(commands)
      requires fresh(executor.Nodes() - old(executor.Nodes()))
      ensures fresh(Owned() - old(Owned()))
    {
    }

    method OnRequest(cmd: Command) returns (ghost bs: seq<seq<InstanceID>>)
      requires Valid()
      modifies this, Cells(), CellTimers(), executor, executor.Nodes()
      ensures Valid() && Ends(Handlers.OnRequest(old(View()), cmd), bs)
      ensures !View().panicked ==> exists i :: Proposals.Proposes(old(View()), View(), i, cmd)
      ensures fresh(Owned() - old(Owned()))
    {
      hide View, Valid, Finish, SeqAndDeps, RunOk, Handlers.TransitionTo, Proposals.Proposes;
      QuietEnds(Handlers.OnRequest(View(), cmd), []);
      var found := SeqAndDepsFor(cmd, InstanceID(0, 0));
      if found.ok {
        bs := Propose(cmd, found);
      } else {
        bs := [];
        GiveUp();
        NoMore();
      }
    }

    method Propose(cmd: Command, found: Found) returns (ghost bs: seq<seq<InstanceID>>)
      requires Valid() && found.ok && found == SeqAndDeps(View().insts, View().nodes, cmd, InstanceID(0, 0))
      modifies this, Cells(), CellTimers(), executor, executor.Nodes()
      ensures Valid() && Ends(Handlers.OnRequest(old(View()), cmd), bs)
      ensures exists i :: Proposals.Proposes(old(View()), View(), i, cmd)
      ensures fresh(Owned() - old(Owned()))
    {
      hide View, Valid, Ends, SeqAndDeps, Handlers.TransitionTo, Owned, Proposals.Proposes;
      ghost var n := View();
      Proposals.RequestMeans(n, cmd);
      var inst := StartInstance(cmd, found);
      bs := TransitionTo(inst, S.PreAccepted);
      Local.RequestForm(n, cmd);
      EndsQuiet(Handlers.OnRequest(n, cmd), bs);
      OneMore(inst);
    }

    /** The next instance of this replica's row, filled in. */
    method StartInstance(cmd: Command, found: Found) returns (inst: Instance)
      requires Valid()
      modifies this`commands, this`pre
      ensures Valid() && InTree(inst) && inst.status == S.NoStatus
      ensures commands == old(commands)[inst.id := inst] && fresh(inst) && fresh(inst.slowPathTimer)
      ensures var n, attrs := old(View()), Attrs(found.maxSeq + 1, found.deps);
              && inst.id == InstanceID(n.id, MaxNum(n.insts, n.id) + 1)
              && View() == SetInst(n, inst.id, S.NEW_INSTANCE.(cmd := Some(cmd), seqNum := attrs.seqNum,
                                                               deps := attrs.deps))
                           .(pre := n.pre[inst.id := attrs])
    {
      ghost var n := View();
      var m := NextNum();
      hide View, Valid;
      inst := NewInstance(InstanceID(id, m));
      ReplaceInstance(inst, S.NoStatus, cmd, Attrs(found.maxSeq + 1, found.deps));
      SetTwice(n, inst.id, S.NEW_INSTANCE,
               S.NEW_INSTANCE.(cmd := Some(cmd), seqNum := found.maxSeq + 1, deps := found.deps));
      NoteFirst(inst.id, Attrs(found.maxSeq + 1, found.deps));
      CellAt(inst);
    }

    method NextNum() returns (m: nat)
      requires Valid()
      ensures Valid() && View() == old(View())
      ensures m == MaxNum(View().insts, View().id) + 1 && InstanceID(id, m) !in commands && View().id == id
    {
      m := MaxInstanceNum(id);
      assert InstanceID(id, m + 1) in Insts() ==> m + 1 <= MaxNum(Insts(), id);
      m := m + 1;
    }

    /** One message for an instance this replica has. */
    method Dispatch(inst: Instance, m: S.Message) returns (ghost bs: seq<seq<InstanceID>>)
      requires Valid() && InTree(inst) && inst.id == m.inst
      modifies this`msgs, this`executedCmds, this`blocks, this`panicked, this`timers, this`pre
      modifies Cells(), CellTimers(), executor, executor.Nodes()
      ensures Valid() && m.inst in old(View()).insts && Ends(Handlers.Dispatch(old(View()), m), bs)
      ensures fresh(executor.Nodes() - old(executor.Nodes()))
    {
      hide View, Valid, Ends, Handlers.OnPreAccept, Handlers.OnPreAcceptOK, Handlers.OnPreAcceptReply,
        Handlers.OnAccept, Handlers.OnAcceptOK, Handlers.OnCommit;
      CellAt(inst);
      match m.body {
        case PreAcceptMsg(cmd, attrs) => bs := OnPreAccept(inst, cmd, attrs);
        case PreAcceptOK => bs := OnPreAcceptOK(inst);
        case PreAcceptReply(updated) => bs := OnPreAcceptReply(inst, updated);
        case AcceptMsg(attrs) => bs := OnAccept(inst, attrs);
        case AcceptOK => bs := OnAcceptOK(inst);
        case CommitMsg(cmd, attrs) => bs := OnCommit(inst, cmd, attrs);
      }
    }

    /** Addressed here, and of a kind this replica may get for that instance. */
    predicate ValidateMessage(m: S.Message) {
      && m.to == id
      && if S.IsReply(m.body) then m.inst.replica == id
         else m.inst.replica != id && m.inst.replica in nodes
    }

    /** One inbound message. */
    method Step(m: S.Message) returns (ghost bs: seq<seq<InstanceID>>)
      requires Valid()
      modifies this, Cells(), CellTimers(), executor, executor.Nodes()
      ensures Valid() && Ends(Handlers.Step(old(View()), m), bs)
      ensures fresh(Owned() - old(Owned()))
    {
      hide View, Valid, Ends, Handlers.Dispatch, Owned, ValidMessage, ValidateMessage;
      Addressed(m);
      StaysQuiet();
      if !ValidateMessage(m) {
        bs := [];
        NoMore();
      } else {
        bs := StepValid(m);
      }
    }

    method StepValid(m: S.Message) returns (ghost bs: seq<seq<InstanceID>>)
      requires Valid() && ValidMessage(View(), m)
      modifies this, Cells(), CellTimers(), executor, executor.Nodes()
      ensures Valid() && Ends(Handlers.Step(old(View()), m), bs)
      ensures fresh(Owned() - old(Owned()))
    {
      hide View, Valid, Ends, Handlers.Dispatch, Owned, ValidMessage, ValidateMessage;
      Addressed(m);
      StaysQuiet();
      if m.inst in commands {
        bs := KnownMessage(m);
      } else if m.inst.replica == id {
        bs := [];
        NoMore();
      } else {
        bs := FirstMessage(m);
      }
    }

    method KnownMessage(m: S.Message) returns (ghost bs: seq<seq<InstanceID>>)
      requires Valid() && m.inst in commands && InTree(commands[m.inst]) && commands[m.inst].id == m.inst
      modifies this, Cells(), CellTimers(), executor, executor.Nodes()
      ensures Valid() && m.inst in old(View()).insts && Ends(Handlers.Dispatch(old(View()), m), bs)
      ensures fresh(Owned() - old(Owned()))
    {
      hide View, Valid, Ends, Handlers.Dispatch, Owned;
      bs := Dispatch(commands[m.inst], m);
      NoMore();
    }

    /** A message about an instance not heard of before. */
    method FirstMessage(m: S.Message) returns (ghost bs: seq<seq<InstanceID>>)
      requires Valid() && m.inst !in commands
      modifies this, Cells(), CellTimers(), executor, executor.Nodes()
      ensures Valid() && m.inst in SetInst(old(View()), m.inst, S.NEW_INSTANCE).insts
      ensures Ends(Handlers.Dispatch(SetInst(old(View()), m.inst, S.NEW_INSTANCE), m), bs)
      ensures fresh(Owned() - old(Owned()))
    {
      hide View, Valid, Ends, Handlers.Dispatch, Owned;
      var inst := NewInstance(m.inst);
      bs := Dispatch(inst, m);
      OneMore(inst);
    }

    lemma EndsQuiet(o: Outcome, bs: seq<seq<InstanceID>>)
      requires Ends(o, bs) && !o.run
      ensures View() == o.node
    {
    }

    lemma StaysQuiet()
      ensures Ends(Quiet(View()), [])
    {
    }

    lemma Addressed(m: S.Message)
      requires Valid()
      ensures m.inst in commands <==> m.inst in View().insts
      ensures m.inst in commands ==> InTree(commands[m.inst]) && commands[m.inst].id == m.inst
      ensures View().id == id && ValidateMessage(m) == ValidMessage(View(), m)
    {
    }

    /** One timer's share of a tick: if it goes off, the slow path is taken. */
    method TickTimer(inst: Instance)
      requires Valid() && InTree(inst)
      modifies this`msgs, this`panicked, this`timers, inst`status, inst.slowPathTimer
      ensures Valid() && View() == TickOne(old(View()), inst.id)
    {
      hide View, Valid, Handlers.TransitionTo, Handlers.UnregisterTimer;
      CellAt(inst);
      ghost var n := View();
      if !inst.slowPathTimer.paused {
        TickForm(n, inst.id);
        var fired := CountTick(inst);
        if fired {
          UnregisterTimer(inst);
          Accept(inst);
        }
      }
    }

    method CountTick(inst: Instance) returns (fired: bool)
      requires Valid() && InTree(inst) && !inst.slowPathTimer.paused
      modifies inst.slowPathTimer
      ensures Valid()
      ensures var ticks := old(inst.slowPathTimer.ticksElapsed) + 1;
              && (fired <==> ticks >= S.SLOW_PATH_TIMEOUT)
              && View() == SetInst(old(View()), inst.id, old(inst.Value()).(timer := S.Timer(ticks, fired)))
    {
      fired := inst.slowPathTimer.Tick();
      OneCell(inst);
    }

    /** A tick of the whole replica: every registered timer, in whatever order the set yields them. */
    method Tick() returns (ghost order: seq<InstanceID>)
      requires Valid()
      modifies this`msgs, this`panicked, this`timers, Cells()`status, CellTimers()
      ensures Valid() && NoDup(order) && Elems(order) == old(View()).timers
      ensures View() == Handlers.Tick(old(View()), order)
    {
      order := [];
      var todo := timers;
      TimersKnown();
      assert Splits(order, todo, timers);
      assert View() == Handlers.Tick(View(), order);
      hide View, Valid, TickOne, Splits, Handlers.Tick;
      while todo != {}
        invariant Valid() && todo <= commands.Keys
        invariant Splits(order, todo, old(timers))
        invariant View() == Handlers.Tick(old(View()), order)
        decreases todo
      {
        var i :| i in todo;
        InTreeAt(i);
        TickTimer(commands[i]);
        OneLonger(order, todo, old(timers), i);
        TickMore(old(View()), order, i);
        todo := todo - {i};
        order := order + [i];
      }
      AllTicked(order, old(timers));
    }

    lemma InTreeAt(i: InstanceID)
      requires Valid() && i in commands
      ensures InTree(commands[i]) && commands[i].id == i
    {
    }

    lemma TimersKnown()
      requires Valid()
      ensures timers <= commands.Keys && View().timers == timers
    {
    }
  }

  lemma MergeNote(f: Found, g: Found, seqNum: SeqNum)
    ensures Merge(f, Note(g, seqNum)) == Merge(Note(f, seqNum), g)
  {
  }

  lemma MergeDepend(f: Found, g: Found, seqNum: SeqNum, i: InstanceID)
    ensures Merge(f, Depend(g, seqNum, i)) == Merge(Depend(f, seqNum, i), g)
  {
    assert f.deps + (g.deps + {i}) == (f.deps + {i}) + g.deps;
  }

  lemma NotOkAnyway(insts: S.Instances, some: seq<ReplicaID>, rows: seq<ReplicaID>, cmd: Command, ignored: InstanceID)
    requires !SeqAndDeps(insts, some, cmd, ignored).ok && forall r :: r in some ==> r in rows
    ensures !SeqAndDeps(insts, rows, cmd, ignored).ok
  {
    hide SeqAndDeps, RowFound;
    RowsGather(insts, some, cmd, ignored);
    RowsGather(insts, rows, cmd, ignored);
  }

  /** What a run may execute can be delivered, in one pass. */
  lemma RunFacts(n: S.Node, bs: seq<seq<InstanceID>>)
    requires RunOk(n, bs)
    requires forall i :: i in n.pending ==> i in n.insts && n.insts[i].status == S.Committed && n.insts[i].cmd.Some?
    ensures CanDeliver(n, Flat(bs)) && NoDup(Concat(bs)) && Elems(Concat(bs)) == Flat(bs)
    ensures Flat(bs) <= n.pending
  {
    assert forall i :: i in Flat(bs) ==> Ready(PendingGraph(n), ExecutedIds(n), i);
    ConcatElems(bs);
    History.ConcatNoDup(PendingGraph(n), PendingSeqs(n), ExecutedIds(n), bs);
  }

  /** The next instance of the run has not executed yet. */
  lemma NextToExecute(n: S.Node, ids: seq<InstanceID>, k: nat)
    requires NoDup(ids) && CanDeliver(n, Elems(ids)) && k < |ids|
    ensures var m := ExecuteAll(n, ids[..k]);
            && ids[k] in m.insts && m.insts[ids[k]] == n.insts[ids[k]]
            && n.insts[ids[k]].status == S.Committed && n.insts[ids[k]].cmd.Some?
            && ExecuteAll(n, ids[..k + 1]) == Handlers.TransitionTo(m, ids[k], S.Executed).node
            && m.pending == n.pending
  {
    hide Handlers.TransitionTo;
    assert ids[k] in Elems(ids);
    ExecuteAllDelivers(n, ids[..k]);
    assert ids[..k + 1][..k] == ids[..k];
  }

  lemma DeliveredAtOnce(n: S.Node, bs: seq<seq<InstanceID>>)
    requires CanDeliver(n, Flat(bs)) && NoDup(Concat(bs)) && Elems(Concat(bs)) == Flat(bs)
    ensures DeliverBlocks(n, bs) ==
            ExecuteAll(n.(pending := n.pending - Flat(bs)), Concat(bs)).(blocks := n.blocks + bs)
  {
    hide Handlers.TransitionTo, Flat, Concat;
    ExecuteAllDelivers(n.(pending := n.pending - Flat(bs)), Concat(bs));
  }

  predicate IdBefore(a: InstanceID, b: InstanceID) {
    a.replica < b.replica || (a.replica == b.replica && a.num < b.num)
  }

  predicate Ascending(s: seq<InstanceID>) {
    forall i, j :: 0 <= i < j < |s| ==> IdBefore(s[i], s[j])
  }

  /** The dependencies as a slice: sorted, each once. */
  method DepSlice(deps: set<InstanceID>) returns (r: seq<InstanceID>)
    ensures Elems(r) == deps && Ascending(r) && NoDup(r)
    ensures forall i, j :: 0 <= i < j < |r| ==>
              r[i].replica < r[j].replica || (r[i].replica == r[j].replica && r[i].num < r[j].num)
  {
    r := [];
    var todo := deps;
    while todo != {}
      invariant todo <= deps && Elems(r) == deps - todo && Ascending(r)
      decreases todo
    {
      var d :| d in todo;
      assert d !in Elems(r);
      r := InsertId(r, d);
      todo := todo - {d};
    }
  }

  method InsertId(s: seq<InstanceID>, d: InstanceID) returns (r: seq<InstanceID>)
    requires Ascending(s) && d !in s
    ensures Elems(r) == Elems(s) + {d} && Ascending(r)
  {
    var p := |s|;
    while p > 0 && IdBefore(d, s[p - 1])
      invariant 0 <= p <= |s|
      invariant forall i :: p <= i < |s| ==> IdBefore(d, s[i])
    {
      p := p - 1;
    }
    Between(s, d, p);
    r := s[..p] + [d] + s[p..];
  }

  lemma Between(s: seq<InstanceID>, d: InstanceID, p: nat)
    requires Ascending(s) && d !in s && p <= |s| && (forall i :: p <= i < |s| ==> IdBefore(d, s[i]))
    requires p > 0 ==> !IdBefore(d, s[p - 1])
    ensures Ascending(s[..p] + [d] + s[p..]) && Elems(s[..p] + [d] + s[p..]) == Elems(s) + {d}
  {
    assert p > 0 ==> s[p - 1] in s && IdBefore(s[p - 1], d);
    Joined(s[..p], d, s[p..]);
    SameAndMore(s[..p], d, s[p..]);
    assert s == s[..p] + s[p..];
  }

  lemma Joined(a: seq<InstanceID>, d: InstanceID, b: seq<InstanceID>)
    requires Ascending(a) && Ascending(b) && (a != [] ==> IdBefore(a[|a| - 1], d))
    requires forall i :: 0 <= i < |b| ==> IdBefore(d, b[i])
    ensures Ascending(a + [d] + b)
  {
    var r := a + [d] + b;
    forall i | 0 <= i < |a| ensures IdBefore(a[i], d) {
      assert i < |a| - 1 ==> IdBefore(a[i], a[|a| - 1]);
    }
    forall i, j | 0 <= i < j < |r| ensures IdBefore(r[i], r[j]) {
      if i < |a| < j {
        assert IdBefore(a[i], d) && IdBefore(d, b[j - |a| - 1]);
      }
    }
  }

  lemma SameAndMore(a: seq<InstanceID>, d: InstanceID, b: seq<InstanceID>)
    ensures Elems(a + [d] + b) == Elems(a + b) + {d}
  {
    assert forall x :: x in a + [d] + b <==> x in a + b || x == d;
  }

  lemma CommitForm(n: S.Node, i: InstanceID)
    requires i in n.insts && (n.insts[i].status == S.PreAccepted || n.insts[i].status == S.Accepted)
    ensures Handlers.TransitionTo(n, i, S.Committed) ==
            var inst := n.insts[i];
            var m := SetInst(n, i, inst.(status := S.Committed));
            if inst.cmd.None? then Panic(n)
            else Handlers.PrepareToExecute(
                Handlers.Broadcast(m, i, S.CommitMsg(inst.cmd.value, inst.Attributes())), i)
  {
  }

  lemma QuietEnds(o: Outcome, bs: seq<seq<InstanceID>>)
    ensures !o.run ==> Finish(o, bs) == o.node
  {
  }

  lemma SetTwice(n: S.Node, i: InstanceID, a: S.Instance, b: S.Instance)
    ensures SetInst(SetInst(n, i, a), i, b) == SetInst(n, i, b)
  {
    assert n.insts[i := a][i := b] == n.insts[i := b];
  }

  /** The timer has counted one tick more. */
  function TickedTimer(n: S.Node, i: InstanceID): S.Node
    requires i in n.insts
  {
    var ticks := n.insts[i].timer.ticksElapsed + 1;
    SetInst(n, i, n.insts[i].(timer := S.Timer(ticks, ticks >= S.SLOW_PATH_TIMEOUT)))
  }

  /** A tick of a timer that runs, in two steps. */
  lemma TickForm(n: S.Node, i: InstanceID)
    requires i in n.insts && !n.insts[i].timer.paused
    ensures var ticks := n.insts[i].timer.ticksElapsed + 1;
            var fired := ticks >= S.SLOW_PATH_TIMEOUT;
            var m := TickedTimer(n, i);
            TickOne(n, i) ==
            if fired then Handlers.TransitionTo(Handlers.UnregisterTimer(m, i), i, S.Accepted).node else m
  {
    hide Handlers.TransitionTo;
    SetTwice(n, i, n.insts[i].(timer := S.Timer(n.insts[i].timer.ticksElapsed + 1, true)), n.insts[i].(timer := S.Timer(0, true)));
  }

  /** order lists, without repetition, what all holds and todo does not. */
  ghost predicate Splits(order: seq<InstanceID>, todo: set<InstanceID>, all: set<InstanceID>) {
    NoDup(order) && Elems(order) !! todo && Elems(order) + todo == all
  }

  lemma OneLonger(order: seq<InstanceID>, todo: set<InstanceID>, all: set<InstanceID>, i: InstanceID)
    requires Splits(order, todo, all) && i in todo
    ensures Splits(order + [i], todo - {i}, all)
  {
    assert Elems(order + [i]) == Elems(order) + {i};
    assert i !in Elems(order);
  }

  lemma TickMore(n: S.Node, order: seq<InstanceID>, i: InstanceID)
    ensures Handlers.Tick(n, order + [i]) == TickOne(Handlers.Tick(n, order), i)
  {
    assert (order + [i])[..|order|] == order;
  }

  lemma AllTicked(order: seq<InstanceID>, all: set<InstanceID>)
    requires Splits(order, {}, all)
    ensures NoDup(order) && Elems(order) == all
  {
  }
}

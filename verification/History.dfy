/**
 * What one replica has executed, and what it cannot execute yet.
 */
module History {
  import opened Types
  import opened State
  import opened Graph
  import opened Scan
  import opened Schedule
  import opened Handlers
  import opened Local

  /** The dependency graph of the executed instances. */
  function ExecutedGraph(n: Node): DepGraph {
    map id | id in n.insts && n.insts[id].status == Executed :: n.insts[id].deps
  }

  function ExecutedSeqs(n: Node): map<InstanceID, SeqNum> {
    map id | id in n.insts && n.insts[id].status == Executed :: n.insts[id].seqNum
  }

  /** The blocks are the executed instances: whole components, dependencies first. */
  ghost predicate BlocksMatch(n: Node) {
    && Flat(n.blocks) == ExecutedIds(n)
    && BlocksOk(ExecutedGraph(n), ExecutedSeqs(n), {}, n.blocks)
  }

  ghost predicate Recorded(insts: Instances, ids: seq<InstanceID>, cmds: seq<Command>) {
    && |cmds| == |ids|
    && forall k :: 0 <= k < |ids| ==> ids[k] in insts && insts[ids[k]].cmd == Some(cmds[k])
  }

  /** Nothing that waits could have executed. */
  ghost predicate Blocked(n: Node) {
    forall id {:trigger id in n.pending} :: id in n.pending ==> !Ready(PendingGraph(n), ExecutedIds(n), id)
  }

  /** Blocks and delivered commands match what has been executed. */
  ghost predicate ExecOk(n: Node) {
    && BlocksMatch(n)
    && Recorded(n.insts, Concat(n.blocks), n.executed)
  }

  // ----- Components in a larger graph -----

  ghost predicate Closed(g: DepGraph, s: set<InstanceID>) {
    forall x, y :: x in s && Edge(g, x, y) ==> y in s
  }

  /** A path inside a component does not leave it. */
  lemma SccPath(g: DepGraph, s: set<InstanceID>, p: seq<InstanceID>, i: nat)
    requires IsScc(g, s) && IsPath(g, p) && p[0] in s && p[|p| - 1] in s && i < |p|
    ensures p[i] in s
  {
    var front, back := p[..i + 1], p[i..];
    assert IsPath(g, front) && front[0] == p[0] && front[|front| - 1] == p[i];
    assert IsPath(g, back) && back[0] == p[i] && back[|back| - 1] == p[|p| - 1];
    ReachTrans(g, p[i], p[|p| - 1], p[0]);
  }

  /** A component is one in every graph that agrees on it and cannot lead back to it. */
  lemma SccTransfer(g: DepGraph, h: DepGraph, s: set<InstanceID>, before: set<InstanceID>)
    requires IsScc(g, s) && s !! before && Closed(h, before)
    requires forall x :: x in s ==> x in h && h[x] == g[x]
    requires forall x, y :: x in s && Edge(g, x, y) ==> y in before || y in s
    ensures IsScc(h, s)
  {
    hide IsScc, Reach;
    SccFacts(g, s);
    forall a, b | a in s && b in s ensures Reach(h, a, b) {
      SccReach(g, h, s, a, b);
    }
    var both := iset x | x in s || x in before;
    forall a, b | a in s && MutualReach(h, a, b) ensures b in s {
      ReachClosed(h, both, a, b);
      if b in before {
        ReachClosed(h, (iset x | x in before), b, a);
      }
    }
    SccFromFacts(h, s);
  }

  lemma SccFacts(g: DepGraph, s: set<InstanceID>)
    requires IsScc(g, s)
    ensures s != {} && s <= g.Keys
  {
  }

  lemma SccFromFacts(g: DepGraph, s: set<InstanceID>)
    requires s != {} && s <= g.Keys
    requires forall a, b :: a in s && b in s ==> Reach(g, a, b)
    requires forall a, b :: a in s && MutualReach(g, a, b) ==> b in s
    ensures IsScc(g, s)
  {
  }

  lemma SccReach(g: DepGraph, h: DepGraph, s: set<InstanceID>, a: InstanceID, b: InstanceID)
    requires IsScc(g, s) && a in s && b in s
    requires forall x :: x in s ==> x in h && h[x] == g[x]
    ensures Reach(h, a, b)
  {
    assert Reach(g, a, b);
    var p :| IsPath(g, p) && p[0] == a && p[|p| - 1] == b;
    forall i | 0 <= i < |p| - 1 ensures Edge(h, p[i], p[i + 1]) {
      SccPath(g, s, p, i);
      assert Edge(g, p[i], p[i + 1]);
    }
    assert IsPath(h, p);
  }

  lemma BlockTransfer(g: DepGraph, gs: map<InstanceID, SeqNum>, h: DepGraph, hs: map<InstanceID, SeqNum>,
                      before: set<InstanceID>, block: seq<InstanceID>)
    requires BlockOk(g, gs, before, block) && Closed(h, before)
    requires forall x :: x in block ==> x in h && x in g && h[x] == g[x] && x in hs && x in gs && hs[x] == gs[x]
    ensures BlockOk(h, hs, before, block)
  {
    hide IsScc, Reach;
    SccTransfer(g, h, Elems(block), before);
    forall i, j | 0 <= i < j < |block| ensures !ExecutesBefore(hs, block[j], block[i]) {
      assert !ExecutesBefore(gs, block[j], block[i]);
    }
  }

  /** Edges lead to the same block or an earlier one, or to what had executed before. */
  ghost predicate EdgesBack(g: DepGraph, executed: set<InstanceID>, blocks: seq<seq<InstanceID>>) {
    forall k, x, y :: 0 <= k < |blocks| && x in blocks[k] && Edge(g, x, y)
      ==> y in executed + Flat(blocks[..k]) || y in blocks[k]
  }

  lemma {:induction false} PrefixClosed(g: DepGraph, executed: set<InstanceID>, blocks: seq<seq<InstanceID>>, k: nat)
    requires EdgesBack(g, executed, blocks) && Closed(g, executed) && k <= |blocks|
    ensures Closed(g, executed + Flat(blocks[..k]))
  {
    if k == 0 {
      assert executed + Flat(blocks[..0]) == executed;
    } else {
      PrefixClosed(g, executed, blocks, k - 1);
      FlatPrefix(blocks, k - 1);
    }
  }

  lemma FlatConcat(a: seq<seq<InstanceID>>, b: seq<seq<InstanceID>>)
    ensures Flat(a + b) == Flat(a) + Flat(b)
  {
    forall x ensures x in Flat(a + b) <==> x in Flat(a) + Flat(b) {
      if x in Flat(a) {
        var s :| s in a && x in s;
        assert s in a + b;
      }
      if x in Flat(b) {
        var s :| s in b && x in s;
        assert s in a + b;
      }
    }
  }

  lemma {:induction false} ConcatConcat(a: seq<seq<InstanceID>>, b: seq<seq<InstanceID>>)
    ensures Concat(a + b) == Concat(a) + Concat(b)
  {
    if b == [] {
      assert a + b == a;
    } else {
      var l := |b| - 1;
      ConcatConcat(a, b[..l]);
      assert (a + b)[..|a + b| - 1] == a + b[..l];
    }
  }

  /** Blocks that are good in one graph are good in another that agrees on them. */
  lemma BlocksTransfer(g: DepGraph, gs: map<InstanceID, SeqNum>, h: DepGraph, hs: map<InstanceID, SeqNum>,
                       executed: set<InstanceID>, blocks: seq<seq<InstanceID>>)
    requires BlocksOk(g, gs, executed, blocks) && Closed(h, executed)
    requires forall x :: x in Flat(blocks) ==> x in h && x in g && h[x] == g[x] && x in hs && x in gs && hs[x] == gs[x]
    ensures BlocksOk(h, hs, executed, blocks) && EdgesBack(h, executed, blocks)
  {
    hide IsScc, Reach, Ordered, Flat;
    forall k | 0 <= k < |blocks| ensures forall x :: x in blocks[k] ==> x in Flat(blocks) {
      FlatPrefix(blocks, k);
      assert forall x :: x in blocks[k] ==> x in Elems(blocks[k]);
    }
    assert forall k {:trigger blocks[k]} :: 0 <= k < |blocks| ==> BlockOk(g, gs, executed + Flat(blocks[..k]), blocks[k]);
    forall k, x, y | 0 <= k < |blocks| && x in blocks[k] && Edge(h, x, y)
      ensures y in executed + Flat(blocks[..k]) || y in blocks[k]
    {
      assert Edge(g, x, y);
    }
    forall k | 0 <= k < |blocks| ensures BlockOk(h, hs, executed + Flat(blocks[..k]), blocks[k]) {
      PrefixClosed(h, executed, blocks, k);
      BlockTransfer(g, gs, h, hs, executed + Flat(blocks[..k]), blocks[k]);
    }
  }

  lemma BlocksJoin(h: DepGraph, hs: map<InstanceID, SeqNum>, a: seq<seq<InstanceID>>, b: seq<seq<InstanceID>>)
    requires BlocksOk(h, hs, {}, a) && BlocksOk(h, hs, Flat(a), b)
    ensures BlocksOk(h, hs, {}, a + b)
  {
    hide BlockOk, Flat;
    forall k | 0 <= k < |a + b| ensures BlockOk(h, hs, {} + Flat((a + b)[..k]), (a + b)[k]) {
      if k < |a| {
        assert (a + b)[..k] == a[..k];
        assert BlockOk(h, hs, {} + Flat(a[..k]), a[k]);
      } else {
        var j := k - |a|;
        assert (a + b)[..k] == a + b[..j];
        FlatConcat(a, b[..j]);
        assert BlockOk(h, hs, Flat(a) + Flat(b[..j]), b[j]);
        assert {} + Flat((a + b)[..k]) == Flat(a) + Flat(b[..j]);
      }
    }
  }

  // ----- A run of the executor -----

  lemma ClosedBefore(h: DepGraph, hs: map<InstanceID, SeqNum>, blocks: seq<seq<InstanceID>>)
    requires BlocksOk(h, hs, {}, blocks)
    ensures Closed(h, Flat(blocks))
  {
    forall k, x, y | 0 <= k < |blocks| && x in blocks[k] && Edge(h, x, y)
      ensures y in {} + Flat(blocks[..k]) || y in blocks[k]
    {
      assert BlockOk(h, hs, {} + Flat(blocks[..k]), blocks[k]);
    }
    PrefixClosed(h, {}, blocks, |blocks|);
    assert blocks[..|blocks|] == blocks;
    assert {} + Flat(blocks) == Flat(blocks);
  }

  /** The instances after a delivery. */
  lemma Delivered(n: Node, blocks: seq<seq<InstanceID>>)
    requires CanDeliver(n, Flat(blocks))
    ensures var m := DeliverBlocks(n, blocks);
            && m.blocks == n.blocks + blocks
            && m.pending == n.pending - Flat(blocks)
            && m.insts.Keys == n.insts.Keys
            && ExecutedIds(m) == ExecutedIds(n) + Flat(blocks)
            && (forall id :: id in n.insts ==>
                  m.insts[id].deps == n.insts[id].deps && m.insts[id].seqNum == n.insts[id].seqNum
                  && m.insts[id].cmd == n.insts[id].cmd)
  {
    hide Flat, Concat;
  }

  lemma DeliveryMatches(n: Node, blocks: seq<seq<InstanceID>>)
    requires LocalOk(n) && BlocksMatch(n) && RunOk(n, blocks)
    ensures BlocksMatch(DeliverBlocks(n, blocks))
  {
    hide DeliverBlocks, Flat, LocalOk, BlockOk, Ready, CanDeliver;
    RunDelivers(n, blocks);
    Delivered(n, blocks);
    var m := DeliverBlocks(n, blocks);
    RunInside(n, blocks);
    var h, hs := ExecutedGraph(m), ExecutedSeqs(m);
    BlocksTransfer(ExecutedGraph(n), ExecutedSeqs(n), h, hs, {}, n.blocks);
    ClosedBefore(h, hs, n.blocks);
    BlocksTransfer(PendingGraph(n), PendingSeqs(n), h, hs, ExecutedIds(n), blocks);
    BlocksJoin(h, hs, n.blocks, blocks);
    FlatConcat(n.blocks, blocks);
  }

  lemma RunInside(n: Node, blocks: seq<seq<InstanceID>>)
    requires RunOk(n, blocks)
    ensures forall id :: id in Flat(blocks) ==> id in n.pending && id in n.insts
  {
    assert forall id :: id in Flat(blocks) ==> Ready(PendingGraph(n), ExecutedIds(n), id);
  }

  lemma RecordedLater(insts: Instances, later: Instances, ids: seq<InstanceID>, cmds: seq<Command>)
    requires Recorded(insts, ids, cmds)
    requires forall id :: id in ids ==> id in later && later[id].cmd == insts[id].cmd
    ensures Recorded(later, ids, cmds)
  {
  }

  lemma DeliveryRecords(n: Node, blocks: seq<seq<InstanceID>>)
    requires CanDeliver(n, Flat(blocks)) && Recorded(n.insts, Concat(n.blocks), n.executed)
    ensures var m := DeliverBlocks(n, blocks); Recorded(m.insts, Concat(m.blocks), m.executed)
  {
    hide Flat, Concat;
    var m := DeliverBlocks(n, blocks);
    var ids := Concat(blocks);
    ConcatElems(blocks);
    assert forall id :: id in ids ==> id in Elems(ids);
    assert forall id :: id in ids ==> id in n.insts && n.insts[id].cmd.Some?;
    assert Recorded(n.insts, ids, Commands(n.insts, ids));
    RecordedLater(n.insts, m.insts, Concat(n.blocks), n.executed);
    RecordedLater(n.insts, m.insts, ids, Commands(n.insts, ids));
    ConcatConcat(n.blocks, blocks);
    RecordedJoin(m.insts, Concat(n.blocks), n.executed, ids, Commands(n.insts, ids));
  }

  lemma RecordedJoin(insts: Instances, ids: seq<InstanceID>, cmds: seq<Command>, ids': seq<InstanceID>, cmds': seq<Command>)
    requires Recorded(insts, ids, cmds) && Recorded(insts, ids', cmds')
    ensures Recorded(insts, ids + ids', cmds + cmds')
  {
  }

  /** Executing what is ready makes nothing else ready. */
  lemma ReadyBefore(g: DepGraph, executed: set<InstanceID>, done: set<InstanceID>, h: DepGraph, x: InstanceID)
    requires executed !! g.Keys
    requires forall y :: y in done <==> Ready(g, executed, y)
    requires forall y :: y in h <==> y in g && y !in done
    requires forall y :: y in h ==> h[y] == g[y]
    ensures !Ready(h, executed + done, x)
  {
    if Ready(h, executed + done, x) {
      var s := iset y | Ready(h, executed + done, y) || y in done || y in executed;
      forall a, b | a in s && Edge(g, a, b) ensures b in s {
        if a in done {
          ReachEdge(g, a, b);
          if b in g {
            ReadyDown(g, executed, a, b);
          }
        } else {
          assert Edge(h, a, b);
          ReachEdge(h, a, b);
          if b in h {
            ReadyDown(h, executed + done, a, b);
          }
        }
      }
      forall y | Reach(g, x, y) ensures y in g || y in executed {
        ReachClosed(g, s, x, y);
      }
      assert Ready(g, executed, x);
    }
  }

  lemma DeliveryBlocks(n: Node, blocks: seq<seq<InstanceID>>)
    requires LocalOk(n) && RunOk(n, blocks)
    ensures Blocked(DeliverBlocks(n, blocks))
  {
    RunDelivers(n, blocks);
    Delivered(n, blocks);
    var m := DeliverBlocks(n, blocks);
    assert ExecutedIds(n) !! PendingGraph(n).Keys;
    assert forall y :: y in Flat(blocks) <==> Ready(PendingGraph(n), ExecutedIds(n), y);
    hide DeliverBlocks, Flat, LocalOk, Ready, CanDeliver, RunOk;
    forall id | id in m.pending ensures !Ready(PendingGraph(m), ExecutedIds(m), id) {
      ReadyBefore(PendingGraph(n), ExecutedIds(n), Flat(blocks), PendingGraph(m), id);
    }
  }

  // ----- Steps that do not start the executor -----

  /** Nothing executes. */
  ghost predicate ExecSame(n: Node, m: Node) {
    && m.blocks == n.blocks && m.executed == n.executed
    && (forall id {:trigger id in m.insts} {:trigger id in n.insts} ::
          && (id in n.insts && n.insts[id].status == Executed ==> id in m.insts && m.insts[id] == n.insts[id])
          && (id in m.insts && m.insts[id].status == Executed ==> id in n.insts && n.insts[id] == m.insts[id]))
  }

  /** Nothing new waits either. */
  ghost predicate WaitsSame(n: Node, m: Node) {
    && m.pending == n.pending
    && forall id :: id in n.pending ==> id in n.insts && id in m.insts && m.insts[id].deps == n.insts[id].deps
  }

  lemma GraphsSame(n: Node, m: Node)
    requires ExecSame(n, m)
    ensures ExecutedIds(m) == ExecutedIds(n)
    ensures ExecutedGraph(m) == ExecutedGraph(n) && ExecutedSeqs(m) == ExecutedSeqs(n)
  {
  }

  lemma ExecOkSame(n: Node, m: Node)
    requires ExecOk(n) && ExecSame(n, m)
    ensures ExecOk(m)
  {
    hide Flat, Concat, BlocksOk, ExecutedGraph, ExecutedSeqs;
    ConcatElems(n.blocks);
    assert forall id :: id in Concat(n.blocks) ==> id in Elems(Concat(n.blocks));
    GraphsSame(n, m);
    assert forall id :: id in Concat(n.blocks) ==> id in ExecutedIds(n);
    RecordedLater(n.insts, m.insts, Concat(n.blocks), n.executed);
  }

  lemma BlockedSame(n: Node, m: Node)
    requires Blocked(n) && ExecSame(n, m) && WaitsSame(n, m)
    ensures Blocked(m)
  {
    assert ExecutedIds(m) == ExecutedIds(n);
    assert PendingGraph(m) == PendingGraph(n);
  }

  lemma ExecSameItself(n: Node)
    ensures ExecSame(n, n)
  {
  }

  lemma ExecSameTrans(n: Node, e: Node, m: Node)
    requires ExecSame(n, e) && ExecSame(e, m)
    ensures ExecSame(n, m)
  {
  }

  /** A transition away from any status but Committed executes nothing. */
  lemma TransitionSame(n: Node, id: InstanceID, to: Status)
    requires id in n.insts && n.insts[id].status != Executed && to != Executed
    ensures var o := TransitionTo(n, id, to);
            ExecSame(n, o.node) && (o.run || o.node.pending == n.pending) && (to == Accepted ==> !o.run)
  {
  }

  lemma SetSame(n: Node, id: InstanceID, inst: Instance)
    requires id in n.insts ==> n.insts[id].status != Executed
    requires inst.status != Executed
    ensures ExecSame(n, SetInst(n, id, inst))
  {
  }

  lemma TimersSame(n: Node, id: InstanceID)
    requires id in n.insts && n.insts[id].status != Executed
    ensures ExecSame(n, UnregisterTimer(n, id)) && ExecSame(n, RegisterTimer(n, id))
  {
  }

  lemma DecisionSame(n: Node, id: InstanceID)
    requires id in n.insts && n.insts[id].status != Executed
    ensures var o := OnEitherPreAcceptReply(n, id);
            ExecSame(n, o.node) && (o.run || o.node.pending == n.pending)
  {
    hide TransitionTo, ExecSame;
    var u := UnregisterTimer(n, id);
    TransitionSame(u, id, Committed);
    TransitionSame(u, id, Accepted);
    TimersSame(n, id);
    ExecSameItself(n);
    ExecSameTrans(n, u, TransitionTo(u, id, Committed).node);
    ExecSameTrans(n, u, TransitionTo(u, id, Accepted).node);
  }

  lemma RequestSame(n: Node, cmd: Command)
    ensures var o := OnRequest(n, cmd);
            ExecSame(n, o.node) && (o.run || o.node.pending == n.pending)
  {
    hide SeqAndDeps, BroadcastMsgs;
    var id := InstanceID(n.id, MaxNum(n.insts, n.id) + 1);
    assert id !in n.insts;
  }

  /** The three messages a leader sends. */
  lemma OrderedSame(n: Node, m: Message)
    requires m.inst in n.insts && !IsReply(m.body)
    ensures var o := Dispatch(n, m);
            ExecSame(n, o.node) && (o.run || o.node.pending == n.pending)
  {
    hide SeqAndDeps;
    match m.body
    case PreAcceptMsg(_, _) =>
    case AcceptMsg(_) =>
    case CommitMsg(_, _) =>
  }

  /** The leader's copy once more. */
  lemma ReplySame(n: Node, m: Message)
    requires m.inst in n.insts && IsReply(m.body)
    ensures var o := Dispatch(n, m);
            ExecSame(n, o.node) && (o.run || o.node.pending == n.pending)
  {
    hide TransitionTo, OnEitherPreAcceptReply, ExecSame;
    var inst := n.insts[m.inst];
    ExecSameItself(n);
    if inst.status == PreAccepted && !m.body.AcceptOK? {
      var next := if m.body.PreAcceptOK? then inst.(preAcceptReplies := inst.preAcceptReplies + 1)
                  else MergeReply(inst, m.body.updated);
      var s := SetInst(n, m.inst, next);
      SetSame(n, m.inst, next);
      DecisionSame(s, m.inst);
      ExecSameTrans(n, s, OnEitherPreAcceptReply(s, m.inst).node);
    } else if inst.status == Accepted && m.body.AcceptOK? {
      var next := inst.(acceptReplies := inst.acceptReplies + 1);
      var s := SetInst(n, m.inst, next);
      SetSame(n, m.inst, next);
      TransitionSame(s, m.inst, Committed);
      ExecSameTrans(n, s, TransitionTo(s, m.inst, Committed).node);
    }
  }

  lemma DispatchSame(n: Node, m: Message)
    requires m.inst in n.insts
    ensures var o := Dispatch(n, m);
            ExecSame(n, o.node) && (o.run || o.node.pending == n.pending)
  {
    hide Dispatch;
    if IsReply(m.body) {
      ReplySame(n, m);
    } else {
      OrderedSame(n, m);
    }
  }

  lemma StepSame(n: Node, m: Message)
    ensures var o := Step(n, m);
            ExecSame(n, o.node) && (o.run || o.node.pending == n.pending)
  {
    hide Dispatch;
    var s := SetInst(n, m.inst, NEW_INSTANCE);
    DispatchSame(s, m);
    if m.inst in n.insts {
      DispatchSame(n, m);
    }
    ExecSameItself(n);
    if m.inst !in n.insts {
      assert ExecSame(n, s);
      ExecSameTrans(n, s, Dispatch(s, m).node);
    }
  }

  lemma TickOneSame(n: Node, id: InstanceID)
    requires id in n.insts ==> n.insts[id].status != Executed
    ensures ExecSame(n, TickOne(n, id)) && TickOne(n, id).pending == n.pending
  {
    hide TransitionTo;
    if id in n.insts && !n.insts[id].timer.paused {
      var u := UnregisterTimer(n, id);
      TransitionSame(u, id, Accepted);
      assert ExecSame(n, u);
      ExecSameTrans(n, u, TransitionTo(u, id, Accepted).node);
    }
  }

  // ----- Where an instance stands in the order of execution -----

  /** a executed before b. */
  ghost predicate Precedes(ids: seq<InstanceID>, a: InstanceID, b: InstanceID) {
    exists i, j :: 0 <= i < j < |ids| && ids[i] == a && ids[j] == b
  }

  lemma {:induction false} ConcatAt(bs: seq<seq<InstanceID>>, k: nat, i: nat) returns (at: nat)
    requires k < |bs| && i < |bs[k]|
    ensures at == |Concat(bs[..k])| + i < |Concat(bs)| && Concat(bs)[at] == bs[k][i]
    ensures at < |Concat(bs[..k])| + |bs[k]| == |Concat(bs[..k + 1])| <= |Concat(bs)|
    decreases |bs|
  {
    var l := |bs| - 1;
    assert bs[..l + 1] == bs;
    if k < l {
      at := ConcatAt(bs[..l], k, i);
      assert bs[..l][..k] == bs[..k] && bs[..l][..k + 1] == bs[..k + 1];
    } else {
      at := |Concat(bs[..k])| + i;
    }
  }

  /** Lengths of prefixes grow. */
  lemma {:induction false} ConcatPrefix(bs: seq<seq<InstanceID>>, k: nat, l: nat)
    requires k <= l <= |bs|
    ensures Concat(bs[..k]) <= Concat(bs[..l])
    decreases l
  {
    if k < l {
      ConcatPrefix(bs, k, l - 1);
      assert bs[..l][..l - 1] == bs[..l - 1];
    }
  }

  lemma EarlierBlock(bs: seq<seq<InstanceID>>, p: nat, q: nat, a: InstanceID, b: InstanceID)
    requires p < q < |bs| && a in bs[p] && b in bs[q]
    ensures Precedes(Concat(bs), a, b)
  {
    var i :| 0 <= i < |bs[p]| && bs[p][i] == a;
    var j :| 0 <= j < |bs[q]| && bs[q][j] == b;
    var s := ConcatAt(bs, p, i);
    var t := ConcatAt(bs, q, j);
    ConcatPrefix(bs, p + 1, q);
  }

  lemma SameBlock(bs: seq<seq<InstanceID>>, p: nat, i: nat, j: nat)
    requires p < |bs| && i < j < |bs[p]|
    ensures Precedes(Concat(bs), bs[p][i], bs[p][j])
  {
    var s := ConcatAt(bs, p, i);
    var t := ConcatAt(bs, p, j);
  }

  lemma {:induction false} ConcatNoDup(g: DepGraph, gs: map<InstanceID, SeqNum>, executed: set<InstanceID>,
                                       bs: seq<seq<InstanceID>>)
    requires BlocksOk(g, gs, executed, bs)
    ensures NoDup(Concat(bs))
  {
    if bs != [] {
      var l := |bs| - 1;
      forall k | 0 <= k < l ensures BlockOk(g, gs, executed + Flat(bs[..l][..k]), bs[..l][k]) {
        assert bs[..l][..k] == bs[..k];
        assert BlockOk(g, gs, executed + Flat(bs[..k]), bs[k]);
      }
      ConcatNoDup(g, gs, executed, bs[..l]);
      ConcatElems(bs[..l]);
      assert BlockOk(g, gs, executed + Flat(bs[..l]), bs[l]);
      hide Flat, BlockOk, BlocksOk, Concat;
      BlockSplit(g, gs, executed + Flat(bs[..l]), bs[l]);
      JoinNoDup(Concat(bs[..l]), bs[l]);
      ConcatLast(bs);
    }
  }

  lemma BlockSplit(g: DepGraph, gs: map<InstanceID, SeqNum>, before: set<InstanceID>, block: seq<InstanceID>)
    requires BlockOk(g, gs, before, block)
    ensures NoDup(block) && Elems(block) !! before
  {
  }

  lemma ConcatLast(bs: seq<seq<InstanceID>>)
    requires bs != []
    ensures Concat(bs) == Concat(bs[..|bs| - 1]) + bs[|bs| - 1]
  {
  }

  lemma JoinNoDup(a: seq<InstanceID>, b: seq<InstanceID>)
    requires NoDup(a) && NoDup(b) && Elems(a) !! Elems(b)
    ensures NoDup(a + b)
  {
    forall i, j | 0 <= i < j < |a + b| ensures (a + b)[i] != (a + b)[j] {
      if i < |a| <= j {
        assert a[i] in Elems(a) && b[j - |a|] in Elems(b);
      }
    }
  }

  /** In an order without repetition only one of two can come first. */
  lemma PrecedesOneWay(ids: seq<InstanceID>, a: InstanceID, b: InstanceID)
    requires NoDup(ids) && Precedes(ids, a, b)
    ensures !Precedes(ids, b, a)
  {
  }
}

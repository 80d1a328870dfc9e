/**
 * What one run of the executor may do with a pending graph: which instances
 * execute, in which components and in which order.
 */
module Schedule {
  import opened Types
  import opened Graph
  import opened Tarjan

  /** Everything x depends on, directly or not, is pending or executed. */
  ghost predicate Ready(g: DepGraph, executed: set<InstanceID>, x: InstanceID) {
    && x in g
    && forall y :: Reach(g, x, y) ==> y in g || y in executed
  }

  /** The order of execution inside a component: sequence number, then replica. */
  predicate ExecutesBefore(seqs: map<InstanceID, SeqNum>, a: InstanceID, b: InstanceID)
    requires a in seqs && b in seqs
  {
    if seqs[a] != seqs[b] then seqs[a] < seqs[b] else a.replica < b.replica
  }

  ghost predicate Ordered(seqs: map<InstanceID, SeqNum>, block: seq<InstanceID>) {
    && (forall x :: x in block ==> x in seqs)
    && (forall i, j :: 0 <= i < j < |block| ==> !ExecutesBefore(seqs, block[j], block[i]))
  }

  /** In plain comparisons: sequence numbers never fall, and between equal ones replicas never fall. */
  lemma Ascends(seqs: map<InstanceID, SeqNum>, block: seq<InstanceID>)
    requires Ordered(seqs, block)
    ensures forall x :: x in block ==> x in seqs
    ensures forall i, j :: 0 <= i < j < |block| ==>
              seqs[block[i]] <= seqs[block[j]]
              && (seqs[block[i]] == seqs[block[j]] ==> block[i].replica <= block[j].replica)
  {
    forall i, j | 0 <= i < j < |block|
      ensures seqs[block[i]] <= seqs[block[j]]
      ensures seqs[block[i]] == seqs[block[j]] ==> block[i].replica <= block[j].replica
    {
      assert !ExecutesBefore(seqs, block[j], block[i]);
    }
  }

  /** A component that may follow the components in before. */
  ghost predicate BlockOk(g: DepGraph, seqs: map<InstanceID, SeqNum>, before: set<InstanceID>,
                          block: seq<InstanceID>)
  {
    && NoDup(block)
    && IsScc(g, Elems(block))
    && Elems(block) !! before
    && (forall x, y :: x in block && Edge(g, x, y) ==> y in before || y in block)
    && Ordered(seqs, block)
  }

  ghost predicate BlocksOk(g: DepGraph, seqs: map<InstanceID, SeqNum>, executed: set<InstanceID>,
                           blocks: seq<seq<InstanceID>>)
  {
    forall k :: 0 <= k < |blocks| ==> BlockOk(g, seqs, executed + Flat(blocks[..k]), blocks[k])
  }

  /**
   * blocks is a possible outcome of one run on pending graph g: whole
   * components, dependencies first, and exactly the instances that are ready.
   */
  ghost predicate Scheduled(g: DepGraph, seqs: map<InstanceID, SeqNum>, executed: set<InstanceID>,
                            blocks: seq<seq<InstanceID>>)
  {
    && BlocksOk(g, seqs, executed, blocks)
    && (forall x :: x in Flat(blocks) <==> Ready(g, executed, x))
  }

  /** So it is in every component of a run. */
  lemma BlocksAscend(g: DepGraph, seqs: map<InstanceID, SeqNum>, executed: set<InstanceID>,
                     blocks: seq<seq<InstanceID>>)
    requires BlocksOk(g, seqs, executed, blocks)
    ensures forall k, i :: 0 <= k < |blocks| && 0 <= i < |blocks[k]| ==> blocks[k][i] in seqs
    ensures forall k, i, j :: 0 <= k < |blocks| && 0 <= i < j < |blocks[k]| ==>
              var a, b := blocks[k][i], blocks[k][j];
              seqs[a] <= seqs[b] && (seqs[a] == seqs[b] ==> a.replica <= b.replica)
  {
    hide IsScc, Ordered, NoDup, Flat;
    forall k | 0 <= k < |blocks|
      ensures forall x :: x in blocks[k] ==> x in seqs
      ensures forall i, j :: 0 <= i < j < |blocks[k]| ==>
                var a, b := blocks[k][i], blocks[k][j];
                seqs[a] <= seqs[b] && (seqs[a] == seqs[b] ==> a.replica <= b.replica)
    {
      assert BlockOk(g, seqs, executed + Flat(blocks[..k]), blocks[k]);
      Ascends(seqs, blocks[k]);
    }
  }

  /** The check made before a component executes. */
  ghost predicate Passes(g: DepGraph, executed: set<InstanceID>, comp: set<InstanceID>) {
    forall x, d :: x in comp && Edge(g, x, d) ==> d in comp || d in executed
  }

  lemma ReadyDown(g: DepGraph, executed: set<InstanceID>, x: InstanceID, y: InstanceID)
    requires Ready(g, executed, x) && Reach(g, x, y) && y in g
    ensures Ready(g, executed, y)
  {
    forall z | Reach(g, y, z) ensures z in g || z in executed {
      ReachTrans(g, x, y, z);
    }
  }

  /** A component that passes the check is ready. */
  lemma PassingIsReady(g: DepGraph, executed: set<InstanceID>, done: set<InstanceID>,
                       comp: set<InstanceID>, x: InstanceID)
    requires executed !! g.Keys && comp <= g.Keys && x in comp
    requires forall y :: y in done ==> Ready(g, executed, y)
    requires Passes(g, executed + done, comp)
    ensures Ready(g, executed, x)
  {
    var s := iset y | y in comp || Ready(g, executed, y) || y in executed;
    forall a, b | a in s && Edge(g, a, b) ensures b in s {
      if a !in comp {
        ReachEdge(g, a, b);
        if b in g {
          ReadyDown(g, executed, a, b);
        }
      }
    }
    forall y | Reach(g, x, y) ensures y in g || y in executed {
      ReachClosed(g, s, x, y);
    }
  }

  /** A component that fails the check has no ready member. */
  lemma FailingIsBlocked(g: DepGraph, executed: set<InstanceID>, before: set<InstanceID>,
                         done: set<InstanceID>, comp: seq<InstanceID>, y: InstanceID)
    requires executed !! g.Keys && CompOk(g, before, comp) && y in comp
    requires forall d :: d in before && Ready(g, executed, d) ==> d in done
    requires !Passes(g, executed + done, Elems(comp))
    ensures !Ready(g, executed, y)
  {
    var x, d :| x in Elems(comp) && Edge(g, x, d) && d !in Elems(comp) && d !in executed + done;
    assert Reach(g, y, x);
    ReachEdge(g, x, d);
    ReachTrans(g, y, x, d);
    if Ready(g, executed, y) {
      assert d in g;
      ReadyDown(g, executed, y, d);
    }
  }

  /** One more component through the loop of run. */
  lemma StepReady(g: DepGraph, executed: set<InstanceID>, before: set<InstanceID>,
                  done: set<InstanceID>, comp: seq<InstanceID>, x: InstanceID)
    requires executed !! g.Keys && CompOk(g, before, comp)
    requires forall d :: d in done <==> d in before && Ready(g, executed, d)
    requires x in before + Elems(comp)
    ensures Ready(g, executed, x) <==>
            if Passes(g, executed + done, Elems(comp)) then x in done + Elems(comp) else x in done
  {
    if x in comp {
      if Passes(g, executed + done, Elems(comp)) {
        PassingIsReady(g, executed, done, Elems(comp), x);
      } else {
        FailingIsBlocked(g, executed, before, done, comp, x);
      }
    }
  }

  lemma BlocksAppend(g: DepGraph, seqs: map<InstanceID, SeqNum>, executed: set<InstanceID>,
                     blocks: seq<seq<InstanceID>>, block: seq<InstanceID>)
    requires BlocksOk(g, seqs, executed, blocks)
    requires BlockOk(g, seqs, executed + Flat(blocks), block)
    ensures BlocksOk(g, seqs, executed, blocks + [block])
  {
    var bs := blocks + [block];
    forall k | 0 <= k < |bs| ensures BlockOk(g, seqs, executed + Flat(bs[..k]), bs[k]) {
      if k < |blocks| {
        assert bs[..k] == blocks[..k];
      } else {
        assert bs[..k] == blocks;
      }
    }
  }

  /** The loop of run over the components, seen from outside. */
  ghost predicate Running(g: DepGraph, seqs: map<InstanceID, SeqNum>, executed: set<InstanceID>,
                          before: set<InstanceID>, blocks: seq<seq<InstanceID>>)
  {
    && BlocksOk(g, seqs, executed, blocks)
    && (forall x :: x in Flat(blocks) <==> x in before && Ready(g, executed, x))
  }

  lemma RunStart(g: DepGraph, seqs: map<InstanceID, SeqNum>, executed: set<InstanceID>)
    ensures Running(g, seqs, executed, {}, [])
  {
  }

  /** The component executes. */
  lemma RunPass(g: DepGraph, seqs: map<InstanceID, SeqNum>, executed: set<InstanceID>,
                before: set<InstanceID>, blocks: seq<seq<InstanceID>>, comp: seq<InstanceID>,
                block: seq<InstanceID>)
    requires Running(g, seqs, executed, before, blocks)
    requires executed !! g.Keys && CompOk(g, before, comp)
    requires Passes(g, executed + Flat(blocks), Elems(comp))
    requires Elems(block) == Elems(comp) && NoDup(block) && Ordered(seqs, block)
    ensures Running(g, seqs, executed, before + Elems(comp), blocks + [block])
  {
    var done := Flat(blocks);
    FlatAppend(blocks, block);
    assert Elems(block) !! executed + done;
    assert BlockOk(g, seqs, executed + done, block) by {
      forall x, y | x in block && Edge(g, x, y) ensures y in executed + done || y in block {
        assert x in Elems(comp);
        assert y in Elems(comp) || y in executed + done;
      }
    }
    BlocksAppend(g, seqs, executed, blocks, block);
    forall x | x in before + Elems(comp)
      ensures Ready(g, executed, x) <==> x in Flat(blocks + [block])
    {
      StepReady(g, executed, before, done, comp, x);
    }
  }

  /** The component must wait. */
  lemma RunFail(g: DepGraph, seqs: map<InstanceID, SeqNum>, executed: set<InstanceID>,
                before: set<InstanceID>, blocks: seq<seq<InstanceID>>, comp: seq<InstanceID>)
    requires Running(g, seqs, executed, before, blocks)
    requires executed !! g.Keys && CompOk(g, before, comp)
    requires !Passes(g, executed + Flat(blocks), Elems(comp))
    ensures Running(g, seqs, executed, before + Elems(comp), blocks)
  {
    forall x | x in before + Elems(comp)
      ensures Ready(g, executed, x) <==> x in Flat(blocks)
    {
      StepReady(g, executed, before, Flat(blocks), comp, x);
    }
  }

  lemma RunDone(g: DepGraph, seqs: map<InstanceID, SeqNum>, executed: set<InstanceID>,
                blocks: seq<seq<InstanceID>>)
    requires Running(g, seqs, executed, g.Keys, blocks)
    ensures Scheduled(g, seqs, executed, blocks)
  {
  }
}

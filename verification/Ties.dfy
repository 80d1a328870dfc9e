/**
 * Where the tie-break leaves the order of execution open: exactly between
 * members of one component with the same sequence number and replica.
 */
module Ties {
  import opened Types
  import opened Graph
  import opened Schedule
  import opened History
  import opened Order

  function Swapped(s: seq<InstanceID>, i: nat, j: nat): seq<InstanceID>
    requires i < |s| && j < |s|
  {
    s[i := s[j]][j := s[i]]
  }

  lemma SwappedOrdered(seqs: map<InstanceID, SeqNum>, s: seq<InstanceID>, i: nat, j: nat)
    requires Ordered(seqs, s) && NoDup(s) && i < j < |s|
    requires seqs[s[i]] == seqs[s[j]] && s[i].replica == s[j].replica
    ensures var t := Swapped(s, i, j); Elems(t) == Elems(s) && NoDup(t) && Ordered(seqs, t)
  {
    var t := Swapped(s, i, j);
    forall x ensures x in t <==> x in s {
      if x in s {
        var k :| 0 <= k < |s| && s[k] == x;
        assert t[if k == i then j else if k == j then i else k] == x;
      }
      if x in t {
        var k :| 0 <= k < |t| && t[k] == x;
        assert s[if k == i then j else if k == j then i else k] == x;
      }
    }
    forall p, q | 0 <= p < q < |t| ensures t[p] != t[q] && !ExecutesBefore(seqs, t[q], t[p]) {
      assert !ExecutesBefore(seqs, s[q], s[p]);
    }
  }

  /** Another order inside one block does not touch the rest of the schedule. */
  lemma Reordered(g: DepGraph, seqs: map<InstanceID, SeqNum>, executed: set<InstanceID>,
                  bs: seq<seq<InstanceID>>, k: nat, block: seq<InstanceID>)
    requires Scheduled(g, seqs, executed, bs) && k < |bs|
    requires Elems(block) == Elems(bs[k]) && NoDup(block) && Ordered(seqs, block)
    ensures Scheduled(g, seqs, executed, bs[k := block])
  {
    hide Flat;
    hide Ready, IsScc, Ordered, NoDup;
    var cs := bs[k := block];
    forall l: nat | l <= |bs| ensures Flat(cs[..l]) == Flat(bs[..l]) {
      SameFlat(bs, k, block, l);
    }
    assert cs[..|cs|] == cs && bs[..|bs|] == bs;
    forall l | 0 <= l < |cs| ensures BlockOk(g, seqs, executed + Flat(cs[..l]), cs[l]) {
      assert BlockOk(g, seqs, executed + Flat(bs[..l]), bs[l]);
      assert forall x :: x in block <==> x in Elems(bs[k]);
    }
  }

  lemma SameFlat(bs: seq<seq<InstanceID>>, k: nat, block: seq<InstanceID>, l: nat)
    requires k < |bs| && Elems(block) == Elems(bs[k]) && l <= |bs|
    ensures Flat(bs[k := block][..l]) == Flat(bs[..l])
    decreases l
  {
    var cs := bs[k := block];
    if l > 0 {
      SameFlat(bs, k, block, l - 1);
      FlatPrefix(bs, l - 1);
      FlatPrefix(cs, l - 1);
    }
  }

  lemma ScheduleFacts(g: DepGraph, seqs: map<InstanceID, SeqNum>, executed: set<InstanceID>, bs: seq<seq<InstanceID>>)
    requires Scheduled(g, seqs, executed, bs) && executed !! g.Keys
    ensures Scheduling(g, seqs, executed, bs)
  {
    forall k, x, y | 0 <= k < |bs| && x in bs[k] && Edge(g, x, y)
      ensures y in executed + Flat(bs[..k]) || y in bs[k]
    {
      assert BlockOk(g, seqs, executed + Flat(bs[..k]), bs[k]);
    }
  }

  /**
   * One run of the executor may execute two members of a component in either
   * order exactly when they tie: equal sequence numbers and the same replica.
   */
  lemma TieExact(g: DepGraph, seqs: map<InstanceID, SeqNum>, executed: set<InstanceID>,
                 bs: seq<seq<InstanceID>>, k: nat, i: nat, j: nat)
    requires Scheduled(g, seqs, executed, bs) && executed !! g.Keys
    requires k < |bs| && i < j < |bs[k]|
    ensures bs[k][i] in seqs && bs[k][j] in seqs
    ensures (exists cs :: Scheduled(g, seqs, executed, cs) && Precedes(Concat(cs), bs[k][j], bs[k][i])) <==>
            (seqs[bs[k][i]] == seqs[bs[k][j]] && bs[k][i].replica == bs[k][j].replica)
  {
    hide Ready, IsScc, Precedes, Concat, Scheduled, Reach;
    var a, b := bs[k][i], bs[k][j];
    ScheduledBlock(g, seqs, executed, bs, k);
    if seqs[a] == seqs[b] && a.replica == b.replica {
      var cs := bs[k := Swapped(bs[k], i, j)];
      SwappedOrdered(seqs, bs[k], i, j);
      Reordered(g, seqs, executed, bs, k, cs[k]);
      SameBlock(cs, k, i, j);
    } else {
      forall cs | Scheduled(g, seqs, executed, cs) ensures !Precedes(Concat(cs), b, a) {
        assert !ExecutesBefore(seqs, b, a);
        SccMembers(g, Elems(bs[k]), a, b);
        SameMembers(g, seqs, executed, bs, cs, a);
        SameMembers(g, seqs, executed, bs, cs, b);
        ScheduleFacts(g, seqs, executed, cs);
        MustPrecede(g, seqs, executed, cs, a, b);
        ConcatNoDup(g, seqs, executed, cs);
        PrecedesOneWay(Concat(cs), a, b);
      }
    }
  }

  lemma ScheduledBlock(g: DepGraph, seqs: map<InstanceID, SeqNum>, executed: set<InstanceID>,
                       bs: seq<seq<InstanceID>>, k: nat)
    requires Scheduled(g, seqs, executed, bs) && k < |bs|
    ensures BlockOk(g, seqs, executed + Flat(bs[..k]), bs[k])
    ensures Elems(bs[k]) <= Flat(bs)
  {
    FlatPrefix(bs, k);
  }

  /** Which instances a run executes does not depend on the order. */
  lemma SameMembers(g: DepGraph, seqs: map<InstanceID, SeqNum>, executed: set<InstanceID>,
                    bs: seq<seq<InstanceID>>, cs: seq<seq<InstanceID>>, a: InstanceID)
    requires Scheduled(g, seqs, executed, bs) && Scheduled(g, seqs, executed, cs) && a in Flat(bs)
    ensures a in Flat(cs)
  {
  }
}

/**
 * The executor of the efficient EPaxos: Tarjan's algorithm over intervals of
 * dependencies, executing each component as it is found, without a test for
 * whether a visited instance is still on the stack.
 */
module EagerExecution {
  import opened Types
  import opened Graph
  import opened Tarjan
  import opened Schedule
  import opened History

  datatype Phase = NONE | PREACCEPTED | PREACCEPTED_EQ | ACCEPTED | COMMITTED | EXECUTED

  class Instance {
    const id: InstanceID
    const seqNum: int
    const deps: seq<int>
    var status: Phase
    var index: int
    var lowlink: int

    constructor (id: InstanceID, seqNum: int, deps: seq<int>, status: Phase)
      ensures this.id == id && this.seqNum == seqNum && this.deps == deps && this.status == status
      ensures index == 0 && lowlink == 0
    {
      this.id, this.seqNum, this.deps, this.status := id, seqNum, deps, status;
      index, lowlink := 0, 0;
    }
  }

  predicate InSeqOrder(s: seq<Instance>) {
    forall i, j :: 0 <= i < j < |s| ==> s[i].seqNum <= s[j].seqNum
  }

  class Exec {
    const n: nat
    var space: map<InstanceID, Instance>
    var execedUpTo: seq<int>
    var stack: seq<Instance>
    var counter: int
    var log: seq<InstanceID>

    /** The search as the theory sees it, and what executed since it began. */
    ghost var search: Search
    ghost var blocks: seq<seq<InstanceID>>
    ghost var base: seq<InstanceID>

    ghost predicate Has(v: Instance)
      reads this`space
    {
      v.id in space && space[v.id] == v
    }

    /** v depends on d: d's row holds it within v's interval. */
    predicate Wants(v: InstanceID, d: InstanceID)
      reads this`space
    {
      && v in space && d.replica < n && n <= |space[v].deps|
      && d.num <= space[v].deps[d.replica]
    }

    ghost function Cells(): set<Instance>
      reads this`space
    {
      set id | id in space :: space[id]
    }

    ghost predicate Named()
      reads this`space
    {
      forall id :: id in space ==> space[id].id == id
    }

    ghost function Members(g: DepGraph): set<Instance>
      reads this`space
    {
      set id | id in g && id in space :: space[id]
    }

    /**
     * g is the graph of a set of instances that had not executed when the search
     * began; whatever they depend on is in the set or has executed.
     */
    ghost predicate Fixed(g: DepGraph)
      reads this`space, this`execedUpTo, Cells()`status
    {
      && (forall id :: id in g ==> id in space && n <= |space[id].deps|)
      && (forall v, d :: v in g ==> (d in g[v] <==> d in g && Wants(v, d)))
      && (forall v, d {:trigger Wants(v, d)} :: v in g && Wants(v, d) && d !in g ==>
            d in space && space[d].status == EXECUTED)
      && |execedUpTo| == n && (forall q :: 0 <= q < n ==> execedUpTo[q] >= -1)
      && (forall q, id :: 0 <= q < n && id in g && id.replica == q ==> id.num > execedUpTo[q])
    }

    ghost predicate Stacked(t: Search, g: DepGraph)
      reads this`space, this`stack
    {
      && |stack| == |t.stack|
      && forall k :: 0 <= k < |stack| ==> t.stack[k] in g && t.stack[k] in space && space[t.stack[k]] == stack[k]
    }

    ghost predicate Indexed(t: Search, g: DepGraph)
      reads this`space, Members(g)`index
    {
      forall id :: id in g && id in space ==> space[id].index == if id in t.index then t.index[id] + 1 else 0
    }

    ghost predicate Phased(t: Search, g: DepGraph)
      reads this`space, Members(g)`status
    {
      forall id :: id in g && id in space ==> space[id].status == if id in t.done then EXECUTED else COMMITTED
    }

    /** The fields hold the state of the search. */
    ghost predicate Mirrors(t: Search, g: DepGraph)
      reads this`space, this`stack, this`counter, Members(g)`index, Members(g)`status
    {
      counter == t.next + 1 && Stacked(t, g) && Indexed(t, g) && Phased(t, g)
    }

    /** The log holds the components found so far, each in the order of sequence numbers. */
    ghost predicate Logs(t: Search)
      reads this`log, this`blocks, this`base, this`space
    {
      LogsAs(t, log)
    }

    ghost predicate LogsAs(t: Search, lg: seq<InstanceID>)
      reads this`blocks, this`base, this`space
    {
      Lists(blocks, t.comps) && lg == base + Concat(blocks)
    }

    /** bs are the components comps, each in the order of sequence numbers. */
    ghost predicate Lists(bs: seq<seq<InstanceID>>, comps: seq<seq<InstanceID>>)
      reads this`space
    {
      && |bs| == |comps|
      && forall k :: 0 <= k < |bs| ==> Elems(bs[k]) == Elems(comps[k]) && NoDup(bs[k]) && BySeq(bs[k])
    }

    ghost predicate BySeq(s: seq<InstanceID>)
      reads this`space
    {
      && (forall id :: id in s ==> id in space)
      && (forall i, j :: 0 <= i < j < |s| ==> space[s[i]].seqNum <= space[s[j]].seqNum)
    }

    /**
     * The test that the code leaves out: an instance that has been visited and
     * has not executed is on the stack.
     */
    lemma VisitedIsStacked(g: DepGraph, grays: set<InstanceID>, w: Instance)
      requires Mirrors(search, g) && Inv(g, search, grays) && w.id in g && Has(w)
      ensures w.index != 0 && w.status != EXECUTED <==> w in stack
      ensures w.id in search.index <==> w.index != 0
      ensures w.id in search.done <==> w.status == EXECUTED
      ensures w.index != 0 && w.status != EXECUTED ==> w.id in search.on && w.index == search.index[w.id] + 1
    {
      if w.id in search.on {
        var k :| 0 <= k < |search.stack| && search.stack[k] == w.id;
        assert stack[k] == w;
      }
    }

    // ----- The search -----

    /** Everything visited is reachable from where the search began. */
    ghost predicate Rooted(g: DepGraph, t: Search, root: InstanceID) {
      forall x {:trigger x in t.index} :: x in t.index ==> Reach(g, root, x)
    }

    /** Numbers v and pushes it. */
    method Enter(v: Instance, ghost g: DepGraph)
      requires Named() && Fixed(g) && Mirrors(search, g) && Has(v) && v.id in g && v.id !in search.index
      requires search.done <= search.index.Keys && Logs(search)
      modifies this`stack, this`counter, this`search, v`index, v`lowlink
      ensures search == Tarjan.Push(old(search), v.id)
      ensures v.lowlink == old(search).next + 1
      ensures Fixed(g) && Mirrors(search, g) && Logs(search)
    {
      hide Fixed, Logs;
      v.index := counter;
      v.lowlink := counter;
      counter := counter + 1;
      stack := stack + [v];
      ghost var t := search;
      search := Tarjan.Push(search, v.id);
      PushLogs(t, v.id);
    }

    lemma PushLogs(t: Search, v: InstanceID)
      requires Logs(t)
      ensures Logs(Tarjan.Push(t, v))
    {
    }

    /** Depth-first search from v; components execute as they are found. */
    method StrongConnect(v: Instance, ghost g: DepGraph, ghost grays: set<InstanceID>, ghost root: InstanceID)
      returns (ok: bool)
      requires Named() && Fixed(g) && Mirrors(search, g) && Inv(g, search, grays) && Logs(search) && Rooted(g, search, root)
      requires Has(v) && v.id in g && v.id !in search.index
      requires Reach(g, root, v.id) && forall x :: x in grays ==> Reach(g, x, v.id)
      modifies this`stack, this`counter, this`log, this`search, this`blocks
      modifies Members(g)`index, Members(g)`lowlink, Members(g)`status
      ensures ok && Fixed(g) && Mirrors(search, g) && Inv(g, search, grays) && Logs(search) && Rooted(g, search, root)
      ensures Visited(g, old(search), search, v.id, v.lowlink - 1)
      ensures forall id :: id in old(search).index && id in g && id in space ==>
                space[id].lowlink == old(space[id].lowlink)
      decreases g.Keys - search.index.Keys, 0
    {
      hide Inv, Visiting, Visited, Reach, Mirrors, Fixed, Logs;
      ghost var t0 := search;
      var l := |stack|;
      StackLength(g);
      PushVisiting(g, t0, grays, v.id);
      EnterFacts(g, grays);
      Enter(v, g);
      RootedPush(g, t0, root, v.id);
      assert v.id in g.Keys - t0.index.Keys;
      assert g.Keys - search.index.Keys < g.Keys - t0.index.Keys;
      ok := VisitRows(v, g, grays, t0, root);
      Finish(v, l, g, grays, t0, root);
    }

    lemma EnterFacts(g: DepGraph, grays: set<InstanceID>)
      requires Inv(g, search, grays)
      ensures search.done <= search.index.Keys <= g.Keys
    {
    }

    lemma RootedPush(g: DepGraph, t: Search, root: InstanceID, v: InstanceID)
      requires Rooted(g, t, root) && Reach(g, root, v)
      ensures Rooted(g, Tarjan.Push(t, v), root)
    {
    }

    /** The loop over the rows of v's dependencies. */
    method VisitRows(v: Instance, ghost g: DepGraph, ghost grays: set<InstanceID>, ghost t0: Search,
                     ghost root: InstanceID) returns (ok: bool)
      requires Named() && Fixed(g) && Mirrors(search, g) && Logs(search) && Rooted(g, search, root) && Has(v) && v.id in g
      requires Visiting(g, t0, search, grays, v.id, v.lowlink - 1, {})
      modifies this`stack, this`counter, this`log, this`search, this`blocks
      modifies Members(g)`index, Members(g)`lowlink, Members(g)`status
      ensures ok && Fixed(g) && Mirrors(search, g) && Logs(search) && Rooted(g, search, root)
      ensures Visiting(g, t0, search, grays, v.id, v.lowlink - 1, g[v.id])
      ensures forall id :: id in t0.index && id in g && id in space ==> space[id].lowlink == old(space[id].lowlink)
      decreases g.Keys - search.index.Keys, 3
    {
      hide Inv, Visiting, Visited, Reach, Mirrors, Fixed, Logs;
      ghost var seen: set<InstanceID> := {};
      var q := 0;
      while q < n
        invariant 0 <= q <= n
        invariant Fixed(g) && Mirrors(search, g) && Logs(search) && Rooted(g, search, root)
        invariant Visiting(g, t0, search, grays, v.id, v.lowlink - 1, seen)
        invariant old(search).index.Keys <= search.index.Keys
        invariant forall d :: d in g && d.replica < q && Wants(v.id, d) ==> d in seen
        invariant forall id :: id in t0.index && id in g && id in space ==>
                    space[id].lowlink == old(space[id].lowlink)
      {
        ok, seen := VisitRow(v, q, g, grays, t0, root, seen);
        q := q + 1;
      }
      ok := true;
      AllSeen(v, g, seen);
      SeenAll(g, t0, search, grays, v.id, v.lowlink - 1, seen);
    }

    lemma AllSeen(v: Instance, g: DepGraph, seen: set<InstanceID>)
      requires Named() && Fixed(g) && Has(v) && v.id in g
      requires forall d :: d in g && d.replica < n && Wants(v.id, d) ==> d in seen
      ensures forall d :: d in g[v.id] && d in g ==> d in seen
    {
    }

    /** One row: the interval above what has executed entirely. */
    method VisitRow(v: Instance, q: nat, ghost g: DepGraph, ghost grays: set<InstanceID>, ghost t0: Search,
                    ghost root: InstanceID, ghost seen: set<InstanceID>)
      returns (ok: bool, ghost seen': set<InstanceID>)
      requires Named() && Fixed(g) && Mirrors(search, g) && Logs(search) && Rooted(g, search, root) && Has(v) && v.id in g
      requires Visiting(g, t0, search, grays, v.id, v.lowlink - 1, seen) && q < n
      modifies this`stack, this`counter, this`log, this`search, this`blocks
      modifies Members(g)`index, Members(g)`lowlink, Members(g)`status
      ensures ok && Fixed(g) && Mirrors(search, g) && Logs(search) && Rooted(g, search, root)
      ensures Visiting(g, t0, search, grays, v.id, v.lowlink - 1, seen')
      ensures old(search).index.Keys <= search.index.Keys && seen <= seen'
      ensures forall d :: d in g && d.replica == q && Wants(v.id, d) ==> d in seen'
      ensures forall id :: id in t0.index && id in g && id in space ==> space[id].lowlink == old(space[id].lowlink)
      decreases g.Keys - search.index.Keys, 2
    {
      hide Inv, Visiting, Visited, Reach, Mirrors, Logs, Fixed, Wants;
      RowFacts(v, q, g);
      seen' := seen;
      var i := execedUpTo[q] + 1;
      while i <= v.deps[q]
        invariant Fixed(g) && Mirrors(search, g) && Logs(search) && Rooted(g, search, root)
        invariant Visiting(g, t0, search, grays, v.id, v.lowlink - 1, seen')
        invariant old(search).index.Keys <= search.index.Keys && seen <= seen'
        invariant i >= 0 && forall j: nat :: execedUpTo[q] < j < i ==> InstanceID(q, j) in seen'
        invariant forall id :: id in t0.index && id in g && id in space ==>
                    space[id].lowlink == old(space[id].lowlink)
        decreases v.deps[q] - i
      {
        RowHas(v, q, i, g);
        VisitDep(v, InstanceID(q, i), g, grays, t0, root, seen');
        seen' := seen' + {InstanceID(q, i)};
        i := i + 1;
      }
      ok := true;
      RowDone(v, q, g, seen', i);
    }

    lemma RowFacts(v: Instance, q: nat, g: DepGraph)
      requires Named() && Fixed(g) && Has(v) && v.id in g && q < n
      ensures q < |execedUpTo| && q < |v.deps| && execedUpTo[q] >= -1
    {
    }

    lemma RowHas(v: Instance, q: nat, i: nat, g: DepGraph)
      requires Named() && Fixed(g) && Has(v) && v.id in g && q < n && q < |v.deps| && i <= v.deps[q]
      ensures Wants(v.id, InstanceID(q, i))
    {
    }

    /** What lies at or below execedUpTo has executed, and is no dependency to follow. */
    lemma RowDone(v: Instance, q: nat, g: DepGraph, seen: set<InstanceID>, i: int)
      requires Named() && Fixed(g) && Has(v) && v.id in g && q < n
      requires q < |execedUpTo| && q < |v.deps| && v.deps[q] < i
      requires forall j: nat :: execedUpTo[q] < j < i ==> InstanceID(q, j) in seen
      ensures forall d :: d in g && d.replica == q && Wants(v.id, d) ==> d in seen
    {
      forall d | d in g && d.replica == q && Wants(v.id, d) ensures d in seen {
        assert d == InstanceID(q, d.num);
      }
    }

    /** One dependency: passed over if executed, visited if new, noted if on the stack. */
    method VisitDep(v: Instance, d: InstanceID, ghost g: DepGraph, ghost grays: set<InstanceID>, ghost t0: Search,
                    ghost root: InstanceID, ghost seen: set<InstanceID>)
      requires Named() && Fixed(g) && Mirrors(search, g) && Logs(search) && Rooted(g, search, root) && Has(v) && v.id in g
      requires Visiting(g, t0, search, grays, v.id, v.lowlink - 1, seen) && Wants(v.id, d)
      modifies this`stack, this`counter, this`log, this`search, this`blocks
      modifies Members(g)`index, Members(g)`lowlink, Members(g)`status
      ensures Fixed(g) && Mirrors(search, g) && Logs(search) && Rooted(g, search, root)
      ensures Visiting(g, t0, search, grays, v.id, v.lowlink - 1, seen + {d})
      ensures old(search).index.Keys <= search.index.Keys
      ensures forall id :: id in t0.index && id in g && id in space ==> space[id].lowlink == old(space[id].lowlink)
      decreases g.Keys - search.index.Keys, 1
    {
      hide Inv, Visiting, Visited, Reach, Mirrors, Fixed, Logs;
      ghost var t, l := search, v.lowlink - 1;
      VisitingFacts(g, t0, t, grays, v.id, l, seen);
      DepFacts(v, d, g, grays + {v.id});
      var w := space[d];
      if w.status == EXECUTED {
        LowDone(g, t0, t, grays, v.id, l, seen, d);
      } else if w.index == 0 {
        GraysReachChild(g, t0, t, grays, v.id, l, seen, d);
        RootedChild(g, t, root, v.id, d);
        var ok := StrongConnect(w, g, grays + {v.id}, root);
        LowTree(g, t0, t, search, grays, v.id, l, seen, d, w.lowlink - 1);
        VisitedFacts(g, t, search, d, w.lowlink - 1);
        if w.lowlink < v.lowlink {
          v.lowlink := w.lowlink;
        }
      } else {
        LowBack(g, t0, t, grays, v.id, l, seen, d);
        if w.index < v.lowlink {
          v.lowlink := w.index;
        }
      }
    }

    lemma RootedChild(g: DepGraph, t: Search, root: InstanceID, v: InstanceID, d: InstanceID)
      requires Rooted(g, t, root) && v in t.index && Edge(g, v, d)
      ensures Reach(g, root, d)
    {
      ReachEdge(g, v, d);
      ReachTrans(g, root, v, d);
    }

    /** What the three cases of the loop mean for the search. */
    lemma DepFacts(v: Instance, d: InstanceID, g: DepGraph, grays: set<InstanceID>)
      requires Named() && Fixed(g) && Mirrors(search, g) && Inv(g, search, grays) && Has(v) && v.id in g && Wants(v.id, d)
      ensures d in space && Has(space[d]) && space[d].id == d
      ensures d !in g ==> space[d].status == EXECUTED
      ensures d in g ==> Edge(g, v.id, d)
      ensures d in g && space[d].status == EXECUTED ==> d in search.index && d !in search.on
      ensures d in g && space[d].status != EXECUTED && space[d].index == 0 ==> d !in search.index
      ensures d in g && space[d].status != EXECUTED && space[d].index != 0 ==>
                d in search.on && d in search.index && space[d].index == search.index[d] + 1
    {
      if d in g {
        VisitedIsStacked(g, grays, space[d]);
        DoneNotOn(g, grays);
      }
    }

    lemma DoneNotOn(g: DepGraph, grays: set<InstanceID>)
      requires Inv(g, search, grays)
      ensures search.index.Keys == search.on + search.done && search.on !! search.done
    {
    }

    lemma StackLength(g: DepGraph)
      requires Mirrors(search, g)
      ensures |stack| == |search.stack|
    {
    }

    // ----- A component is found -----

    /** With v's dependencies handled, v's component executes if v is its root. */
    method Finish(v: Instance, l: nat, ghost g: DepGraph, ghost grays: set<InstanceID>, ghost t0: Search,
                  ghost root: InstanceID)
      requires Named() && Fixed(g) && Mirrors(search, g) && Logs(search) && Rooted(g, search, root) && Has(v) && v.id in g
      requires Visiting(g, t0, search, grays, v.id, v.lowlink - 1, g[v.id]) && l == |t0.stack|
      modifies this`stack, this`log, this`search, this`blocks, Members(g)`status
      ensures Fixed(g) && Mirrors(search, g) && Inv(g, search, grays) && Logs(search) && Rooted(g, search, root)
      ensures Visited(g, t0, search, v.id, v.lowlink - 1)
    {
      hide Inv, Visiting, Visited, Reach, Mirrors, Logs, Fixed, PopComponent;
      VisitingFacts(g, t0, search, grays, v.id, v.lowlink - 1, g[v.id]);
      OwnIndex(v, g);
      if v.lowlink == v.index {
        FinishPop(g, t0, search, grays, v.id, g[v.id]);
        PopRooted(g, search, l, root);
        ExecuteFrom(l, g);
      } else {
        FinishStay(g, t0, search, grays, v.id, v.lowlink - 1, g[v.id]);
      }
    }

    lemma OwnIndex(v: Instance, g: DepGraph)
      requires Mirrors(search, g) && Has(v) && v.id in g && v.id in search.index
      ensures v.index == search.index[v.id] + 1
      ensures |stack| == |search.stack|
    {
    }

    lemma PopRooted(g: DepGraph, t: Search, p: nat, root: InstanceID)
      requires Rooted(g, t, root) && p <= |t.stack|
      ensures Rooted(g, PopComponent(t, p), root)
    {
    }

    /** Executes the top of the stack, from position l on, in the order of sequence numbers. */
    method ExecuteFrom(l: nat, ghost g: DepGraph)
      requires Named() && Fixed(g) && Mirrors(search, g) && Logs(search)
      requires StackShape(search) && l <= |search.stack| && |stack| == |search.stack|
      modifies this`stack, this`log, this`search, this`blocks, Members(g)`status
      ensures search == PopComponent(old(search), l)
      ensures Fixed(g) && Mirrors(search, g) && Logs(search)
    {
      hide StackShape, PopComponent, BySeq, NoDup, Elems, Concat, Stacked, Indexed, LogsAs, Named;
      var sorted;
      ghost var ids;
      sorted, ids := SortTop(l, g);
      ghost var log0 := log;
      ExecuteList(sorted, ids, g);
      Cut(ids, l, g, log0);
    }

    method SortTop(l: nat, ghost g: DepGraph) returns (sorted: seq<Instance>, ghost ids: seq<InstanceID>)
      requires Named() && Fixed(g) && Mirrors(search, g) && Logs(search)
      requires StackShape(search) && l <= |search.stack| && |stack| == |search.stack|
      ensures Runs(ids, sorted, g)
      ensures Elems(ids) == Elems(search.stack[l..]) && NoDup(ids) && BySeq(ids)
      ensures Named() && Fixed(g) && Mirrors(search, g) && Logs(search)
    {
      sorted := SortBySeq(stack[l..]);
      ids := ListIds(sorted, l, g);
    }

    /** Takes the executed component off the stack. */
    method Cut(ghost ids: seq<InstanceID>, l: nat, ghost g: DepGraph, ghost log0: seq<InstanceID>)
      requires counter == search.next + 1 && Stacked(search, g) && Indexed(search, g)
      requires forall id :: id in g && id in space ==>
                 space[id].status == if id in ids then EXECUTED else if id in search.done then EXECUTED else COMMITTED
      requires StackShape(search) && l <= |search.stack|
      requires log == log0 + ids && LogsAs(search, log0)
      requires Elems(ids) == Elems(search.stack[l..]) && NoDup(ids) && BySeq(ids)
      modifies this`stack, this`search, this`blocks
      ensures search == PopComponent(old(search), l)
      ensures Mirrors(search, g) && Logs(search)
    {
      hide StackShape, Lists, BySeq, NoDup, Concat;
      CutLogs(ids, l);
      CutDone(ids, search, l);
      stack := stack[..l];
      search := PopComponent(search, l);
      blocks := blocks + [ids];
    }

    lemma CutLogs(ids: seq<InstanceID>, l: nat)
      requires Lists(blocks, search.comps) && StackShape(search) && l <= |search.stack|
      requires Elems(ids) == Elems(search.stack[l..]) && NoDup(ids) && BySeq(ids)
      ensures Lists(blocks + [ids], PopComponent(search, l).comps)
      ensures base + Concat(blocks + [ids]) == base + Concat(blocks) + ids
    {
      hide StackShape, BySeq, NoDup, Elems;
      StackNoDup(search, l);
      ReversedElems(search.stack[l..]);
      assert (blocks + [ids])[..|blocks|] == blocks;
      assert base + Concat(blocks) + ids == base + (Concat(blocks) + ids);
    }

    lemma CutDone(ids: seq<InstanceID>, t: Search, l: nat)
      requires StackShape(t) && l <= |t.stack| && Elems(ids) == Elems(t.stack[l..])
      ensures forall x :: x in PopComponent(t, l).done <==> x in ids || x in t.done
    {
      StackNoDup(t, l);
      ReversedElems(t.stack[l..]);
    }

    /** Sorting the instances on top of the stack sorts their ids. */
    lemma ListIds(sorted: seq<Instance>, l: nat, g: DepGraph) returns (ids: seq<InstanceID>)
      requires Named() && Stacked(search, g) && StackShape(search) && l <= |search.stack| && |stack| == |search.stack|
      requires multiset(sorted) == multiset(stack[l..]) && InSeqOrder(sorted)
      ensures Runs(ids, sorted, g)
      ensures Elems(ids) == Elems(search.stack[l..]) && NoDup(ids) && BySeq(ids)
    {
      var list, top := stack[l..], search.stack[l..];
      StackNoDup(search, l);
      assert Runs(top, list, g);
      hide StackShape, Stacked, Named;
      SamePermutation(list, sorted);
      ids := PermutedIds(list, sorted, top, g);
      PermutedAll(list, sorted, top, ids, g);
      PermutedOnce(sorted, ids, g);
    }

    lemma PermutedIds(list: seq<Instance>, sorted: seq<Instance>, top: seq<InstanceID>, g: DepGraph)
      returns (ids: seq<InstanceID>)
      requires Runs(top, list, g) && forall v :: v in sorted ==> v in list
      ensures Runs(ids, sorted, g) && forall x :: x in ids ==> x in top
    {
      ids := seq(|sorted|, i requires 0 <= i < |sorted| => sorted[i].id);
      forall i | 0 <= i < |sorted|
        ensures ids[i] in g && ids[i] in space && space[ids[i]] == sorted[i] && ids[i] in top
      {
        assert sorted[i] in list;
        var k :| 0 <= k < |list| && list[k] == sorted[i];
        assert top[k] == ids[i];
      }
    }

    lemma PermutedAll(list: seq<Instance>, sorted: seq<Instance>, top: seq<InstanceID>, ids: seq<InstanceID>,
                      g: DepGraph)
      requires Runs(top, list, g) && Runs(ids, sorted, g) && forall v :: v in list ==> v in sorted
      ensures forall x :: x in top ==> x in ids
    {
      forall x | x in top ensures x in ids {
        var k :| 0 <= k < |top| && top[k] == x;
        assert list[k] in sorted;
        var i :| 0 <= i < |sorted| && sorted[i] == list[k];
        assert ids[i] == x;
      }
    }

    lemma PermutedOnce(sorted: seq<Instance>, ids: seq<InstanceID>, g: DepGraph)
      requires Runs(ids, sorted, g) && InSeqOrder(sorted)
      requires forall i, j :: 0 <= i < j < |sorted| ==> sorted[i] != sorted[j]
      ensures NoDup(ids) && BySeq(ids)
    {
    }

    /** ids names the instances of sorted, which are among those of g. */
    ghost predicate Runs(ids: seq<InstanceID>, sorted: seq<Instance>, g: DepGraph)
      reads this`space
    {
      && |ids| == |sorted|
      && forall i :: 0 <= i < |ids| ==>
           ids[i] in g && ids[i] in space && space[ids[i]] == sorted[i] && sorted[i].id == ids[i]
    }

    method ExecuteList(sorted: seq<Instance>, ghost ids: seq<InstanceID>, ghost g: DepGraph)
      requires Named() && Fixed(g) && Runs(ids, sorted, g)
      modifies this`log, Members(g)`status
      ensures Fixed(g) && log == old(log) + ids
      ensures forall id :: id in g && id in space ==>
                space[id].status == if id in ids then EXECUTED else old(space[id].status)
    {
      assert log + [] == log;
      for k := 0 to |sorted|
        invariant log == old(log) + ids[..k]
        invariant forall id :: id in g && id in space ==>
                    space[id].status == if id in ids[..k] then EXECUTED else old(space[id].status)
        invariant Fixed(g)
      {
        assert ids[..k + 1] == ids[..k] + [ids[k]];
        ExecuteNext(sorted[k], ids[k], g);
      }
      assert ids[..|sorted|] == ids;
    }

    /** One member of the list. */
    method ExecuteNext(inst: Instance, ghost id: InstanceID, ghost g: DepGraph)
      requires Named() && Fixed(g) && id in g && id in space && space[id] == inst
      modifies this`log, inst`status
      ensures Fixed(g) && log == old(log) + [id] && inst.status == EXECUTED
    {
      log := log + [inst.id];
      inst.status := EXECUTED;
    }

    // ----- One search -----

    /** Between searches, only executed instances have an index. */
    ghost predicate Clean()
      reads this`space, Cells()`status, Cells()`index
    {
      forall id :: id in space && space[id].status != EXECUTED ==> space[id].index == 0
    }

    ghost function Phases(): map<InstanceID, Phase>
      reads this`space, Cells()`status
    {
      map id | id in space :: space[id].status
    }

    /** All instances up to the bounds e have executed. */
    ghost predicate PrefixIn(e: seq<int>, ps: map<InstanceID, Phase>) {
      && |e| == n && (forall q :: 0 <= q < n ==> e[q] >= -1)
      && forall q: nat, i: nat :: q < n && i <= e[q] ==> InstanceID(q, i) in ps && ps[InstanceID(q, i)] == EXECUTED
    }

    /** With phases ps, the instances of vs are committed, and so is all they depend on that has not executed. */
    ghost predicate SettledIn(vs: set<InstanceID>, ps: map<InstanceID, Phase>)
      reads this`space
    {
      && (forall id :: id in vs ==> id in space && id in ps && ps[id] == COMMITTED && n <= |space[id].deps|)
      && (forall v, d {:trigger Wants(v, d)} :: v in vs && Wants(v, d) ==>
            d in space && d in ps && (d in vs || ps[d] == EXECUTED))
    }

    ghost predicate Settled(vs: set<InstanceID>)
      reads this`space, Cells()`status
    {
      SettledIn(vs, Phases())
    }

    /** Dependencies among the instances of vs. */
    ghost function GraphFrom(vs: set<InstanceID>): DepGraph
      reads this`space
    {
      map v | v in vs :: set d | d in vs && Wants(v, d)
    }

    /** The edges, in numbers: v's row entry says up to which instance of each row it depends. */
    lemma GraphExact(vs: set<InstanceID>, v: InstanceID, d: InstanceID)
      requires v in vs && v in space && n <= |space[v].deps|
      ensures d in GraphFrom(vs)[v] <==> d in vs && d.replica < n && d.num <= space[v].deps[d.replica]
    {
    }

    /** All that an instance depends on has executed, in whatever row. */
    ghost predicate DepsDone(x: InstanceID)
      reads this`space, Cells()`status
    {
      && x in space
      && forall q: nat, i: nat :: q < n && q < |space[x].deps| && i <= space[x].deps[q] ==>
           InstanceID(q, i) in space && space[InstanceID(q, i)].status == EXECUTED
    }

    /** When components of settled instances have executed, so has all that they depend on. */
    lemma AllDepsDone(vs: set<InstanceID>, ps: map<InstanceID, Phase>, lg: seq<InstanceID>, ran: seq<seq<InstanceID>>)
      requires SettledIn(vs, ps) && Ran(vs, ps, lg, ran, Phases(), log)
      ensures forall x :: x in Flat(ran) ==> DepsDone(x)
    {
      hide CompsOk, Flat, BySeq, Concat;
      ClosedComps(GraphFrom(vs), ran);
      forall x | x in Flat(ran) ensures DepsDone(x) {
        forall q: nat, i: nat | q < n && q < |space[x].deps| && i <= space[x].deps[q]
          ensures InstanceID(q, i) in space && space[InstanceID(q, i)].status == EXECUTED
        {
          assert Wants(x, InstanceID(q, i));
          assert InstanceID(q, i) in vs ==> Edge(GraphFrom(vs), x, InstanceID(q, i));
        }
      }
    }

    ghost predicate Valid()
      reads this`space, this`execedUpTo, Cells()`status, Cells()`index
    {
      Named() && Clean() && PrefixIn(execedUpTo, Phases())
    }

    /**
     * Executes root and everything it depends on that had not executed: whole
     * components, dependencies first, each instance once.
     */
    method FindScc(root: Instance, ghost vs: set<InstanceID>) returns (ok: bool, ghost ran: seq<seq<InstanceID>>)
      requires Valid() && Settled(vs) && Has(root) && root.id in vs
      modifies this`stack, this`counter, this`log, this`search, this`blocks, this`base
      modifies Members(GraphFrom(vs))`index, Members(GraphFrom(vs))`lowlink, Members(GraphFrom(vs))`status
      ensures ok && Valid() && Ran(vs, old(Phases()), old(log), ran, Phases(), log)
      ensures forall x :: x in Flat(ran) <==> x in vs && Reach(GraphFrom(vs), root.id, x)
      ensures forall x :: x in Flat(ran) ==> DepsDone(x)
    {
      hide Inv, CompsOk, Reach, SettledIn, PrefixIn, Flat, Concat, Fixed, Wants, DepsDone;
      StartFacts(vs, root.id);
      ghost var g := GraphFrom(vs);
      ghost var ps, lg := Phases(), log;
      ok, ran := SearchFrom(root, g);
      SearchRan(vs, ps, lg, ran);
      AllDepsDone(vs, ps, lg, ran);
      PrefixStays(execedUpTo, vs, ps, lg, ran, Phases(), log);
    }

    lemma SearchRan(vs: set<InstanceID>, ps: map<InstanceID, Phase>, lg: seq<InstanceID>, ran: seq<seq<InstanceID>>)
      requires log == lg + Concat(ran) && CompsOk(GraphFrom(vs), ran) && forall k :: 0 <= k < |ran| ==> BySeq(ran[k])
      requires forall x :: x in Flat(ran) ==> x in GraphFrom(vs)
      requires ps.Keys == space.Keys && forall id :: id in vs ==> id in ps && ps[id] == COMMITTED
      requires forall id :: id in space ==>
                 space[id].status == if id in Flat(ran) then EXECUTED else ps[id]
      ensures Ran(vs, ps, lg, ran, Phases(), log)
    {
    }

    /** The search itself, from an empty stack. */
    method SearchFrom(root: Instance, ghost g: DepGraph) returns (ok: bool, ghost ran: seq<seq<InstanceID>>)
      requires Named() && Fixed(g) && Has(root) && root.id in g
      requires forall id :: id in g && id in space ==> space[id].index == 0 && space[id].status == COMMITTED
      modifies this`stack, this`counter, this`log, this`search, this`blocks, this`base
      modifies Members(g)`index, Members(g)`lowlink, Members(g)`status
      ensures ok && log == old(log) + Concat(ran)
      ensures CompsOk(g, ran) && forall k :: 0 <= k < |ran| ==> BySeq(ran[k])
      ensures forall x :: x in Flat(ran) <==> x in g && Reach(g, root.id, x)
      ensures forall id :: id in g && id in space ==>
                space[id].status == (if id in Flat(ran) then EXECUTED else COMMITTED)
                && (space[id].status != EXECUTED ==> space[id].index == 0)
    {
      hide Inv, Visited, Reach, Mirrors, Fixed, Logs, CompsOk, BySeq, Flat, Concat, Named;
      Begin(g);
      StartInv(g);
      ReachRefl(g, root.id);
      ok := StrongConnect(root, g, {}, root.id);
      VisitedFacts(g, Start, search, root.id, root.lowlink - 1);
      ran := blocks;
      EndFacts(g, root.id);
      EndFields(g);
    }

    lemma EndFacts(g: DepGraph, root: InstanceID)
      requires Inv(g, search, {}) && Logs(search) && Rooted(g, search, root) && root in search.index
      ensures search.index.Keys == search.done == Flat(blocks)
      ensures CompsOk(g, blocks) && forall k :: 0 <= k < |blocks| ==> BySeq(blocks[k])
      ensures forall x :: x in Flat(blocks) <==> x in g && Reach(g, root, x)
      ensures log == base + Concat(blocks)
    {
      hide Inv, CompsOk, Reach, Flat, BySeq, Concat;
      SearchEnds(g, search, root);
      SameBlocks(g, search.comps, blocks);
    }

    lemma EndFields(g: DepGraph)
      requires Mirrors(search, g) && search.index.Keys == search.done
      ensures forall id :: id in g && id in space ==>
                space[id].status == (if id in search.done then EXECUTED else COMMITTED)
                && (space[id].status != EXECUTED ==> space[id].index == 0)
    {
    }

    lemma StartFacts(vs: set<InstanceID>, root: InstanceID)
      requires Valid() && Settled(vs)
      ensures Fixed(GraphFrom(vs)) && GraphFrom(vs).Keys == vs
      ensures forall id :: id in vs ==> space[id].index == 0 && space[id].status == COMMITTED
    {
    }

    method Begin(ghost g: DepGraph)
      requires Named() && Fixed(g)
      requires forall id :: id in g && id in space ==> space[id].index == 0 && space[id].status == COMMITTED
      modifies this`stack, this`counter, this`search, this`blocks, this`base
      ensures Named() && Fixed(g) && Mirrors(search, g) && Logs(search) && search == Start && base == log
    {
      hide Fixed;
      counter, stack := 1, [];
      search, blocks, base := Start, [], log;
      assert base + [] == log;
    }

    // ----- The execution thread -----

    /** Executes one instance with all it depends on; false if it is not committed. */
    method ExecuteCommand(id: InstanceID, ghost vs: set<InstanceID>)
      returns (ok: bool, ghost ran: seq<seq<InstanceID>>)
      requires Valid() && Settled(vs)
      requires id in space && space[id].status == COMMITTED ==> id in vs
      modifies this`stack, this`counter, this`log, this`search, this`blocks, this`base
      modifies Members(GraphFrom(vs))`index, Members(GraphFrom(vs))`lowlink, Members(GraphFrom(vs))`status
      ensures Valid() && Ran(vs, old(Phases()), old(log), ran, Phases(), log)
      ensures ok <==> id in space && space[id].status == EXECUTED
      ensures ok <==> id in space && old(space[id].status) in {COMMITTED, EXECUTED}
      ensures id in space && old(space[id].status) == COMMITTED ==>
                ran != [] && forall x :: x in Flat(ran) <==> x in vs && Reach(GraphFrom(vs), id, x)
      ensures !(id in space && old(space[id].status) == COMMITTED) ==> ran == []
    {
      hide Settled, PrefixIn, BySeq, Clean, Fixed, Reach;
      ran := [];
      if id !in space {
        return false, [];
      }
      var inst := space[id];
      if inst.status == EXECUTED {
        return true, [];
      }
      if inst.status != COMMITTED {
        return false, [];
      }
      assert Has(inst);
      ok, ran := FindScc(inst, vs);
      ReachRefl(old(GraphFrom(vs)), id);
    }

    /**
     * From phases ps and log lg, the components ran of the graph of vs have
     * executed: each once, whole, in the order of sequence numbers, and after
     * everything they depend on.
     */
    ghost predicate Ran(vs: set<InstanceID>, ps: map<InstanceID, Phase>, lg: seq<InstanceID>,
                        ran: seq<seq<InstanceID>>, ps': map<InstanceID, Phase>, lg': seq<InstanceID>)
      reads this`space
    {
      && lg' == lg + Concat(ran)
      && CompsOk(GraphFrom(vs), ran)
      && Flat(ran) <= vs
      && (forall k :: 0 <= k < |ran| ==> BySeq(ran[k]))
      && ps'.Keys == ps.Keys
      && forall id :: id in ps ==> ps'[id] == if id in Flat(ran) then EXECUTED else ps[id]
    }

    lemma RanNothing(vs: set<InstanceID>, ps: map<InstanceID, Phase>, lg: seq<InstanceID>)
      ensures Ran(vs, ps, lg, [], ps, lg)
      ensures Flat([]) == {} && vs - Flat([]) == vs
    {
      assert lg + [] == lg;
    }

    /** One search after others. */
    lemma RanMore(vs: set<InstanceID>, ps: map<InstanceID, Phase>, lg: seq<InstanceID>, ran: seq<seq<InstanceID>>,
                  ps1: map<InstanceID, Phase>, lg1: seq<InstanceID>, more: seq<seq<InstanceID>>,
                  ps2: map<InstanceID, Phase>, lg2: seq<InstanceID>)
      requires Ran(vs, ps, lg, ran, ps1, lg1) && Ran(vs - Flat(ran), ps1, lg1, more, ps2, lg2)
      ensures Ran(vs, ps, lg, ran + more, ps2, lg2)
      ensures vs - Flat(ran + more) == vs - Flat(ran) - Flat(more)
    {
      hide Flat, Concat, CompsOk, BySeq, GraphFrom;
      FlatConcat(ran, more);
      ConcatConcat(ran, more);
      assert lg + Concat(ran) + Concat(more) == lg + (Concat(ran) + Concat(more));
      JoinRuns(vs, ran, more);
      forall k | 0 <= k < |ran + more| ensures BySeq((ran + more)[k]) {
        assert (ran + more)[k] == if k < |ran| then ran[k] else more[k - |ran|];
      }
    }

    lemma JoinRuns(vs: set<InstanceID>, ran: seq<seq<InstanceID>>, more: seq<seq<InstanceID>>)
      requires CompsOk(GraphFrom(vs), ran) && CompsOk(GraphFrom(vs - Flat(ran)), more)
      ensures CompsOk(GraphFrom(vs), ran + more)
    {
      hide Flat, CompsOk, Wants;
      JoinComps(GraphFrom(vs), GraphFrom(vs - Flat(ran)), ran, more);
    }

    /** What is left stays settled. */
    lemma SettledAfter(vs: set<InstanceID>, ps: map<InstanceID, Phase>, lg: seq<InstanceID>, ran: seq<seq<InstanceID>>,
                       ps': map<InstanceID, Phase>, lg': seq<InstanceID>)
      requires SettledIn(vs, ps) && Ran(vs, ps, lg, ran, ps', lg')
      ensures SettledIn(vs - Flat(ran), ps')
    {
      hide Flat, Concat, CompsOk, BySeq;
    }

    lemma PrefixFacts(e: seq<int>, ps: map<InstanceID, Phase>, q: nat)
      requires PrefixIn(e, ps) && q < n
      ensures |e| == n && e[q] >= -1
      ensures forall i: nat :: i <= e[q] ==> InstanceID(q, i) in ps && ps[InstanceID(q, i)] == EXECUTED
    {
    }

    lemma PrefixGrows(e: seq<int>, ps: map<InstanceID, Phase>, q: nat, i: nat)
      requires PrefixIn(e, ps) && q < n && i == e[q] + 1 && InstanceID(q, i) in ps && ps[InstanceID(q, i)] == EXECUTED
      ensures PrefixIn(e[q := i], ps)
    {
    }

    lemma PrefixStays(e: seq<int>, vs: set<InstanceID>, ps: map<InstanceID, Phase>, lg: seq<InstanceID>,
                      ran: seq<seq<InstanceID>>, ps': map<InstanceID, Phase>, lg': seq<InstanceID>)
      requires PrefixIn(e, ps) && Ran(vs, ps, lg, ran, ps', lg')
      ensures PrefixIn(e, ps')
    {
      hide Flat, Concat, CompsOk, BySeq;
    }

    lemma RanPhase(vs: set<InstanceID>, ps: map<InstanceID, Phase>, lg: seq<InstanceID>, ran: seq<seq<InstanceID>>,
                   ps': map<InstanceID, Phase>, lg': seq<InstanceID>, id: InstanceID)
      requires Ran(vs, ps, lg, ran, ps', lg') && id in ps
      ensures id in ps' && ps'[id] == if id in Flat(ran) then EXECUTED else ps[id]
    {
    }

    lemma RanKeeps(vs: set<InstanceID>, ps: map<InstanceID, Phase>, lg: seq<InstanceID>, ran: seq<seq<InstanceID>>,
                   ps': map<InstanceID, Phase>, lg': seq<InstanceID>)
      requires Ran(vs, ps, lg, ran, ps', lg')
      ensures ps'.Keys == ps.Keys && forall id :: id in ps && ps[id] == EXECUTED ==> ps'[id] == EXECUTED
    {
    }

    /** Another search in a series. */
    method ExecuteMore(id: InstanceID, ghost vs: set<InstanceID>, ghost ps: map<InstanceID, Phase>,
                       ghost lg: seq<InstanceID>, ghost ran: seq<seq<InstanceID>>)
      returns (ok: bool, ghost ran': seq<seq<InstanceID>>)
      requires Valid() && Ran(vs, ps, lg, ran, Phases(), log) && Settled(vs - Flat(ran))
      requires id in space && id in ps && space[id].status == COMMITTED && (ps[id] == COMMITTED ==> id in vs)
      modifies this`stack, this`counter, this`log, this`search, this`blocks, this`base
      modifies Members(GraphFrom(vs))`index, Members(GraphFrom(vs))`lowlink, Members(GraphFrom(vs))`status
      ensures ok && Valid() && Ran(vs, ps, lg, ran', Phases(), log) && Settled(vs - Flat(ran'))
      ensures ran' != [] && space[id].status == EXECUTED
      ensures forall x :: x in space && old(space[x].status) == EXECUTED ==> space[x].status == EXECUTED
    {
      hide SettledIn, PrefixIn, Clean, Flat, CompsOk, Concat, Reach;
      ghost var ps1, lg1 := Phases(), log;
      RanPhase(vs, ps, lg, ran, ps1, lg1, id);
      ghost var more;
      ok, more := ExecuteCommand(id, vs - Flat(ran));
      RanMore(vs, ps, lg, ran, ps1, lg1, more, Phases(), log);
      SettledAfter(vs - Flat(ran), ps1, lg1, more, Phases(), log);
      RanKeeps(vs - Flat(ran), ps1, lg1, more, Phases(), log);
      ran' := ran + more;
    }

    /** ExecedUpTo moves on if the instance after it has executed. */
    method Advance(q: nat, i: nat, ghost vs: set<InstanceID>, ghost ps: map<InstanceID, Phase>,
                   ghost lg: seq<InstanceID>, ghost ran: seq<seq<InstanceID>>)
      requires Valid() && Ran(vs, ps, lg, ran, Phases(), log) && Settled(vs - Flat(ran))
      requires q < n && InstanceID(q, i) in space && space[InstanceID(q, i)].status == EXECUTED
      modifies this`execedUpTo
      ensures Valid() && Ran(vs, ps, lg, ran, Phases(), log) && Settled(vs - Flat(ran))
      ensures execedUpTo == if i == old(execedUpTo)[q] + 1 then old(execedUpTo)[q := i] else old(execedUpTo)
    {
      hide SettledIn, PrefixIn, Flat, CompsOk, Concat;
      PrefixFacts(execedUpTo, Phases(), q);
      if i == execedUpTo[q] + 1 {
        PrefixGrows(execedUpTo, Phases(), q, i);
        execedUpTo := execedUpTo[q := i];
      }
    }

    /** The thread at one instance: whether it goes on along the row, and whether it executed anything. */
    method VisitInstance(q: nat, i: nat, ghost vs: set<InstanceID>, ghost ps: map<InstanceID, Phase>,
                         ghost lg: seq<InstanceID>, ghost ran: seq<seq<InstanceID>>)
      returns (on: bool, executed: bool, ghost ran': seq<seq<InstanceID>>)
      requires Valid() && Ran(vs, ps, lg, ran, Phases(), log) && Settled(vs - Flat(ran))
      requires q < n && (InstanceID(q, i) in ps && ps[InstanceID(q, i)] == COMMITTED ==> InstanceID(q, i) in vs)
      modifies this`stack, this`counter, this`log, this`search, this`blocks, this`base, this`execedUpTo
      modifies Members(GraphFrom(vs))`index, Members(GraphFrom(vs))`lowlink, Members(GraphFrom(vs))`status
      ensures Valid() && Ran(vs, ps, lg, ran', Phases(), log) && Settled(vs - Flat(ran'))
      ensures executed ==> ran' != []
      ensures !executed ==> ran' == ran
      ensures on ==> InstanceID(q, i) in space ==> space[InstanceID(q, i)].status == EXECUTED
      ensures !on ==> InstanceID(q, i) in space && space[InstanceID(q, i)].status !in {COMMITTED, EXECUTED}
      ensures execedUpTo == if on && InstanceID(q, i) in space && i == old(execedUpTo)[q] + 1
                            then old(execedUpTo)[q := i] else old(execedUpTo)
      ensures forall x :: x in space && old(space[x].status) == EXECUTED ==> space[x].status == EXECUTED
    {
      hide SettledIn, PrefixIn, Flat, CompsOk, Concat, Clean;
      var id := InstanceID(q, i);
      on, executed, ran' := true, false, ran;
      if id in space && space[id].status == EXECUTED {
        Advance(q, i, vs, ps, lg, ran);
        return;
      }
      if id !in space || space[id].status != COMMITTED {
        on := id !in space;
        return;
      }
      RanPhase(vs, ps, lg, ran, Phases(), log, id);
      var ok;
      ok, ran' := ExecuteMore(id, vs, ps, lg, ran);
      if ok {
        executed := true;
        Advance(q, i, vs, ps, lg, ran');
      }
    }

    /**
     * The thread's pass over one row: on from the first instance that has not
     * executed, past holes, up to the first that is known but not committed.
     */
    method ExecuteRow(q: nat, crt: int, ghost vs: set<InstanceID>)
      returns (executed: bool, ghost ran: seq<seq<InstanceID>>, ghost stop: int)
      requires Valid() && Settled(vs) && q < n
      requires forall id :: id in space && id.replica == q && id.num < crt && space[id].status == COMMITTED ==> id in vs
      modifies this`stack, this`counter, this`log, this`search, this`blocks, this`base, this`execedUpTo
      modifies Members(GraphFrom(vs))`index, Members(GraphFrom(vs))`lowlink, Members(GraphFrom(vs))`status
      ensures Valid() && Ran(vs, old(Phases()), old(log), ran, Phases(), log) && Settled(vs - Flat(ran))
      ensures executed <==> ran != []
      ensures old(execedUpTo)[q] <= execedUpTo[q] && execedUpTo == old(execedUpTo)[q := execedUpTo[q]]
      ensures forall i: nat :: i < stop && InstanceID(q, i) in space ==> space[InstanceID(q, i)].status == EXECUTED
      ensures stop >= crt || (stop >= 0 && InstanceID(q, stop) in space
                && space[InstanceID(q, stop)].status !in {COMMITTED, EXECUTED})
      ensures var next := execedUpTo[q] + 1;
                next >= crt || next == stop || InstanceID(q, next) !in space
    {
      hide SettledIn, PrefixIn, Clean, Flat, CompsOk, Concat, Ran, BySeq;
      ran, executed := [], false;
      RanNothing(vs, Phases(), log);
      PrefixFacts(execedUpTo, Phases(), q);
      ghost var ps, lg := Phases(), log;
      var inst := execedUpTo[q] + 1;
      while inst < crt
        invariant |execedUpTo| == n && -1 <= old(execedUpTo)[q] <= execedUpTo[q] < inst
        invariant execedUpTo == old(execedUpTo)[q := execedUpTo[q]]
        invariant Valid() && Ran(vs, ps, lg, ran, Phases(), log) && Settled(vs - Flat(ran))
        invariant forall i: nat :: i < inst && InstanceID(q, i) in space ==> space[InstanceID(q, i)].status == EXECUTED
        invariant execedUpTo[q] + 1 == inst || InstanceID(q, execedUpTo[q] + 1) !in space
        invariant executed <==> ran != []
      {
        var on, did;
        on, did, ran := VisitInstance(q, inst, vs, ps, lg, ran);
        executed := executed || did;
        if !on { break; }
        inst := inst + 1;
      }
      stop := inst;
    }
  }

  /** When the search is over, nothing is left on the stack and all that root reaches is done. */
  lemma SearchEnds(g: DepGraph, t: Search, root: InstanceID)
    requires Inv(g, t, {}) && root in t.index
    ensures t.index.Keys == t.done == Flat(t.comps) && CompsOk(g, t.comps) && t.done <= g.Keys
    ensures forall x :: x in g && Reach(g, root, x) ==> x in t.done
  {
    forall x ensures x !in t.on {
      if x in t.on {
        var y := GrayOf(g, t, {}, x);
      }
    }
    var s := iset y | y in t.index || y !in g;
    forall a, b | a in s && Edge(g, a, b) ensures b in s {
      assert BlackOk(g, t, {});
    }
    hide Inv, CompsOk, Reach;
    forall x | x in g && Reach(g, root, x) ensures x in t.index {
      ReachClosed(g, s, root, x);
    }
  }

  /** Components are the same in whatever order their members are listed. */
  lemma SameBlocks(g: DepGraph, comps: seq<seq<InstanceID>>, blocks: seq<seq<InstanceID>>)
    requires CompsOk(g, comps) && |blocks| == |comps|
    requires forall k :: 0 <= k < |blocks| ==> Elems(blocks[k]) == Elems(comps[k]) && NoDup(blocks[k])
    ensures CompsOk(g, blocks) && Flat(blocks) == Flat(comps)
  {
    hide IsScc, Flat;
    forall k: nat | k <= |blocks| ensures Flat(blocks[..k]) == Flat(comps[..k]) {
      SamePrefix(comps, blocks, k);
    }
    forall k | 0 <= k < |blocks| ensures CompOk(g, Flat(blocks[..k]), blocks[k]) {
      assert CompOk(g, Flat(comps[..k]), comps[k]);
    }
    assert blocks[..|blocks|] == blocks && comps[..|comps|] == comps;
  }

  lemma {:induction false} SamePrefix(comps: seq<seq<InstanceID>>, blocks: seq<seq<InstanceID>>, k: nat)
    requires |blocks| == |comps| && k <= |blocks|
    requires forall j :: 0 <= j < |blocks| ==> Elems(blocks[j]) == Elems(comps[j])
    ensures Flat(blocks[..k]) == Flat(comps[..k])
  {
    if k > 0 {
      SamePrefix(comps, blocks, k - 1);
      FlatPrefix(blocks, k - 1);
      FlatPrefix(comps, k - 1);
    }
  }

  // ----- Joining searches -----

  /** Components of what is left after a are components of the whole graph. */
  lemma JoinComps(h: DepGraph, g: DepGraph, a: seq<seq<InstanceID>>, b: seq<seq<InstanceID>>)
    requires CompsOk(h, a) && CompsOk(g, b)
    requires forall x, y :: Edge(h, x, y) ==> y in h
    requires forall x :: x in g <==> x in h && x !in Flat(a)
    requires forall x, y :: Edge(g, x, y) <==> Edge(h, x, y) && x in g && y in g
    ensures CompsOk(h, a + b)
  {
    hide CompOk, Flat;
    ClosedComps(h, a);
    forall k | 0 <= k < |a + b| ensures CompOk(h, Flat((a + b)[..k]), (a + b)[k]) {
      if k < |a| {
        assert (a + b)[..k] == a[..k];
      } else {
        var j := k - |a|;
        assert (a + b)[..k] == a + b[..j];
        FlatConcat(a, b[..j]);
        ClosedCompsPrefix(g, b, j);
        WidenComp(h, g, Flat(a), Flat(b[..j]), b[j]);
      }
    }
  }

  lemma WidenComp(h: DepGraph, g: DepGraph, first: set<InstanceID>, before: set<InstanceID>, comp: seq<InstanceID>)
    requires CompOk(g, before, comp) && Closed(h, first) && Closed(g, before) && before <= g.Keys
    requires forall x, y :: Edge(h, x, y) ==> y in h
    requires forall x :: x in g <==> x in h && x !in first
    requires forall x, y :: Edge(g, x, y) <==> Edge(h, x, y) && x in g && y in g
    ensures CompOk(h, first + before, comp)
  {
    var s := Elems(comp);
    SccFacts(g, s);
    assert forall a, b :: a in s && b in s ==> Reach(g, a, b);
    hide IsScc, Reach;
    forall a, b | a in s && b in s ensures Reach(h, a, b) {
      ReachMono(g, h, a, b);
    }
    forall x, y | x in s && Edge(h, x, y) ensures y in first + before || y in s {
      if y !in first { assert Edge(g, x, y); }
    }
    var all := first + before;
    forall x, y | x in all && Edge(h, x, y) ensures y in all {
      if x !in first && y !in first { assert Edge(g, x, y); }
    }
    forall a, b | a in s && MutualReach(h, a, b) ensures b in s {
      ReachClosed(h, (iset x | x in s || x in all), a, b);
      if b in all {
        ReachClosed(h, (iset x | x in all), b, a);
      }
    }
    SccFromFacts(h, s);
  }

  lemma ClosedCompsPrefix(g: DepGraph, comps: seq<seq<InstanceID>>, k: nat)
    requires CompsOk(g, comps) && k <= |comps|
    requires forall x, y :: Edge(g, x, y) ==> y in g
    ensures Closed(g, Flat(comps[..k])) && Flat(comps[..k]) <= g.Keys
    decreases k
  {
    if k > 0 {
      ClosedCompsPrefix(g, comps, k - 1);
      FlatPrefix(comps, k - 1);
      assert CompOk(g, Flat(comps[..k - 1]), comps[k - 1]);
      SccFacts(g, Elems(comps[k - 1]));
    } else {
      assert Flat(comps[..0]) == {};
    }
  }

  lemma ClosedComps(g: DepGraph, comps: seq<seq<InstanceID>>)
    requires CompsOk(g, comps)
    requires forall x, y :: Edge(g, x, y) ==> y in g
    ensures Closed(g, Flat(comps)) && Flat(comps) <= g.Keys
  {
    ClosedCompsPrefix(g, comps, |comps|);
    assert comps[..|comps|] == comps;
  }

  /** Sorts by sequence number; equal ones fall in any order. */
  method SortBySeq(list: seq<Instance>) returns (sorted: seq<Instance>)
    ensures multiset(sorted) == multiset(list) && InSeqOrder(sorted)
    ensures forall i, j :: 0 <= i < j < |sorted| ==> sorted[i].seqNum <= sorted[j].seqNum
  {
    hide InSeqOrder;
    sorted := [];
    NoneInOrder();
    for k := 0 to |list|
      invariant multiset(sorted) == multiset(list[..k]) && InSeqOrder(sorted)
    {
      sorted := Insert(sorted, list[k]);
      assert list[..k + 1] == list[..k] + [list[k]];
    }
    assert list[..|list|] == list;
    InOrderAscends(sorted);
  }

  lemma InOrderAscends(list: seq<Instance>)
    requires InSeqOrder(list)
    ensures forall i, j :: 0 <= i < j < |list| ==> list[i].seqNum <= list[j].seqNum
  {
  }

  lemma NoneInOrder()
    ensures InSeqOrder([])
  {
  }

  method Insert(sorted: seq<Instance>, v: Instance) returns (r: seq<Instance>)
    requires InSeqOrder(sorted)
    ensures multiset(r) == multiset(sorted) + multiset{v} && InSeqOrder(r)
  {
    hide InSeqOrder;
    var p := |sorted|;
    while p > 0 && v.seqNum < sorted[p - 1].seqNum
      invariant 0 <= p <= |sorted|
      invariant p < |sorted| ==> v.seqNum < sorted[p].seqNum
    {
      p := p - 1;
    }
    r := sorted[..p] + [v] + sorted[p..];
    assert sorted == sorted[..p] + sorted[p..];
    InsertedInOrder(sorted, p, v);
  }

  lemma InsertedInOrder(sorted: seq<Instance>, p: nat, v: Instance)
    requires InSeqOrder(sorted) && p <= |sorted|
    requires p > 0 ==> sorted[p - 1].seqNum <= v.seqNum
    requires p < |sorted| ==> v.seqNum < sorted[p].seqNum
    ensures InSeqOrder(sorted[..p] + [v] + sorted[p..])
  {
    var r := sorted[..p] + [v] + sorted[p..];
    forall i, j | 0 <= i < j < |r| ensures r[i].seqNum <= r[j].seqNum {
      assert r[i] == if i < p then sorted[i] else if i == p then v else sorted[i - 1];
      assert r[j] == if j < p then sorted[j] else if j == p then v else sorted[j - 1];
      assert i < p ==> sorted[i].seqNum <= sorted[p - 1].seqNum;
      assert p < j ==> sorted[p].seqNum <= sorted[j - 1].seqNum;
    }
  }
}

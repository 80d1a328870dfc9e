/**
 * The executor: vertices updated in place by Tarjan's algorithm, and the rule
 * that decides which components may execute.
 */
module Execution {
  import opened Types
  import opened Graph
  import opened Tarjan
  import opened Schedule

  /** An executable together with its scratch space for one search. */
  class TarjanNode {
    const id: InstanceID
    const deps: seq<InstanceID>
    const seqNum: SeqNum

    var depNodes: seq<TarjanNode>
    var index: int
    var lowlink: int
    var onStack: bool

    constructor (id: InstanceID, deps: seq<InstanceID>, seqNum: SeqNum)
      ensures this.id == id && this.deps == deps && this.seqNum == seqNum
    {
      this.id, this.deps, this.seqNum := id, deps, seqNum;
      depNodes, index, lowlink, onStack := [], 0, 0, false;
    }

    method Reset()
      modifies this`depNodes, this`index, this`lowlink, this`onStack
      ensures depNodes == [] && index == -1 && lowlink == -1 && !onStack
    {
      depNodes := [];
      index := -1;
      lowlink := -1;
      onStack := false;
    }
  }

  class Executor {
    var vertices: map<InstanceID, TarjanNode>
    var index: int
    var stack: seq<TarjanNode>
    var components: seq<seq<TarjanNode>>

    /** The state of the search, as the theory of Tarjan's algorithm sees it. */
    ghost var search: Search

    constructor ()
      ensures vertices == map[] && index == 0 && stack == [] && components == []
    {
      vertices := map[];
      index, stack, components := 0, [], [];
      search := Start;
    }

    ghost function Nodes(): set<TarjanNode>
      reads this`vertices
    {
      set id | id in vertices :: vertices[id]
    }

    /** The pending graph: dependencies of the vertices, dangling ones included. */
    ghost function Pending(): DepGraph
      reads this`vertices
    {
      GraphOf(vertices)
    }

    ghost predicate Named()
      reads this`vertices
    {
      NamedIn(vertices)
    }

    /** depNodes holds exactly the dependencies that are vertices. */
    ghost predicate NodeLinked(n: TarjanNode)
      reads this`vertices, n`depNodes
    {
      && (forall k :: 0 <= k < |n.depNodes| ==> InGraph(n.depNodes[k]) && n.depNodes[k].id in n.deps)
      && (forall d :: d in n.deps && d in vertices ==> vertices[d] in n.depNodes)
    }

    ghost predicate Linked()
      reads this`vertices, Nodes()`depNodes
    {
      forall id :: id in vertices ==> NodeLinked(vertices[id])
    }

    ghost predicate InGraph(n: TarjanNode)
      reads this`vertices
    {
      n.id in vertices && vertices[n.id] == n
    }

    /** The nodes ns are the vertices named ids, in the same order. */
    ghost predicate Lists(ids: seq<InstanceID>, ns: seq<TarjanNode>)
      reads this`vertices
    {
      ListsIn(vertices, ids, ns)
    }

    ghost predicate ComponentsMirror(comps: seq<seq<InstanceID>>)
      reads this`vertices, this`components
    {
      && |components| == |comps|
      && (forall k :: 0 <= k < |components| ==> Lists(comps[k], components[k]))
    }

    ghost predicate NodesIndex(at: map<InstanceID, int>)
      reads this`vertices, Nodes()`index
    {
      forall id :: id in vertices ==> vertices[id].index == if id in at then at[id] else -1
    }

    ghost predicate NodesOn(on: set<InstanceID>)
      reads this`vertices, Nodes()`onStack
    {
      forall id :: id in vertices ==> vertices[id].onStack == (id in on)
    }

    /** The fields of the executor and of its nodes hold the search state t. */
    ghost predicate Mirrors(t: Search)
      reads this, Nodes()`index, Nodes()`onStack
    {
      && index == t.next
      && Lists(t.stack, stack)
      && ComponentsMirror(t.comps)
      && NodesIndex(t.index)
      && NodesOn(t.on)
    }

    method AddExec(id: InstanceID, deps: seq<InstanceID>, seqNum: SeqNum)
      requires Named()
      modifies this`vertices
      ensures id in vertices && vertices == old(vertices)[id := vertices[id]]
      ensures fresh(vertices[id]) && vertices[id].deps == deps && vertices[id].seqNum == seqNum
      ensures Named()
    {
      var v := new TarjanNode(id, deps, seqNum);
      vertices := vertices[id := v];
    }

    method Push(n: TarjanNode)
      modifies this`stack
      ensures stack == old(stack) + [n]
    {
      stack := stack + [n];
    }

    method Pop() returns (n: TarjanNode)
      requires stack != []
      modifies this`stack
      ensures old(stack) == stack + [n]
    {
      var l := |stack| - 1;
      n := stack[l];
      stack := stack[..l];
    }

    /** Numbers v and pushes it. */
    method Enter(v: TarjanNode)
      requires Named() && Mirrors(search) && InGraph(v) && v.id !in search.index
      modifies this`index, this`stack, this`search, v`index, v`lowlink, v`onStack
      ensures search == Tarjan.Push(old(search), v.id)
      ensures v.lowlink == old(search).next
      ensures Mirrors(search)
    {
      v.index := index;
      v.lowlink := index;
      index := index + 1;
      v.onStack := true;
      Push(v);
      search := Tarjan.Push(search, v.id);
    }

    /** Takes one node off the stack, whose ids are the first n + 1 of ids. */
    method PopOff(ghost ids: seq<InstanceID>, ghost n: nat) returns (w: TarjanNode)
      requires Named() && NoDup(ids) && n < |ids|
      requires Lists(ids[..n + 1], stack) && NodesOn(Elems(ids[..n + 1]))
      modifies this`stack, Nodes()`onStack
      ensures old(stack) == stack + [w] && ids[n] in vertices && w == vertices[ids[n]]
      ensures NodesOn(Elems(ids[..n]))
    {
      assert ids[..n + 1][n] == ids[n];
      w := Pop();
      w.onStack := false;
      OneLess(ids, n);
    }

    lemma OneLess(ids: seq<InstanceID>, n: nat)
      requires NoDup(ids) && n < |ids|
      ensures forall id :: id in ids[..n] <==> id in ids[..n + 1] && id != ids[n]
    {
      forall id ensures id in ids[..n] <==> id in ids[..n + 1] && id != ids[n] {
        if id in ids[..n] {
          var i :| 0 <= i < n && ids[i] == id;
          assert ids[..n + 1][i] == id;
        }
        if id in ids[..n + 1] && id != ids[n] {
          var i :| 0 <= i < n + 1 && ids[i] == id;
          assert ids[..n][i] == id;
        }
      }
    }

    /** Pops the stack down to v into a new component. */
    method Emit(v: TarjanNode, ghost p: nat)
      requires Named() && Mirrors(search)
      requires p < |stack| && stack[p] == v
      requires NoDup(search.stack) && Elems(search.stack) == search.on
      requires Elems(search.stack[..p]) == PopComponent(search, p).on
      modifies this`stack, this`components, this`search, Nodes()`onStack
      ensures search == PopComponent(old(search), p)
      ensures Mirrors(search)
    {
      hide NodesOn, NodesIndex, NoDup, Named, Elems;
      var component := PopDownTo(v, search.stack, p);
      components := components + [component];
      search := PopComponent(search, p);
    }

    /** The popping loop: v and everything above it, most recent first. */
    method PopDownTo(v: TarjanNode, ghost ids: seq<InstanceID>, ghost p: nat)
      returns (component: seq<TarjanNode>)
      requires Named() && NoDup(ids) && Lists(ids, stack)
      requires |stack| == |ids| && p < |stack| && stack[p] == v
      requires NodesOn(Elems(ids))
      modifies this`stack, Nodes()`onStack
      ensures stack == old(stack)[..p]
      ensures Lists(Reversed(ids[p..]), component)
      ensures NodesOn(Elems(ids[..p]))
    {
      hide NodesOn, Lists, Named, NoDup;
      component := [];
      var w: TarjanNode? := null;
      ghost var all := stack;
      assert ids[..|stack|] == ids;
      OnlyPosition(ids, all, p);
      while w != v
        invariant p <= |stack| <= |all| && stack == all[..|stack|]
        invariant |component| == |all| - |stack|
        invariant forall i :: 0 <= i < |component| ==> component[i] == all[|all| - 1 - i]
        invariant if w == null then component == [] else component != [] && w == component[|component| - 1]
        invariant w != v ==> p < |stack|
        invariant NodesOn(Elems(ids[..|stack|]))
        decreases |stack|
      {
        w := PopStep(ids, all);
        component := component + [w];
      }
      ListsReversed(ids, all, p, component);
    }

    lemma OnlyPosition(ids: seq<InstanceID>, all: seq<TarjanNode>, p: nat)
      requires Named() && NoDup(ids) && Lists(ids, all) && p < |all|
      ensures forall i :: 0 <= i < |all| && all[i] == all[p] ==> i == p
    {
      forall i | 0 <= i < |all| && all[i] == all[p] ensures i == p {
        assert ids[i] == all[i].id && ids[p] == all[p].id;
      }
    }

    method PopStep(ghost ids: seq<InstanceID>, ghost all: seq<TarjanNode>) returns (w: TarjanNode)
      requires Named() && NoDup(ids) && Lists(ids, all)
      requires 0 < |stack| <= |all| && stack == all[..|stack|]
      requires NodesOn(Elems(ids[..|stack|]))
      modifies this`stack, Nodes()`onStack
      ensures |stack| == old(|stack|) - 1 && stack == all[..|stack|] && w == all[|stack|]
      ensures NodesOn(Elems(ids[..|stack|]))
    {
      w := PopOff(ids, |stack| - 1);
    }

    lemma ListsReversed(ids: seq<InstanceID>, all: seq<TarjanNode>, p: nat, comp: seq<TarjanNode>)
      requires Lists(ids, all) && p <= |all| && |comp| == |all| - p
      requires forall i :: 0 <= i < |comp| ==> comp[i] == all[|all| - 1 - i]
      ensures Lists(Reversed(ids[p..]), comp)
    {
      var r := Reversed(ids[p..]);
      forall i | 0 <= i < |r| ensures r[i] in vertices && vertices[r[i]] == comp[i] {
        assert r[i] == ids[|ids| - 1 - i];
      }
    }

    lemma MirrorFacts(w: TarjanNode)
      requires Named() && Mirrors(search) && InGraph(w)
      ensures w.index == if w.id in search.index then search.index[w.id] else -1
      ensures w.onStack == (w.id in search.on)
    {
    }

    lemma StackFacts(v: TarjanNode, p: nat)
      requires Named() && Mirrors(search) && InGraph(v)
      requires p < |search.stack| && search.stack[p] == v.id
      ensures p < |stack| && stack[p] == v
    {
    }

    /** The dependencies of v to follow, and the vertices they cover. */
    lemma DepNodeFacts(v: TarjanNode)
      requires Named() && Linked() && InGraph(v)
      ensures forall k :: 0 <= k < |v.depNodes| ==>
                InGraph(v.depNodes[k]) && Edge(Pending(), v.id, v.depNodes[k].id)
      ensures forall d :: d in Pending()[v.id] && d in Pending() ==>
                exists k :: 0 <= k < |v.depNodes| && v.depNodes[k].id == d
    {
      var g := Pending();
      forall k | 0 <= k < |v.depNodes|
        ensures InGraph(v.depNodes[k]) && Edge(g, v.id, v.depNodes[k].id)
      {
        assert NodeLinked(vertices[v.id]);
      }
      forall d | d in g[v.id] && d in g
        ensures exists k :: 0 <= k < |v.depNodes| && v.depNodes[k].id == d
      {
        assert NodeLinked(vertices[v.id]) && vertices[d] in v.depNodes;
        var k :| 0 <= k < |v.depNodes| && v.depNodes[k] == vertices[d];
        assert v.depNodes[k].id == d;
      }
    }

    /** Depth-first search from v, given the vertices whose visits are under way. */
    method Visit(v: TarjanNode, ghost grays: set<InstanceID>)
      requires Named() && Linked() && Mirrors(search) && Inv(Pending(), search, grays)
      requires InGraph(v) && v.id !in search.index
      requires forall x :: x in grays ==> Reach(Pending(), x, v.id)
      modifies this`index, this`stack, this`components, this`search
      modifies Nodes()`index, Nodes()`lowlink, Nodes()`onStack
      ensures Mirrors(search) && Inv(Pending(), search, grays)
      ensures Visited(Pending(), old(search), search, v.id, v.lowlink)
      ensures forall id :: id in old(search).index && id in vertices ==>
                vertices[id].lowlink == old(vertices[id].lowlink)
      decreases Pending().Keys - search.index.Keys, 0
    {
      hide Inv, Visiting, Visited, Reach, Mirrors, Linked;
      ghost var g, t0 := Pending(), search;
      PushVisiting(g, t0, grays, v.id);
      Enter(v);
      assert v.id in g.Keys - t0.index.Keys;
      assert g.Keys - search.index.Keys < g.Keys - t0.index.Keys;
      VisitDeps(v, grays, t0);
      Finish(v, grays, t0);
    }

    /** The loop over v's dependencies. */
    method VisitDeps(v: TarjanNode, ghost grays: set<InstanceID>, ghost t0: Search)
      requires Named() && Linked() && Mirrors(search) && InGraph(v)
      requires Visiting(Pending(), t0, search, grays, v.id, v.lowlink, {})
      modifies this`index, this`stack, this`components, this`search
      modifies Nodes()`index, Nodes()`lowlink, Nodes()`onStack
      ensures Mirrors(search)
      ensures Visiting(Pending(), t0, search, grays, v.id, v.lowlink, Pending()[v.id])
      ensures forall id :: id in t0.index && id in vertices ==>
                vertices[id].lowlink == old(vertices[id].lowlink)
      decreases Pending().Keys - search.index.Keys, 2
    {
      hide Inv, Visiting, Visited, Reach, Mirrors, Linked;
      ghost var g := Pending();
      DepNodeFacts(v);
      ghost var seen: set<InstanceID> := {};
      var i := 0;
      while i < |v.depNodes|
        invariant 0 <= i <= |v.depNodes|
        invariant Mirrors(search)
        invariant Visiting(g, t0, search, grays, v.id, v.lowlink, seen)
        invariant old(search).index.Keys <= search.index.Keys
        invariant forall k :: 0 <= k < i ==> v.depNodes[k].id in seen
        invariant forall id :: id in t0.index && id in vertices ==>
                    vertices[id].lowlink == old(vertices[id].lowlink)
      {
        VisitDep(v, v.depNodes[i], grays, t0, seen);
        seen := seen + {v.depNodes[i].id};
        i := i + 1;
      }
      SeenAll(g, t0, search, grays, v.id, v.lowlink, seen);
    }

    /** One round of the loop over v's dependencies. */
    method VisitDep(v: TarjanNode, w: TarjanNode, ghost grays: set<InstanceID>,
                    ghost t0: Search, ghost seen: set<InstanceID>)
      requires Named() && Linked() && Mirrors(search) && InGraph(v) && InGraph(w)
      requires Visiting(Pending(), t0, search, grays, v.id, v.lowlink, seen)
      requires Edge(Pending(), v.id, w.id)
      modifies this`index, this`stack, this`components, this`search
      modifies Nodes()`index, Nodes()`lowlink, Nodes()`onStack
      ensures Mirrors(search)
      ensures Visiting(Pending(), t0, search, grays, v.id, v.lowlink, seen + {w.id})
      ensures old(search).index.Keys <= search.index.Keys
      ensures forall id :: id in t0.index && id in vertices ==>
                vertices[id].lowlink == old(vertices[id].lowlink)
      decreases Pending().Keys - search.index.Keys, 1
    {
      hide Inv, Visiting, Visited, Reach, Mirrors, Linked;
      ghost var g, t, l := Pending(), search, v.lowlink;
      VisitingFacts(g, t0, t, grays, v.id, l, seen);
      MirrorFacts(w);
      if w.index < 0 {
        GraysReachChild(g, t0, t, grays, v.id, l, seen, w.id);
        Visit(w, grays + {v.id});
        LowTree(g, t0, t, search, grays, v.id, l, seen, w.id, w.lowlink);
        VisitedFacts(g, t, search, w.id, w.lowlink);
        v.lowlink := Min(v.lowlink, w.lowlink);
      } else if w.onStack {
        LowBack(g, t0, t, grays, v.id, l, seen, w.id);
        v.lowlink := Min(v.lowlink, w.index);
      } else {
        LowDone(g, t0, t, grays, v.id, l, seen, w.id);
      }
    }

    /** With v's dependencies handled, v's component is out if v is its root. */
    method Finish(v: TarjanNode, ghost grays: set<InstanceID>, ghost t0: Search)
      requires Named() && Mirrors(search) && InGraph(v)
      requires Visiting(Pending(), t0, search, grays, v.id, v.lowlink, Pending()[v.id])
      modifies this`stack, this`components, this`search, Nodes()`onStack
      ensures Mirrors(search) && Inv(Pending(), search, grays)
      ensures Visited(Pending(), t0, search, v.id, v.lowlink)
    {
      hide Inv, Visiting, Visited, Reach, Mirrors;
      ghost var g, p := Pending(), |t0.stack|;
      VisitingFacts(g, t0, search, grays, v.id, v.lowlink, g[v.id]);
      MirrorFacts(v);
      if v.lowlink == v.index {
        FinishPop(g, t0, search, grays, v.id, g[v.id]);
        PopPosition(search, p);
        StackFacts(v, p);
        Emit(v, p);
      } else {
        FinishStay(g, t0, search, grays, v.id, v.lowlink, g[v.id]);
      }
    }

    /** Clears v and links it to those of its dependencies that are vertices. */
    method Link(v: TarjanNode)
      requires Named()
      modifies v`depNodes, v`index, v`lowlink, v`onStack
      ensures NodeLinked(v) && v.index == -1 && !v.onStack
    {
      v.Reset();
      for i := 0 to |v.deps|
        invariant v.index == -1 && !v.onStack
        invariant forall k :: 0 <= k < |v.depNodes| ==>
                    InGraph(v.depNodes[k]) && v.depNodes[k].id in v.deps
        invariant forall k :: 0 <= k < i && v.deps[k] in vertices ==> vertices[v.deps[k]] in v.depNodes
      {
        var dep := v.deps[i];
        if dep in vertices {
          v.depNodes := v.depNodes + [vertices[dep]];
        }
      }
    }

    /** Clears and links every vertex, in whatever order the map yields them. */
    method LinkAll()
      requires Named()
      modifies Nodes()
      ensures Linked()
      ensures NodesIndex(map[]) && NodesOn({})
    {
      var todo := vertices.Keys;
      while todo != {}
        invariant todo <= vertices.Keys
        invariant forall id :: id in vertices && id !in todo ==>
                    NodeLinked(vertices[id]) && vertices[id].index == -1 && !vertices[id].onStack
        decreases todo
      {
        var id :| id in todo;
        Link(vertices[id]);
        todo := todo - {id};
      }
    }

    ghost predicate Idle()
      reads this`index, this`stack, this`components
    {
      index == 0 && stack == [] && components == []
    }

    /** All strongly connected components, each after those it depends on. */
    method StrongConnect() returns (comps: seq<seq<TarjanNode>>)
      requires Named() && Idle()
      modifies this`index, this`stack, this`components, this`search, Nodes()
      ensures comps == components && ComponentsMirror(search.comps)
      ensures CompsOk(Pending(), search.comps) && Flat(search.comps) == vertices.Keys
    {
      hide Inv, Mirrors, Reach, CompsOk, Linked;
      LinkAll();
      search := Start;
      StartInv(Pending());
      StartMirrors();
      var todo := vertices.Keys;
      while todo != {}
        invariant todo <= vertices.Keys
        invariant Linked() && Mirrors(search) && Inv(Pending(), search, {})
        invariant forall id :: id in vertices && id !in todo ==> id in search.index
        decreases todo
      {
        var id :| id in todo;
        Explore(vertices[id]);
        todo := todo - {id};
      }
      comps := components;
      SearchEnds();
    }

    lemma SearchEnds()
      requires Mirrors(search) && Inv(Pending(), search, {})
      requires forall id :: id in vertices ==> id in search.index
      ensures ComponentsMirror(search.comps)
      ensures CompsOk(Pending(), search.comps) && Flat(search.comps) == vertices.Keys
    {
      hide Inv, Mirrors, Reach, CompsOk, Linked;
      InvFacts(Pending(), search, {});
      SearchOver(Pending(), search);
      ComponentFacts();
    }

    lemma StartMirrors()
      requires Idle() && NodesIndex(map[]) && NodesOn({})
      ensures Mirrors(Start)
    {
    }

    lemma ComponentFacts()
      requires Mirrors(search)
      ensures ComponentsMirror(search.comps)
    {
    }

    /** Starts a search from v unless it has been visited. */
    method Explore(v: TarjanNode)
      requires Named() && Linked() && Mirrors(search) && Inv(Pending(), search, {})
      requires InGraph(v)
      modifies this`index, this`stack, this`components, this`search
      modifies Nodes()`index, Nodes()`lowlink, Nodes()`onStack
      ensures Mirrors(search) && Inv(Pending(), search, {})
      ensures v.id in search.index && old(search).index.Keys <= search.index.Keys
    {
      hide Inv, Mirrors, Reach, Visited;
      ghost var t := search;
      MirrorFacts(v);
      InvFacts(Pending(), t, {});
      if v.index < 0 {
        Visit(v, {});
        VisitedFacts(Pending(), t, search, v.id, v.lowlink);
      }
    }

    ghost function SeqNums(): map<InstanceID, SeqNum>
      reads this`vertices
    {
      SeqNumsOf(vertices)
    }

    /** Whether v is one of the nodes of comp. */
    method Contains(comp: seq<TarjanNode>, v: TarjanNode) returns (found: bool)
      ensures found <==> v in comp
    {
      for i := 0 to |comp|
        invariant v !in comp[..i]
      {
        if comp[i] == v {
          return true;
        }
      }
      return false;
    }

    /** Sorts a component by execution order; ties fall in any order. */
    method Sort(comp: seq<TarjanNode>) returns (sorted: seq<TarjanNode>)
      ensures multiset(sorted) == multiset(comp) && InOrder(sorted)
      ensures forall i, j :: 0 <= i < j < |sorted| ==>
                sorted[i].seqNum <= sorted[j].seqNum
                && (sorted[i].seqNum == sorted[j].seqNum ==> sorted[i].id.replica <= sorted[j].id.replica)
    {
      sorted := [];
      for n := 0 to |comp|
        invariant multiset(sorted) == multiset(comp[..n])
        invariant InOrder(sorted)
      {
        sorted := Insert(sorted, comp[n]);
        assert comp[..n + 1] == comp[..n] + [comp[n]];
      }
      assert comp[..|comp|] == comp;
      assert forall i, j :: 0 <= i < j < |sorted| ==> !Before(sorted[j], sorted[i]);
    }

    method Insert(sorted: seq<TarjanNode>, v: TarjanNode) returns (r: seq<TarjanNode>)
      requires InOrder(sorted)
      ensures multiset(r) == multiset(sorted) + multiset{v}
      ensures InOrder(r)
    {
      var p := |sorted|;
      while p > 0 && Before(v, sorted[p - 1])
        invariant 0 <= p <= |sorted|
        invariant forall i :: p <= i < |sorted| ==> Before(v, sorted[i])
      {
        p := p - 1;
      }
      r := sorted[..p] + [v] + sorted[p..];
      assert sorted == sorted[..p] + sorted[p..];
      InsertInOrder(sorted, p, v);
    }

    /** Whether every dependency is in the component or has executed. */
    method MayExecute(comp: seq<TarjanNode>, executed: set<InstanceID>, ghost ids: seq<InstanceID>)
      returns (ok: bool)
      requires Named() && Lists(ids, comp)
      ensures ok <==> forall v, d :: v in comp && d in v.deps ==> d in Elems(ids) || d in executed
    {
      for i := 0 to |comp|
        invariant forall k, d :: 0 <= k < i && d in comp[k].deps ==> d in Elems(ids) || d in executed
      {
        var v := comp[i];
        for j := 0 to |v.deps|
          invariant forall d :: d in v.deps[..j] ==> d in Elems(ids) || d in executed
        {
          var dep := v.deps[j];
          var inScc := false;
          if dep in vertices {
            inScc := Contains(comp, vertices[dep]);
          }
          InScc(comp, ids, dep);
          if !inScc && dep !in executed {
            assert v in comp && dep in v.deps;
            return false;
          }
          assert v.deps[..j + 1] == v.deps[..j] + [dep];
        }
        assert v.deps[..|v.deps|] == v.deps;
      }
      return true;
    }

    lemma InScc(comp: seq<TarjanNode>, ids: seq<InstanceID>, dep: InstanceID)
      requires Named() && Lists(ids, comp)
      ensures dep in Elems(ids) <==> dep in vertices && vertices[dep] in comp
    {
      if dep in ids {
        var k :| 0 <= k < |ids| && ids[k] == dep;
        assert comp[k] == vertices[dep];
      }
      if dep in vertices && vertices[dep] in comp {
        var k :| 0 <= k < |comp| && comp[k] == vertices[dep];
        assert vertices[ids[k]].id == vertices[dep].id;
      }
    }

    /** Executes a whole component in order, or leaves it pending. */
    method ExecuteSCC(comp: seq<TarjanNode>, executed: set<InstanceID>, ghost ids: seq<InstanceID>)
      returns (ran: bool, block: seq<InstanceID>)
      requires Named() && Lists(ids, comp) && NoDup(ids)
      modifies this`vertices
      ensures ran <==> forall v, d :: v in comp && d in v.deps ==> d in Elems(ids) || d in executed
      ensures !ran ==> vertices == old(vertices)
      ensures ran ==> vertices == old(vertices) - Elems(ids)
      ensures ran ==> Elems(block) == Elems(ids) && NoDup(block) && Ordered(old(SeqNums()), block)
      ensures forall x :: x in block ==> x in old(vertices)
      ensures forall i, j :: 0 <= i < j < |block| ==>
                var a, b := old(vertices)[block[i]].seqNum, old(vertices)[block[j]].seqNum;
                a <= b && (a == b ==> block[i].replica <= block[j].replica)
    {
      ran := MayExecute(comp, executed, ids);
      block := [];
      if !ran {
        return;
      }
      var sorted := Sort(comp);
      ghost var vs := vertices;
      ghost var order := SortedIds(vs, ids, comp, sorted);
      for i := 0 to |sorted|
        invariant vertices == vs - Elems(order[..i])
        invariant block == order[..i]
      {
        var v := sorted[i];
        assert order[..i + 1] == order[..i] + [v.id];
        vertices := vertices - {v.id};
        block := block + [v.id];
      }
      assert order[..|sorted|] == order;
      Ascends(SeqNumsOf(vs), block);
    }

    /** One component in the loop of run, vs being the vertices at its start. */
    method RunComponent(comp: seq<TarjanNode>, ghost ids: seq<InstanceID>,
                        ghost vs: map<InstanceID, TarjanNode>, ghost executed: set<InstanceID>,
                        ghost before: set<InstanceID>,
                        history: set<InstanceID>, blocks: seq<seq<InstanceID>>)
      returns (history': set<InstanceID>, blocks': seq<seq<InstanceID>>)
      requires NamedIn(vs) && vertices == vs - Flat(blocks) && ListsIn(vs, ids, comp)
      requires executed !! vs.Keys && CompOk(GraphOf(vs), before, ids)
      requires Running(GraphOf(vs), SeqNumsOf(vs), executed, before, blocks)
      requires history == executed + Flat(blocks)
      modifies this`vertices
      ensures vertices == vs - Flat(blocks')
      ensures history' == executed + Flat(blocks')
      ensures Running(GraphOf(vs), SeqNumsOf(vs), executed, before + Elems(ids), blocks')
    {
      hide Reach, CompOk, Running, Ordered;
      ghost var g, seqs := GraphOf(vs), SeqNumsOf(vs);
      StillThere(vs, executed, before, blocks, ids, comp);
      var ran, block := ExecuteSCC(comp, history, ids);
      PassesIffAll(vs, ids, comp, history);
      if ran {
        FlatAppend(blocks, block);
        OrderedMono(vs - Flat(blocks), vs, block);
        RunPass(g, seqs, executed, before, blocks, ids, block);
        history' := history + (set x | x in block);
        blocks' := blocks + [block];
      } else {
        RunFail(g, seqs, executed, before, blocks, ids);
        history', blocks' := history, blocks;
      }
    }

    lemma StillThere(vs: map<InstanceID, TarjanNode>, executed: set<InstanceID>, before: set<InstanceID>,
                     blocks: seq<seq<InstanceID>>, ids: seq<InstanceID>, comp: seq<TarjanNode>)
      requires NamedIn(vs) && vertices == vs - Flat(blocks) && ListsIn(vs, ids, comp)
      requires CompOk(GraphOf(vs), before, ids)
      requires Running(GraphOf(vs), SeqNumsOf(vs), executed, before, blocks)
      ensures Named() && Lists(ids, comp) && NoDup(ids)
    {
      forall i | 0 <= i < |ids| ensures ids[i] in vertices {
        assert ids[i] in Elems(ids);
      }
    }

    /** One pass: separate the components, execute those that may execute, reset. */
    method Run(executed: set<InstanceID>) returns (blocks: seq<seq<InstanceID>>)
      requires Named() && Idle()
      requires executed !! vertices.Keys
      modifies this, Nodes()
      ensures Scheduled(old(Pending()), old(SeqNums()), executed, blocks)
      ensures vertices == old(vertices) - Flat(blocks)
      ensures Named() && Idle()
      ensures forall k, i :: 0 <= k < |blocks| && 0 <= i < |blocks[k]| ==> blocks[k][i] in old(vertices)
      ensures forall k, i, j :: 0 <= k < |blocks| && 0 <= i < j < |blocks[k]| ==>
                var a, b := old(vertices[blocks[k][i]].seqNum), old(vertices[blocks[k][j]].seqNum);
                a <= b && (a == b ==> blocks[k][i].replica <= blocks[k][j].replica)
    {
      hide Scheduled, CompOk, Running, Flat;
      ghost var vs := vertices;
      var comps := StrongConnect();
      ghost var ids := search.comps;
      var history := executed;
      blocks := [];
      RunStart(GraphOf(vs), SeqNumsOf(vs), executed);
      FlatNone();
      for k := 0 to |comps|
        invariant vertices == vs - Flat(blocks)
        invariant history == executed + Flat(blocks)
        invariant Running(GraphOf(vs), SeqNumsOf(vs), executed, Flat(ids[..k]), blocks)
      {
        FlatPrefix(ids, k);
        history, blocks := RunComponent(comps[k], ids[k], vs, executed, Flat(ids[..k]), history, blocks);
      }
      assert ids[..|comps|] == ids;
      assert Flat(ids) == GraphOf(vs).Keys;
      RunDone(GraphOf(vs), SeqNumsOf(vs), executed, blocks);
      BlocksAscend(GraphOf(vs), SeqNumsOf(vs), executed, blocks);
      index, stack, components := 0, [], [];
    }
  }

  ghost function GraphOf(vs: map<InstanceID, TarjanNode>): DepGraph {
    map id | id in vs :: Elems(vs[id].deps)
  }

  ghost function SeqNumsOf(vs: map<InstanceID, TarjanNode>): map<InstanceID, SeqNum> {
    map id | id in vs :: vs[id].seqNum
  }

  ghost predicate NamedIn(vs: map<InstanceID, TarjanNode>) {
    forall id :: id in vs ==> vs[id].id == id
  }

  lemma FlatNone()
    ensures Flat([]) == {}
  {
  }

  lemma OrderedMono(a: map<InstanceID, TarjanNode>, b: map<InstanceID, TarjanNode>, block: seq<InstanceID>)
    requires Ordered(SeqNumsOf(a), block)
    requires forall id :: id in a ==> id in b && a[id] == b[id]
    ensures Ordered(SeqNumsOf(b), block)
  {
    var s, t := SeqNumsOf(a), SeqNumsOf(b);
    assert forall x :: x in block ==> x in s && x in t && s[x] == t[x];
    forall i, j | 0 <= i < j < |block| ensures !ExecutesBefore(t, block[j], block[i]) {
      assert !ExecutesBefore(s, block[j], block[i]);
    }
  }

  /** The executor's check is the check of the theory. */
  lemma PassesIffAll(vs: map<InstanceID, TarjanNode>, ids: seq<InstanceID>, comp: seq<TarjanNode>,
                     executed: set<InstanceID>)
    requires NamedIn(vs) && ListsIn(vs, ids, comp)
    ensures Passes(GraphOf(vs), executed, Elems(ids)) <==>
            (forall v, d :: v in comp && d in v.deps ==> d in Elems(ids) || d in executed)
  {
    var g := GraphOf(vs);
    if Passes(g, executed, Elems(ids)) {
      forall v, d | v in comp && d in v.deps ensures d in Elems(ids) || d in executed {
        var k :| 0 <= k < |comp| && comp[k] == v;
        assert ids[k] in Elems(ids) && Edge(g, ids[k], d);
      }
    }
    if forall v, d :: v in comp && d in v.deps ==> d in Elems(ids) || d in executed {
      forall x, d | x in Elems(ids) && Edge(g, x, d) ensures d in Elems(ids) || d in executed {
        var k :| 0 <= k < |ids| && ids[k] == x;
        assert comp[k] in comp && d in comp[k].deps;
      }
    }
  }

  /** The nodes ns are those that vs names ids, in the same order. */
  ghost predicate ListsIn(vs: map<InstanceID, TarjanNode>, ids: seq<InstanceID>, ns: seq<TarjanNode>) {
    && |ns| == |ids|
    && (forall i :: 0 <= i < |ids| ==> ids[i] in vs && vs[ids[i]] == ns[i])
  }

  predicate Before(a: TarjanNode, b: TarjanNode) {
    if a.seqNum != b.seqNum then a.seqNum < b.seqNum else a.id.replica < b.id.replica
  }

  predicate InOrder(ns: seq<TarjanNode>) {
    forall i, j :: 0 <= i < j < |ns| ==> !Before(ns[j], ns[i])
  }

  lemma InsertInOrder(sorted: seq<TarjanNode>, p: nat, v: TarjanNode)
    requires InOrder(sorted) && p <= |sorted|
    requires p > 0 ==> !Before(v, sorted[p - 1])
    requires forall i :: p <= i < |sorted| ==> Before(v, sorted[i])
    ensures InOrder(sorted[..p] + [v] + sorted[p..])
  {
    var r := sorted[..p] + [v] + sorted[p..];
    forall i, j | 0 <= i < j < |r| ensures !Before(r[j], r[i]) {
      var a := if i < p then sorted[i] else if i == p then v else sorted[i - 1];
      var b := if j < p then sorted[j] else if j == p then v else sorted[j - 1];
      assert r[i] == a && r[j] == b;
      if j == p && i < p - 1 {
        assert !Before(sorted[p - 1], sorted[i]);
      }
    }
  }

  /** Sorting the nodes of a component sorts their ids. */
  lemma SortedIds(vs: map<InstanceID, TarjanNode>, ids: seq<InstanceID>, comp: seq<TarjanNode>,
                  sorted: seq<TarjanNode>) returns (order: seq<InstanceID>)
    requires NamedIn(vs) && ListsIn(vs, ids, comp) && NoDup(ids)
    requires multiset(sorted) == multiset(comp) && InOrder(sorted)
    ensures |order| == |sorted| && forall i :: 0 <= i < |sorted| ==> order[i] == sorted[i].id
    ensures Elems(order) == Elems(ids) && NoDup(order)
    ensures Ordered(SeqNumsOf(vs), order)
  {
    order := seq(|sorted|, i requires 0 <= i < |sorted| => sorted[i].id);
    forall i, j | 0 <= i < j < |comp| ensures comp[i] != comp[j] {
      assert comp[i].id == ids[i] && comp[j].id == ids[j];
    }
    SamePermutation(comp, sorted);
    forall i | 0 <= i < |sorted| ensures order[i] in vs && vs[order[i]] == sorted[i] && order[i] in ids {
      assert sorted[i] in comp;
      var k :| 0 <= k < |comp| && comp[k] == sorted[i];
      assert ids[k] == order[i];
    }
    forall x | x in ids ensures x in order {
      var k :| 0 <= k < |ids| && ids[k] == x;
      assert comp[k] in sorted;
      var i :| 0 <= i < |sorted| && sorted[i] == comp[k];
      assert order[i] == x;
    }
  }
}

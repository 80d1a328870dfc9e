/**
 * The theory behind the executor's depth-first search: what Tarjan's algorithm
 * keeps true of its indices, its stack and the components it has emitted, and
 * why every emitted component is exactly one strongly connected component.
 */
module Tarjan {
  import opened Types
  import opened Graph

  /**
   * One moment of the search. Position 0 of the stack is its bottom; on and
   * done are the ids on the stack and the ids in emitted components.
   */
  datatype Search = Search(
    index: map<InstanceID, int>,
    stack: seq<InstanceID>,
    comps: seq<seq<InstanceID>>,
    next: int,
    on: set<InstanceID>,
    done: set<InstanceID>)

  const Start: Search := Search(map[], [], [], 0, {}, {})

  ghost predicate Shape(g: DepGraph, t: Search) {
    && t.index.Keys <= g.Keys
    && t.index.Keys == t.on + t.done
    && t.on !! t.done
    && 0 <= t.next
    && (forall v :: v in t.index ==> 0 <= t.index[v] < t.next)
  }

  /** The stack lists the ids in on in the order of their indices. */
  ghost predicate StackShape(t: Search) {
    && t.on <= t.index.Keys
    && (forall i :: 0 <= i < |t.stack| ==> t.stack[i] in t.on)
    && (forall x :: x in t.on ==> x in t.stack)
    && (forall i, j :: 0 <= i < j < |t.stack| ==> t.index[t.stack[i]] < t.index[t.stack[j]])
  }

  /** Members of an emitted component depend only on it and on earlier ones. */
  ghost predicate CompOk(g: DepGraph, before: set<InstanceID>, comp: seq<InstanceID>) {
    && NoDup(comp)
    && IsScc(g, Elems(comp))
    && Elems(comp) !! before
    && (forall x, y :: x in Elems(comp) && Edge(g, x, y) && y in g ==> y in before + Elems(comp))
  }

  ghost predicate CompsOk(g: DepGraph, comps: seq<seq<InstanceID>>) {
    forall k :: 0 <= k < |comps| ==> CompOk(g, Flat(comps[..k]), comps[k])
  }

  /** Whatever was pushed earlier reaches whatever was pushed later. */
  ghost predicate Connected(g: DepGraph, t: Search)
    requires t.on <= t.index.Keys
  {
    forall x, y :: x in t.on && y in t.on && t.index[x] <= t.index[y] ==> Reach(g, x, y)
  }

  /** Gray vertices are those whose call to visit has not returned. */
  ghost predicate HasGray(g: DepGraph, t: Search, grays: set<InstanceID>, y: InstanceID)
    requires y in t.index
  {
    exists x :: x in grays && x in t.index && t.index[x] <= t.index[y] && Reach(g, y, x)
  }

  /** Everything on the stack reaches a gray vertex at or below it. */
  ghost predicate AllHaveGray(g: DepGraph, t: Search, grays: set<InstanceID>)
    requires t.on <= t.index.Keys
  {
    && grays <= t.on
    && (forall y {:trigger HasGray(g, t, grays, y)} :: y in t.on ==> HasGray(g, t, grays, y))
  }

  /** A vertex whose call has returned has no unvisited successor. */
  ghost predicate BlackOk(g: DepGraph, t: Search, grays: set<InstanceID>) {
    forall x, y :: x in t.index && x !in grays && Edge(g, x, y) && y in g ==> y in t.index
  }

  /** Nothing leads out of the emitted components. */
  ghost predicate DoneClosed(g: DepGraph, t: Search) {
    forall x, y :: x in t.done && Edge(g, x, y) && y in g ==> y in t.done
  }

  ghost predicate Inv(g: DepGraph, t: Search, grays: set<InstanceID>) {
    && Shape(g, t)
    && StackShape(t)
    && t.done == Flat(t.comps)
    && CompsOk(g, t.comps)
    && DoneClosed(g, t)
    && Connected(g, t)
    && AllHaveGray(g, t, grays)
    && BlackOk(g, t, grays)
  }

  /** What a call leaves alone of an earlier moment. */
  ghost predicate Extends(a: Search, b: Search) {
    && a.stack <= b.stack
    && a.on <= b.on
    && a.comps <= b.comps
    && a.done <= b.done
    && a.next <= b.next
    && (forall v :: v in a.index ==> v in b.index && b.index[v] == a.index[v])
    && (forall v :: v in b.index && v !in a.index ==> b.index[v] >= a.next)
  }

  /** The lowlink l of v is the index of a vertex on the stack that v reaches. */
  ghost predicate LowWitness(g: DepGraph, t: Search, v: InstanceID, l: int) {
    exists y :: y in t.on && y in t.index && t.index[y] == l && Reach(g, v, y)
  }

  /** Edges from newer stack entries to entries older than bound stay at or above l. */
  ghost predicate NoUndercut(g: DepGraph, t: Search, newer: int, bound: int, l: int)
    requires t.on <= t.index.Keys
  {
    forall x, y ::
      x in t.on && t.index[x] >= newer && Edge(g, x, y) && y in t.on && t.index[y] < bound
      ==> l <= t.index[y]
  }

  /** What a finished call to visit(v), begun at t0, promises about v's lowlink l. */
  ghost predicate Visited(g: DepGraph, t0: Search, t: Search, v: InstanceID, l: int) {
    && Extends(t0, t)
    && t.on <= t.index.Keys
    && v in t.index
    && t.index[v] == t0.next
    && l <= t.index[v]
    && (v in t.on ==> LowWitness(g, t, v, l))
    && (v !in t.on ==> l == t.index[v])
    && NoUndercut(g, t, t0.next, t0.next, l)
  }

  /** The loop over v's successors, those in seen having been handled. */
  ghost predicate Visiting(g: DepGraph, t0: Search, t: Search, grays: set<InstanceID>,
                           v: InstanceID, l: int, seen: set<InstanceID>)
  {
    && v in g && v !in t0.index && v !in grays
    && Inv(g, t0, grays)
    && Inv(g, t, grays + {v})
    && Extends(t0, t)
    && t0.stack + [v] <= t.stack
    && t.index[v] == t0.next
    && l <= t.index[v]
    && LowWitness(g, t, v, l)
    && NoUndercut(g, t, t0.next + 1, t0.next, l)
    && SeenOk(g, t, t0.next, l, seen)
  }

  ghost predicate SeenOk(g: DepGraph, t: Search, bound: int, l: int, seen: set<InstanceID>) {
    && (forall y :: y in seen && y in g ==> y in t.index)
    && (forall y :: y in seen && y in t.on && y in t.index && t.index[y] < bound ==> l <= t.index[y])
  }

  function Push(t: Search, v: InstanceID): Search {
    t.(index := t.index[v := t.next], stack := t.stack + [v], on := t.on + {v}, next := t.next + 1)
  }

  function Min(a: int, b: int): int {
    if a < b then a else b
  }

  /** The order in which a stretch of the stack is popped. */
  function Reversed(s: seq<InstanceID>): (r: seq<InstanceID>)
    ensures |r| == |s|
    ensures forall i :: 0 <= i < |s| ==> r[i] == s[|s| - 1 - i]
  {
    if s == [] then [] else [s[|s| - 1]] + Reversed(s[..|s| - 1])
  }

  lemma ReversedCons(s: seq<InstanceID>, i: nat)
    requires i < |s|
    ensures Reversed(s[i..]) == Reversed(s[i + 1..]) + [s[i]]
  {
    var a, b := Reversed(s[i..]), Reversed(s[i + 1..]) + [s[i]];
    forall k | 0 <= k < |a| ensures a[k] == b[k] {
    }
  }

  function PopComponent(t: Search, p: nat): Search
    requires p <= |t.stack|
  {
    var comp := Reversed(t.stack[p..]);
    t.(stack := t.stack[..p], comps := t.comps + [comp],
       on := t.on - Elems(comp), done := t.done + Elems(comp))
  }

  lemma StartInv(g: DepGraph)
    ensures Inv(g, Start, {})
  {
  }

  lemma PushConnected(g: DepGraph, t: Search, grays: set<InstanceID>, v: InstanceID)
    requires Shape(g, t) && Connected(g, t) && AllHaveGray(g, t, grays) && v !in t.index
    requires forall x :: x in grays ==> Reach(g, x, v)
    ensures Connected(g, Push(t, v))
  {
    var u := Push(t, v);
    forall x, y | x in u.on && y in u.on && u.index[x] <= u.index[y]
      ensures Reach(g, x, y)
    {
      if x == v {
        assert y == v;
        ReachRefl(g, v);
      } else if y == v {
        assert HasGray(g, t, grays, x);
        var z :| z in grays && z in t.index && t.index[z] <= t.index[x] && Reach(g, x, z);
        ReachTrans(g, x, z, v);
      }
    }
  }

  lemma PushGrays(g: DepGraph, t: Search, grays: set<InstanceID>, v: InstanceID)
    requires Shape(g, t) && AllHaveGray(g, t, grays) && v !in t.index
    ensures AllHaveGray(g, Push(t, v), grays + {v})
  {
    var u := Push(t, v);
    forall y | y in u.on ensures HasGray(g, u, grays + {v}, y) {
      if y == v {
        ReachRefl(g, v);
        assert v in grays + {v} && u.index[v] <= u.index[v];
      } else {
        assert HasGray(g, t, grays, y);
        var x :| x in grays && x in t.index && t.index[x] <= t.index[y] && Reach(g, y, x);
        assert x in grays + {v} && u.index[x] <= u.index[y];
      }
    }
  }

  lemma PushStackShape(g: DepGraph, t: Search, v: InstanceID)
    requires Shape(g, t) && StackShape(t) && v in g && v !in t.index
    ensures Shape(g, Push(t, v)) && StackShape(Push(t, v)) && Extends(t, Push(t, v))
  {
    var u := Push(t, v);
    forall x | x in u.on ensures x in u.stack {
      if x == v {
        assert u.stack[|t.stack|] == v;
      } else {
        assert x in t.stack;
      }
    }
  }

  lemma PushVisiting(g: DepGraph, t: Search, grays: set<InstanceID>, v: InstanceID)
    requires Inv(g, t, grays)
    requires v in g && v !in t.index
    requires forall x :: x in grays ==> Reach(g, x, v)
    ensures Visiting(g, t, Push(t, v), grays, v, t.next, {})
  {
    var u := Push(t, v);
    PushStackShape(g, t, v);
    PushConnected(g, t, grays, v);
    PushGrays(g, t, grays, v);
    ReachRefl(g, v);
    assert v in u.on && u.index[v] == t.next;
  }

  /** What the search may rely on between two successors of v. */
  lemma VisitingFacts(g: DepGraph, t0: Search, t: Search, grays: set<InstanceID>,
                      v: InstanceID, l: int, seen: set<InstanceID>)
    requires Visiting(g, t0, t, grays, v, l, seen)
    ensures Inv(g, t, grays + {v}) && StackShape(t) && t.on <= t.index.Keys <= g.Keys
    ensures |t0.stack| < |t.stack| && t.stack[|t0.stack|] == v
    ensures v in g && v in t.index && t.index[v] == t0.next && l <= t0.next
    ensures t0.index.Keys < t.index.Keys
    ensures v !in t0.index
    ensures forall x :: x in t.index ==> t.index[x] >= 0
  {
    assert t.stack[|t0.stack|] == v;
  }

  lemma VisitedFacts(g: DepGraph, t0: Search, t: Search, v: InstanceID, l: int)
    requires Visited(g, t0, t, v, l)
    ensures v in t.index && t0.index.Keys <= t.index.Keys
  {
  }

  lemma InvFacts(g: DepGraph, t: Search, grays: set<InstanceID>)
    requires Inv(g, t, grays)
    ensures t.index.Keys <= g.Keys
    ensures forall x :: x in t.index ==> t.index[x] >= 0
  {
  }

  /** With every vertex visited and no call under way, every vertex is out. */
  lemma SearchOver(g: DepGraph, t: Search)
    requires Inv(g, t, {}) && t.index.Keys == g.Keys
    ensures CompsOk(g, t.comps) && Flat(t.comps) == g.Keys
  {
    forall x ensures x !in t.on {
      if x in t.on {
        var y := GrayOf(g, t, {}, x);
      }
    }
  }

  /** A child call may start: every gray vertex reaches the child. */
  lemma GraysReachChild(g: DepGraph, t0: Search, t: Search, grays: set<InstanceID>,
                        v: InstanceID, l: int, seen: set<InstanceID>, w: InstanceID)
    requires Visiting(g, t0, t, grays, v, l, seen) && Edge(g, v, w)
    ensures forall x :: x in grays + {v} ==> Reach(g, x, w)
  {
    ReachEdge(g, v, w);
    assert t.stack[|t0.stack|] == v;
    forall x | x in grays ensures Reach(g, x, w) {
      assert x in t0.on && t.index[x] <= t.index[v];
      assert Reach(g, x, v);
      ReachTrans(g, x, v, w);
    }
  }

  lemma LowBackWitness(g: DepGraph, t: Search, v: InstanceID, l: int, w: InstanceID)
    requires LowWitness(g, t, v, l) && Edge(g, v, w) && w in t.on && w in t.index
    ensures LowWitness(g, t, v, Min(l, t.index[w]))
  {
    ReachEdge(g, v, w);
    if l < t.index[w] {
      assert Min(l, t.index[w]) == l;
    } else {
      assert w in t.on && t.index[w] == Min(l, t.index[w]) && Reach(g, v, w);
    }
  }

  lemma LowerUndercut(g: DepGraph, t: Search, newer: int, bound: int, l: int, m: int)
    requires t.on <= t.index.Keys && m <= l
    requires NoUndercut(g, t, newer, bound, l)
    ensures NoUndercut(g, t, newer, bound, m)
  {
  }

  lemma LowBackSeen(g: DepGraph, t: Search, bound: int, l: int, seen: set<InstanceID>, w: InstanceID)
    requires SeenOk(g, t, bound, l, seen) && w in t.index
    ensures SeenOk(g, t, bound, Min(l, t.index[w]), seen + {w})
  {
  }

  /** The successor is on the stack: its index bounds lowlink. */
  lemma LowBack(g: DepGraph, t0: Search, t: Search, grays: set<InstanceID>,
                v: InstanceID, l: int, seen: set<InstanceID>, w: InstanceID)
    requires Visiting(g, t0, t, grays, v, l, seen) && Edge(g, v, w) && w in t.on
    ensures Visiting(g, t0, t, grays, v, Min(l, t.index[w]), seen + {w})
  {
    var m := Min(l, t.index[w]);
    LowBackWitness(g, t, v, l, w);
    LowBackSeen(g, t, t0.next, l, seen, w);
    LowerUndercut(g, t, t0.next + 1, t0.next, l, m);
  }

  lemma LowDoneSeen(g: DepGraph, t: Search, bound: int, l: int, seen: set<InstanceID>, w: InstanceID)
    requires SeenOk(g, t, bound, l, seen) && t.on <= t.index.Keys
    requires (w in t.index && w !in t.on) || w !in g
    requires t.index.Keys <= g.Keys
    ensures SeenOk(g, t, bound, l, seen + {w})
  {
  }

  /** The successor is not a vertex, or its component is out: nothing to record. */
  lemma LowDone(g: DepGraph, t0: Search, t: Search, grays: set<InstanceID>,
                v: InstanceID, l: int, seen: set<InstanceID>, w: InstanceID)
    requires Visiting(g, t0, t, grays, v, l, seen)
    requires (w in t.index && w !in t.on) || w !in g
    ensures Visiting(g, t0, t, grays, v, l, seen + {w})
  {
    LowDoneSeen(g, t, t0.next, l, seen, w);
  }

  lemma ExtendsTrans(a: Search, b: Search, c: Search)
    requires Extends(a, b) && Extends(b, c)
    ensures Extends(a, c)
  {
    forall v | v in c.index && v !in a.index ensures c.index[v] >= a.next {
      if v in b.index {
        assert c.index[v] == b.index[v];
      }
    }
  }

  /** The witness of the child's lowlink serves its parent. */
  lemma LowTreeWitness(g: DepGraph, t: Search, u: Search, v: InstanceID, l: int, w: InstanceID, m: int)
    requires v in t.index && t.index[v] < t.next && l <= t.index[v]
    requires Extends(t, u) && Edge(g, v, w)
    requires LowWitness(g, t, v, l)
    requires w in u.on ==> LowWitness(g, u, w, m)
    requires w !in u.on ==> m >= t.next
    ensures LowWitness(g, u, v, Min(l, m))
  {
    if m < l {
      var y :| y in u.on && y in u.index && u.index[y] == m && Reach(g, w, y);
      ReachEdge(g, v, w);
      ReachTrans(g, v, w, y);
      assert y in u.on && u.index[y] == m && Reach(g, v, y);
    } else {
      var y :| y in t.on && y in t.index && t.index[y] == l && Reach(g, v, y);
      assert y in u.on && u.index[y] == l;
    }
  }

  lemma LowTreeUndercut(g: DepGraph, t: Search, u: Search, newer: int, bound: int, l: int, m: int)
    requires Shape(g, t) && Shape(g, u) && Extends(t, u)
    requires bound <= newer <= t.next
    requires NoUndercut(g, t, newer, bound, l)
    requires NoUndercut(g, u, t.next, t.next, m)
    ensures NoUndercut(g, u, newer, bound, Min(l, m))
  {
  }

  lemma LowTreeSeen(g: DepGraph, t: Search, u: Search, bound: int, l: int, m: int,
                    seen: set<InstanceID>, w: InstanceID)
    requires Shape(g, t) && Shape(g, u) && Extends(t, u) && w in u.index && u.index[w] >= bound
    requires SeenOk(g, t, bound, l, seen)
    ensures SeenOk(g, u, bound, Min(l, m), seen + {w})
  {
  }

  /** A finished child call feeds its lowlink m to its parent. */
  lemma LowTree(g: DepGraph, t0: Search, t: Search, u: Search, grays: set<InstanceID>,
                v: InstanceID, l: int, seen: set<InstanceID>, w: InstanceID, m: int)
    requires Visiting(g, t0, t, grays, v, l, seen) && Edge(g, v, w)
    requires Inv(g, u, grays + {v}) && Visited(g, t, u, w, m)
    ensures Visiting(g, t0, u, grays, v, Min(l, m), seen + {w})
  {
    ExtendsTrans(t0, t, u);
    LowTreeWitness(g, t, u, v, l, w, m);
    LowTreeUndercut(g, t, u, t0.next + 1, t0.next, l, m);
    LowTreeSeen(g, t, u, t0.next, l, m, seen, w);
  }

  /** Popping at v's position leaves the older part of the stack. */
  lemma PopPosition(t: Search, p: nat)
    requires StackShape(t) && p <= |t.stack|
    ensures NoDup(t.stack) && Elems(t.stack) == t.on
    ensures Elems(t.stack[..p]) == PopComponent(t, p).on
  {
    StackNoDup(t, 0);
    assert t.stack[0..] == t.stack;
    StackNoDup(t, p);
    ReversedElems(t.stack[p..]);
    forall id ensures id in Elems(t.stack[..p]) <==> id in t.on - Elems(t.stack[p..]) {
      BelowOrAbove(t, p, id);
    }
  }

  lemma BelowOrAbove(t: Search, p: nat, id: InstanceID)
    requires StackShape(t) && p <= |t.stack|
    ensures id in t.stack[..p] <==> id in t.on && id !in t.stack[p..]
  {
    if id in t.stack[..p] {
      var i :| 0 <= i < p && t.stack[i] == id;
      assert forall j :: p <= j < |t.stack| ==> t.stack[j] != id;
    }
    if id in t.on {
      var j := PositionOf(t, id);
      if j < p {
        assert t.stack[..p][j] == id;
      } else {
        assert t.stack[p..][j - p] == id;
      }
    }
  }

  /** The gray vertex some other vertex on the stack leads to. */
  lemma GrayOf(g: DepGraph, t: Search, grays: set<InstanceID>, y: InstanceID) returns (x: InstanceID)
    requires t.on <= t.index.Keys && AllHaveGray(g, t, grays) && y in t.on
    ensures x in grays && x in t.index && t.index[x] <= t.index[y] && Reach(g, y, x)
  {
    assert HasGray(g, t, grays, y);
    x :| x in grays && x in t.index && t.index[x] <= t.index[y] && Reach(g, y, x);
  }

  /** Every vertex among v's dependencies having been handled, all of them have. */
  lemma SeenAll(g: DepGraph, t0: Search, t: Search, grays: set<InstanceID>,
                v: InstanceID, l: int, seen: set<InstanceID>)
    requires Visiting(g, t0, t, grays, v, l, seen)
    requires forall d :: d in g[v] && d in g ==> d in seen
    ensures Visiting(g, t0, t, grays, v, l, g[v])
  {
    assert SeenOk(g, t, t0.next, l, g[v]);
  }

  /** With lowlink below its own index, v leads to an older gray vertex. */
  lemma OlderGray(g: DepGraph, t: Search, grays: set<InstanceID>, v: InstanceID, l: int)
    returns (x: InstanceID)
    requires t.on <= t.index.Keys && v in t.on
    requires AllHaveGray(g, t, grays + {v})
    requires LowWitness(g, t, v, l) && l < t.index[v]
    ensures x in grays && x in t.index && t.index[x] <= t.index[v] && Reach(g, v, x)
  {
    var z :| z in t.on && z in t.index && t.index[z] == l && Reach(g, v, z);
    x := GrayOf(g, t, grays + {v}, z);
    ReachTrans(g, v, z, x);
  }

  lemma StayGrayAt(g: DepGraph, t: Search, grays: set<InstanceID>, v: InstanceID, x: InstanceID, y: InstanceID)
    requires t.on <= t.index.Keys && v in t.on && y in t.on
    requires AllHaveGray(g, t, grays + {v})
    requires x in grays && x in t.index && t.index[x] <= t.index[v] && Reach(g, v, x)
    ensures HasGray(g, t, grays, y)
  {
    var c := GrayOf(g, t, grays + {v}, y);
    if c == v {
      ReachTrans(g, y, v, x);
      assert x in grays && t.index[x] <= t.index[y] && Reach(g, y, x);
    } else {
      assert c in grays;
    }
  }

  lemma StayGray(g: DepGraph, t: Search, grays: set<InstanceID>, v: InstanceID, x: InstanceID)
    requires t.on <= t.index.Keys && v in t.on
    requires AllHaveGray(g, t, grays + {v})
    requires x in grays && x in t.index && t.index[x] <= t.index[v] && Reach(g, v, x)
    ensures AllHaveGray(g, t, grays)
  {
    forall y | y in t.on ensures HasGray(g, t, grays, y) {
      StayGrayAt(g, t, grays, v, x, y);
    }
  }

  lemma IndexUnique(t: Search, x: InstanceID, y: InstanceID)
    requires StackShape(t) && x in t.on && y in t.on && t.index[x] == t.index[y]
    ensures x == y
  {
    var i :| 0 <= i < |t.stack| && t.stack[i] == x;
    var j :| 0 <= j < |t.stack| && t.stack[j] == y;
  }

  lemma StayUndercut(g: DepGraph, t: Search, v: InstanceID, l: int, bound: int, seen: set<InstanceID>)
    requires StackShape(t) && v in t.on && t.index[v] == bound
    requires v in g && g[v] <= seen
    requires NoUndercut(g, t, bound + 1, bound, l) && SeenOk(g, t, bound, l, seen)
    ensures NoUndercut(g, t, bound, bound, l)
  {
    forall x, y | x in t.on && t.index[x] >= bound && Edge(g, x, y) && y in t.on && t.index[y] < bound
      ensures l <= t.index[y]
    {
      if t.index[x] == bound {
        IndexUnique(t, x, v);
        assert y in seen;
      }
    }
  }

  lemma VisitedBlack(g: DepGraph, t: Search, grays: set<InstanceID>, v: InstanceID, l: int, bound: int,
                     seen: set<InstanceID>)
    requires BlackOk(g, t, grays + {v}) && v in g && g[v] <= seen && SeenOk(g, t, bound, l, seen)
    ensures BlackOk(g, t, grays)
  {
    forall x, y | x in t.index && x !in grays && Edge(g, x, y) && y in g
      ensures y in t.index
    {
      if x == v {
        assert y in seen;
      }
    }
  }

  lemma FinishStay(g: DepGraph, t0: Search, t: Search, grays: set<InstanceID>,
                   v: InstanceID, l: int, seen: set<InstanceID>)
    requires Visiting(g, t0, t, grays, v, l, seen) && g[v] <= seen
    requires l < t.index[v]
    ensures Inv(g, t, grays) && Visited(g, t0, t, v, l)
  {
    assert t.stack[|t0.stack|] == v;
    var x := OlderGray(g, t, grays, v, l);
    StayGray(g, t, grays, v, x);
    StayUndercut(g, t, v, l, t0.next, seen);
    VisitedBlack(g, t, grays, v, l, t0.next, seen);
  }

  /** The vertices above the stack of t0. */
  function Above(t0: Search, t: Search): set<InstanceID>
    requires t.on <= t.index.Keys
  {
    set x | x in t.on && t.index[x] >= t0.next
  }

  /** With lowlink equal to the index, no edge leads from above to below. */
  lemma AboveClosed(g: DepGraph, t0: Search, t: Search, grays: set<InstanceID>,
                    v: InstanceID, seen: set<InstanceID>, x: InstanceID, y: InstanceID)
    requires Visiting(g, t0, t, grays, v, t0.next, seen) && g[v] <= seen
    requires x in Above(t0, t) && Edge(g, x, y) && y in g
    ensures y in Above(t0, t) + t.done
  {
    assert t.stack[|t0.stack|] == v;
    VisitedBlack(g, t, grays, v, t0.next, t0.next, seen);
    StayUndercut(g, t, v, t0.next, t0.next, seen);
    assert x in grays ==> x in t0.on;
    assert y in t.index;
  }

  lemma AboveReaches(g: DepGraph, t0: Search, t: Search, grays: set<InstanceID>,
                     v: InstanceID, seen: set<InstanceID>, x: InstanceID, z: InstanceID)
    requires Visiting(g, t0, t, grays, v, t0.next, seen) && g[v] <= seen
    requires x in Above(t0, t) && Reach(g, x, z) && z in g
    ensures z in Above(t0, t) + t.done
  {
    var s := iset y | y in Above(t0, t) + t.done || y !in g;
    forall a, b | a in s && Edge(g, a, b) ensures b in s {
      if b in g && a in Above(t0, t) {
        AboveClosed(g, t0, t, grays, v, seen, a, b);
      }
    }
    ReachClosed(g, s, x, z);
  }

  lemma AboveReachesRoot(g: DepGraph, t0: Search, t: Search, grays: set<InstanceID>,
                         v: InstanceID, seen: set<InstanceID>, x: InstanceID)
    requires Visiting(g, t0, t, grays, v, t0.next, seen) && g[v] <= seen
    requires x in Above(t0, t)
    ensures Reach(g, x, v)
  {
    var z := GrayOf(g, t, grays + {v}, x);
    assert z != v ==> z in t0.on && z !in Above(t0, t) + t.done;
    if z != v {
      AboveReaches(g, t0, t, grays, v, seen, x, z);
    }
  }

  /** What sits above is exactly one strongly connected component. */
  lemma AboveIsScc(g: DepGraph, t0: Search, t: Search, grays: set<InstanceID>,
                   v: InstanceID, seen: set<InstanceID>)
    requires Visiting(g, t0, t, grays, v, t0.next, seen) && g[v] <= seen
    ensures IsScc(g, Above(t0, t))
  {
    var c := Above(t0, t);
    assert t.stack[|t0.stack|] == v;
    assert v in c;
    forall a, b | a in c && b in c ensures Reach(g, a, b) {
      AboveReachesRoot(g, t0, t, grays, v, seen, a);
      assert Reach(g, v, b);
      ReachTrans(g, a, v, b);
    }
    forall a, b | a in c && MutualReach(g, a, b) ensures b in c {
      if b !in g {
        if b != a {
          var n := ReachStep(g, b, a);
        }
      } else {
        AboveReaches(g, t0, t, grays, v, seen, a, b);
        if b in t.done {
          var s := iset y | y in t.done || y !in g;
          ReachClosed(g, s, b, a);
          assert false;
        }
      }
    }
  }

  lemma ReversedElems(s: seq<InstanceID>)
    requires NoDup(s)
    ensures Elems(Reversed(s)) == Elems(s) && NoDup(Reversed(s))
  {
    var r := Reversed(s);
    forall x | x in s ensures x in r {
      var i :| 0 <= i < |s| && s[i] == x;
      assert r[|s| - 1 - i] == x;
    }
  }

  lemma AtOrAbove(t0: Search, t: Search, v: InstanceID, j: nat)
    requires StackShape(t) && StackShape(t0) && t0.on <= t0.index.Keys
    requires forall x :: x in t0.index ==> x in t.index && t.index[x] == t0.index[x] < t0.next
    requires t0.stack + [v] <= t.stack && v in t.index && t.index[v] == t0.next
    requires j < |t.stack|
    ensures t.stack[j] in Above(t0, t) <==> |t0.stack| <= j
  {
    var p := |t0.stack|;
    assert t.stack[p] == v;
    if j < p {
      assert t.stack[j] == t0.stack[j];
    }
  }

  lemma StackNoDup(t: Search, p: nat)
    requires StackShape(t) && p <= |t.stack|
    ensures NoDup(t.stack[p..])
  {
    var s := t.stack[p..];
    forall i, j | 0 <= i < j < |s| ensures s[i] != s[j] {
      assert s[i] == t.stack[p + i] && s[j] == t.stack[p + j];
    }
  }

  lemma PositionOf(t: Search, x: InstanceID) returns (j: nat)
    requires StackShape(t) && x in t.on
    ensures j < |t.stack| && t.stack[j] == x
  {
    j :| 0 <= j < |t.stack| && t.stack[j] == x;
  }

  /** The popped stretch of the stack holds exactly the vertices above. */
  lemma PoppedElems(t0: Search, t: Search, v: InstanceID, x: InstanceID)
    requires StackShape(t) && StackShape(t0) && t0.on <= t0.index.Keys
    requires forall y :: y in t0.index ==> y in t.index && t.index[y] == t0.index[y] < t0.next
    requires t0.stack + [v] <= t.stack && v in t.index && t.index[v] == t0.next
    ensures x in t.stack[|t0.stack|..] <==> x in Above(t0, t)
  {
    var s := t.stack[|t0.stack|..];
    if x in s {
      var i :| 0 <= i < |s| && s[i] == x;
      AtOrAbove(t0, t, v, |t0.stack| + i);
    }
    if x in Above(t0, t) {
      var j := PositionOf(t, x);
      AtOrAbove(t0, t, v, j);
      assert s[j - |t0.stack|] == x;
    }
  }

  /** Once the component is out, the stack is what it was at the start of the call. */
  lemma BelowIsOld(g: DepGraph, t0: Search, t: Search)
    requires Shape(g, t0) && Shape(g, t) && StackShape(t0) && Extends(t0, t)
    ensures t.on - Above(t0, t) == t0.on
  {
  }

  lemma PopCompsOk(g: DepGraph, t: Search, comp: seq<InstanceID>)
    requires CompsOk(g, t.comps) && CompOk(g, Flat(t.comps), comp)
    ensures CompsOk(g, t.comps + [comp])
  {
    var cs := t.comps + [comp];
    forall k | 0 <= k < |cs| ensures CompOk(g, Flat(cs[..k]), cs[k]) {
      if k < |t.comps| {
        assert cs[..k] == t.comps[..k];
      } else {
        assert cs[..k] == t.comps;
      }
    }
  }

  lemma PoppedSet(t0: Search, t: Search, v: InstanceID)
    requires StackShape(t) && StackShape(t0) && t0.on <= t0.index.Keys
    requires forall y :: y in t0.index ==> y in t.index && t.index[y] == t0.index[y] < t0.next
    requires t0.stack + [v] <= t.stack && v in t.index && t.index[v] == t0.next
    ensures Elems(Reversed(t.stack[|t0.stack|..])) == Above(t0, t)
    ensures NoDup(Reversed(t.stack[|t0.stack|..]))
  {
    var s := t.stack[|t0.stack|..];
    StackNoDup(t, |t0.stack|);
    ReversedElems(s);
    forall x ensures x in Elems(s) <==> x in Above(t0, t) {
      PoppedElems(t0, t, v, x);
    }
  }

  lemma PoppedCompOk(g: DepGraph, t0: Search, t: Search, grays: set<InstanceID>,
                     v: InstanceID, seen: set<InstanceID>, comp: seq<InstanceID>)
    requires Visiting(g, t0, t, grays, v, t0.next, seen) && g[v] <= seen
    requires Elems(comp) == Above(t0, t) && NoDup(comp)
    ensures CompOk(g, t.done, comp)
  {
    AboveIsScc(g, t0, t, grays, v, seen);
    forall x, y | x in Elems(comp) && Edge(g, x, y) && y in g ensures y in t.done + Elems(comp) {
      AboveClosed(g, t0, t, grays, v, seen, x, y);
    }
  }

  lemma PopShape(g: DepGraph, t0: Search, t: Search, u: Search)
    requires Shape(g, t0) && Shape(g, t) && StackShape(t0) && Extends(t0, t)
    requires u.index == t.index && u.next == t.next && u.on == t0.on && u.stack == t0.stack
    requires u.done == t.done + Above(t0, t)
    ensures Shape(g, u) && StackShape(u)
  {
    BelowIsOld(g, t0, t);
  }

  lemma PopGrays(g: DepGraph, t0: Search, u: Search, grays: set<InstanceID>)
    requires t0.on <= t0.index.Keys && u.on == t0.on
    requires forall x :: x in t0.index ==> x in u.index && u.index[x] == t0.index[x]
    requires AllHaveGray(g, t0, grays) && Connected(g, t0)
    ensures AllHaveGray(g, u, grays) && Connected(g, u)
  {
    forall y | y in u.on ensures HasGray(g, u, grays, y) {
      var x := GrayOf(g, t0, grays, y);
      assert u.index[x] <= u.index[y];
    }
  }

  lemma PopDoneClosed(g: DepGraph, t: Search, u: Search, before: set<InstanceID>, comp: seq<InstanceID>)
    requires DoneClosed(g, t) && CompOk(g, t.done, comp)
    requires u.done == t.done + Elems(comp)
    ensures DoneClosed(g, u)
  {
  }

  lemma PopExtends(t0: Search, t: Search, u: Search)
    requires Extends(t0, t) && t.comps <= u.comps && t.done <= u.done
    requires u.index == t.index && u.next == t.next && u.on == t0.on && u.stack == t0.stack
    ensures Extends(t0, u)
  {
  }

  lemma PopInv(g: DepGraph, t0: Search, t: Search, u: Search, grays: set<InstanceID>, comp: seq<InstanceID>)
    requires Inv(g, t0, grays) && Extends(t0, t)
    requires Shape(g, t) && DoneClosed(g, t) && BlackOk(g, t, grays)
    requires t.done == Flat(t.comps) && CompsOk(g, t.comps) && CompOk(g, t.done, comp)
    requires Elems(comp) == Above(t0, t)
    requires u == Search(t.index, t0.stack, t.comps + [comp], t.next, t0.on, t.done + Elems(comp))
    ensures Inv(g, u, grays) && Extends(t0, u)
  {
    PopCompsOk(g, t, comp);
    FlatAppend(t.comps, comp);
    PopShape(g, t0, t, u);
    PopGrays(g, t0, u, grays);
    PopDoneClosed(g, t, u, t.done, comp);
    PopExtends(t0, t, u);
  }

  lemma PopIsOld(g: DepGraph, t0: Search, t: Search, v: InstanceID)
    requires Shape(g, t0) && Shape(g, t) && StackShape(t0) && StackShape(t) && Extends(t0, t)
    requires t0.stack + [v] <= t.stack && v in t.index && t.index[v] == t0.next
    ensures var comp := Reversed(t.stack[|t0.stack|..]);
            && Elems(comp) == Above(t0, t) && NoDup(comp)
            && PopComponent(t, |t0.stack|)
               == Search(t.index, t0.stack, t.comps + [comp], t.next, t0.on, t.done + Elems(comp))
  {
    PoppedSet(t0, t, v);
    BelowIsOld(g, t0, t);
    assert t.stack[..|t0.stack|] == t0.stack;
  }

  lemma PopVisited(g: DepGraph, t0: Search, u: Search, v: InstanceID)
    requires Shape(g, t0) && Shape(g, u) && Extends(t0, u) && u.on == t0.on
    requires v in u.index && u.index[v] == t0.next && v !in t0.index
    ensures Visited(g, t0, u, v, t0.next)
  {
  }

  lemma FinishPop(g: DepGraph, t0: Search, t: Search, grays: set<InstanceID>,
                  v: InstanceID, seen: set<InstanceID>)
    requires Visiting(g, t0, t, grays, v, t0.next, seen) && g[v] <= seen
    ensures Inv(g, PopComponent(t, |t0.stack|), grays)
    ensures Visited(g, t0, PopComponent(t, |t0.stack|), v, t0.next)
  {
    var u := PopComponent(t, |t0.stack|);
    var comp := Reversed(t.stack[|t0.stack|..]);
    PopIsOld(g, t0, t, v);
    PoppedCompOk(g, t0, t, grays, v, seen, comp);
    VisitedBlack(g, t, grays, v, t0.next, t0.next, seen);
    PopInv(g, t0, t, u, grays, comp);
    PopVisited(g, t0, u, v);
  }
}

/**
 * Dependency graphs: reachability, strongly connected components and sequences
 * of components. A vertex is a key of the map; an edge may lead to an id that
 * is not a vertex, and paths end there.
 */
module Graph {
  import opened Types

  type DepGraph = map<InstanceID, set<InstanceID>>

  predicate Edge(g: DepGraph, a: InstanceID, b: InstanceID) {
    a in g && b in g[a]
  }

  ghost predicate IsPath(g: DepGraph, p: seq<InstanceID>) {
    && |p| > 0
    && forall i :: 0 <= i < |p| - 1 ==> Edge(g, p[i], p[i + 1])
  }

  /** Reflexive and transitive reachability. */
  ghost predicate Reach(g: DepGraph, a: InstanceID, b: InstanceID) {
    exists p :: IsPath(g, p) && p[0] == a && p[|p| - 1] == b
  }

  ghost predicate MutualReach(g: DepGraph, a: InstanceID, b: InstanceID) {
    Reach(g, a, b) && Reach(g, b, a)
  }

  /** Exactly one equivalence class of mutual reachability among the vertices. */
  ghost predicate IsScc(g: DepGraph, s: set<InstanceID>) {
    && s != {}
    && s <= g.Keys
    && (forall a, b :: a in s && b in s ==> Reach(g, a, b))
    && (forall a, b :: a in s && MutualReach(g, a, b) ==> b in s)
  }

  function Elems(s: seq<InstanceID>): set<InstanceID> {
    set x | x in s
  }

  predicate NoDup(s: seq<InstanceID>) {
    forall i, j :: 0 <= i < j < |s| ==> s[i] != s[j]
  }

  /** All ids of a sequence of components. */
  function Flat(bs: seq<seq<InstanceID>>): set<InstanceID> {
    set b, x | b in bs && x in b :: x
  }

  /** The components one after the other. */
  function Concat(bs: seq<seq<InstanceID>>): seq<InstanceID> {
    if bs == [] then [] else Concat(bs[..|bs| - 1]) + bs[|bs| - 1]
  }

  lemma ReachRefl(g: DepGraph, a: InstanceID)
    ensures Reach(g, a, a)
  {
    assert IsPath(g, [a]);
  }

  lemma ReachEdge(g: DepGraph, a: InstanceID, b: InstanceID)
    requires Edge(g, a, b)
    ensures Reach(g, a, b)
  {
    var p := [a, b];
    assert IsPath(g, p) && p[0] == a && p[|p| - 1] == b;
  }

  lemma ReachTrans(g: DepGraph, a: InstanceID, b: InstanceID, c: InstanceID)
    requires Reach(g, a, b) && Reach(g, b, c)
    ensures Reach(g, a, c)
  {
    var p :| IsPath(g, p) && p[0] == a && p[|p| - 1] == b;
    var q :| IsPath(g, q) && q[0] == b && q[|q| - 1] == c;
    var r := p + q[1..];
    forall i | 0 <= i < |r| - 1 ensures Edge(g, r[i], r[i + 1]) {
      if i < |p| - 1 {
      } else {
        assert r[i] == q[i - (|p| - 1)];
      }
    }
    assert IsPath(g, r) && r[0] == a && r[|r| - 1] == c;
  }

  /** A path whose edges are edges of a larger graph is a path there. */
  lemma ReachMono(g: DepGraph, h: DepGraph, a: InstanceID, b: InstanceID)
    requires Reach(g, a, b)
    requires forall x, y :: Edge(g, x, y) ==> Edge(h, x, y)
    ensures Reach(h, a, b)
  {
    var p :| IsPath(g, p) && p[0] == a && p[|p| - 1] == b;
    assert IsPath(h, p);
  }

  /** A set closed under edges holds everything reachable from its members. */
  lemma ReachClosed(g: DepGraph, s: iset<InstanceID>, a: InstanceID, b: InstanceID)
    requires forall x, y :: x in s && Edge(g, x, y) ==> y in s
    requires a in s && Reach(g, a, b)
    ensures b in s
  {
    var p :| IsPath(g, p) && p[0] == a && p[|p| - 1] == b;
    PathClosed(g, s, p, |p| - 1);
  }

  lemma {:induction false} PathClosed(g: DepGraph, s: iset<InstanceID>, p: seq<InstanceID>, i: nat)
    requires forall x, y :: x in s && Edge(g, x, y) ==> y in s
    requires IsPath(g, p) && p[0] in s && i < |p|
    ensures p[i] in s
  {
    if i > 0 {
      PathClosed(g, s, p, i - 1);
      assert Edge(g, p[i - 1], p[i]);
    }
  }

  /** A vertex on the way: the first step of a path that goes somewhere. */
  lemma ReachStep(g: DepGraph, a: InstanceID, b: InstanceID) returns (c: InstanceID)
    requires Reach(g, a, b) && a != b
    ensures Edge(g, a, c) && Reach(g, c, b)
  {
    var p :| IsPath(g, p) && p[0] == a && p[|p| - 1] == b;
    c := p[1];
    var q := p[1..];
    forall i | 0 <= i < |q| - 1 ensures Edge(g, q[i], q[i + 1]) {
      assert Edge(g, p[i + 1], p[i + 2]);
    }
    assert Edge(g, p[0], p[1]);
    assert IsPath(g, q) && q[0] == c && q[|q| - 1] == b;
  }

  lemma FlatAppend(bs: seq<seq<InstanceID>>, b: seq<InstanceID>)
    ensures Flat(bs + [b]) == Flat(bs) + Elems(b)
  {
    forall x ensures x in Flat(bs + [b]) <==> x in Flat(bs) + Elems(b) {
      if x in Flat(bs) {
        var c :| c in bs && x in c;
        assert c in bs + [b];
      }
      if x in b {
        assert (bs + [b])[|bs|] == b;
      }
    }
  }

  lemma FlatPrefix(bs: seq<seq<InstanceID>>, i: nat)
    requires i < |bs|
    ensures Flat(bs[..i + 1]) == Flat(bs[..i]) + Elems(bs[i])
    ensures Flat(bs[..i]) <= Flat(bs)
    ensures Elems(bs[i]) <= Flat(bs)
  {
    assert bs[..i + 1] == bs[..i] + [bs[i]];
    FlatAppend(bs[..i], bs[i]);
  }

  lemma {:induction false} ConcatElems(bs: seq<seq<InstanceID>>)
    ensures Elems(Concat(bs)) == Flat(bs)
  {
    if bs != [] {
      var n := |bs| - 1;
      ConcatElems(bs[..n]);
      assert bs == bs[..n] + [bs[n]];
      FlatAppend(bs[..n], bs[n]);
    }
  }

  // ----- Permutations -----

  lemma {:induction false} DistinctOnce<T>(s: seq<T>, x: T)
    requires forall i, j :: 0 <= i < j < |s| ==> s[i] != s[j]
    ensures multiset(s)[x] <= 1
  {
    if s != [] {
      var n := |s| - 1;
      DistinctOnce(s[..n], x);
      assert s == s[..n] + [s[n]];
      if s[n] == x {
        assert x !in s[..n];
      }
    }
  }

  lemma RepeatedTwice<T>(s: seq<T>, i: nat, j: nat)
    requires i < j < |s| && s[i] == s[j]
    ensures multiset(s)[s[i]] >= 2
  {
    assert s == s[..j] + s[j..];
    assert s[..j][i] == s[i] && s[j..][0] == s[j];
    assert s[i] in multiset(s[..j]) && s[i] in multiset(s[j..]);
  }

  /** A permutation of distinct elements has the same elements, each once. */
  lemma SamePermutation<T>(comp: seq<T>, sorted: seq<T>)
    requires multiset(sorted) == multiset(comp)
    requires forall i, j :: 0 <= i < j < |comp| ==> comp[i] != comp[j]
    ensures forall i, j :: 0 <= i < j < |sorted| ==> sorted[i] != sorted[j]
    ensures forall v :: v in sorted <==> v in comp
  {
    forall i, j | 0 <= i < j < |sorted| ensures sorted[i] != sorted[j] {
      if sorted[i] == sorted[j] {
        RepeatedTwice(sorted, i, j);
        DistinctOnce(comp, sorted[i]);
      }
    }
    forall v ensures v in sorted <==> v in comp {
      assert v in multiset(sorted) <==> v in sorted;
    }
  }
}

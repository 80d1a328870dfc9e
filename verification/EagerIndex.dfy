/**
 * What one replica of the efficient EPaxos keeps beside its instances: for each
 * row the last instance that touches a key, and the committed frontier. Ballots
 * stay initial, and nobody recovers, proposes checkpoints or commits no-ops.
 * Messages are handled in any order: each kind has its own channel.
 */
module EagerIndex {
  import opened Types
  import opened EagerExecution

  datatype Inst = Inst(cmds: Option<seq<KvCommand>>, status: Phase, seqNum: int, deps: seq<int>)

  type Space = map<InstanceID, Inst>

  function KeysOf(cmds: seq<KvCommand>): set<int> {
    set c | c in cmds :: c.k
  }

  /** Instance i of row q is stored with commands, and one of them is on key k. */
  predicate Touches(space: Space, q: ReplicaID, i: InstanceNum, k: int) {
    var id := InstanceID(q, i);
    id in space && space[id].cmds.Some? && k in KeysOf(space[id].cmds.value)
  }

  /** What a scan of the row finds: the last instance on each key. */
  ghost predicate IndexRow(space: Space, q: ReplicaID, ix: map<int, int>) {
    && (forall k :: k in ix ==> ix[k] >= 0 && Touches(space, q, ix[k], k))
    && (forall i: nat, k :: Touches(space, q, i, k) ==> k in ix && i <= ix[k])
  }

  predicate Done(space: Space, q: ReplicaID, i: InstanceNum) {
    var id := InstanceID(q, i);
    id in space && space[id].status in {COMMITTED, EXECUTED}
  }

  /** The longest committed prefix of the row ends at upTo. */
  ghost predicate Frontier(space: Space, q: ReplicaID, upTo: int) {
    && upTo >= -1
    && (forall i: nat :: i <= upTo ==> Done(space, q, i))
    && !Done(space, q, upTo + 1)
  }

  /** ix with the keys raised to at least v. */
  function Raised(ix: map<int, int>, keys: set<int>, v: int): map<int, int> {
    map k | k in ix.Keys + keys :: if k !in keys then ix[k] else if k in ix && ix[k] > v then ix[k] else v
  }

  /** The keys of the batch are raised to at least v, and nothing else is. */
  ghost predicate Raises(was: map<int, int>, now: map<int, int>, cmds: seq<KvCommand>, v: int) {
    forall k ::
      if exists c :: c in cmds && c.k == k
      then && k in now && v <= now[k] && (now[k] == v || (k in was && now[k] == was[k]))
           && (k in was ==> was[k] <= now[k])
      else (k in now <==> k in was) && (k in was ==> now[k] == was[k])
  }

  lemma RaisedRaises(was: map<int, int>, cmds: seq<KvCommand>, v: int)
    ensures Raises(was, Raised(was, KeysOf(cmds), v), cmds, v)
  {
    assert forall k :: k in KeysOf(cmds) <==> exists c :: c in cmds && c.k == k;
  }

  lemma IndexGrows(space: Space, q: ReplicaID, i: nat, inst: Inst, ix: map<int, int>)
    requires IndexRow(space, q, ix) && inst.cmds.Some?
    requires var id := InstanceID(q, i);
             id in space && space[id].cmds.Some? ==> space[id].cmds == inst.cmds
    ensures IndexRow(space[InstanceID(q, i) := inst], q, Raised(ix, KeysOf(inst.cmds.value), i))
  {
    var space', ix' := space[InstanceID(q, i) := inst], Raised(ix, KeysOf(inst.cmds.value), i);
    forall j: nat, k | Touches(space', q, j, k) ensures k in ix' && j <= ix'[k] {
      assert j != i ==> Touches(space, q, j, k);
    }
    forall k | k in ix' ensures ix'[k] >= 0 && Touches(space', q, ix'[k], k) {
      assert k in ix && ix'[k] == ix[k] ==> Touches(space, q, ix[k], k);
    }
  }

  /** An instance with its commands kept, or stored without any, leaves the index right. */
  lemma IndexSame(space: Space, p: ReplicaID, i: nat, inst: Inst, q: ReplicaID, ix: map<int, int>)
    requires IndexRow(space, q, ix)
    requires var id := InstanceID(p, i);
             p != q || inst.cmds == if id in space then space[id].cmds else None
    ensures IndexRow(space[InstanceID(p, i) := inst], q, ix)
  {
    var space' := space[InstanceID(p, i) := inst];
    assert forall j: nat, k :: Touches(space', q, j, k) <==> Touches(space, q, j, k);
  }

  // ----- Attributes -----

  /** The first command of the batch whose last known instance in the row exceeds d; later ones are not looked at. */
  function FirstLarger(ix: map<int, int>, cmds: seq<KvCommand>, d: int): Option<int> {
    if cmds == [] then None
    else if cmds[0].k in ix && ix[cmds[0].k] > d then Some(ix[cmds[0].k])
    else FirstLarger(ix, cmds[1..], d)
  }

  /** d is at or above the last instance on every key of the batch. */
  predicate Dominates(d: int, ix: map<int, int>, cmds: seq<KvCommand>) {
    forall c :: c in cmds && c.k in ix ==> ix[c.k] <= d
  }

  function NewDep(ix: map<int, int>, cmds: seq<KvCommand>, d: int): int {
    var first := FirstLarger(ix, cmds, d);
    if first.Some? then first.value else d
  }

  lemma {:induction false} FirstLargerFacts(ix: map<int, int>, cmds: seq<KvCommand>, d: int)
    ensures FirstLarger(ix, cmds, d).Some? ==>
              FirstLarger(ix, cmds, d).value > d && exists c :: c in cmds && c.k in ix && ix[c.k] == FirstLarger(ix, cmds, d).value
    ensures FirstLarger(ix, cmds, d).None? <==> Dominates(d, ix, cmds)
  {
    if cmds != [] {
      FirstLargerFacts(ix, cmds[1..], d);
      assert forall c :: c in cmds <==> c == cmds[0] || c in cmds[1..];
      if cmds[0].k in ix && ix[cmds[0].k] > d {
        assert cmds[0] in cmds;
      }
    }
  }

  /** With one command the new dependency is the greater of the two. */
  lemma OneCommandDep(ix: map<int, int>, c: KvCommand, d: int)
    ensures NewDep(ix, [c], d) == if c.k in ix && ix[c.k] > d then ix[c.k] else d
    ensures Dominates(NewDep(ix, [c], d), ix, [c])
  {
    assert [c][1..] == [] && FirstLarger(ix, [], d) == None;
  }

  /** The last known instance on the i-th key of the batch lies above d. */
  predicate Over(ix: map<int, int>, cmds: seq<KvCommand>, d: int, i: nat) {
    i < |cmds| && cmds[i].k in ix && ix[cmds[i].k] > d
  }

  predicate FirstOver(ix: map<int, int>, cmds: seq<KvCommand>, d: int, i: nat) {
    Over(ix, cmds, d, i) && forall h: nat :: h < i ==> !Over(ix, cmds, d, h)
  }

  lemma {:induction false} FirstLargerIsFirst(ix: map<int, int>, cmds: seq<KvCommand>, d: int, i: nat)
    requires FirstOver(ix, cmds, d, i)
    ensures FirstLarger(ix, cmds, d) == Some(ix[cmds[i].k])
  {
    if i > 0 {
      assert !Over(ix, cmds, d, 0);
      forall h: nat | h < i - 1 ensures !Over(ix, cmds[1..], d, h) {
        assert !Over(ix, cmds, d, h + 1);
      }
      FirstLargerIsFirst(ix, cmds[1..], d, i - 1);
    }
  }

  lemma {:induction false} SomeIsFirst(ix: map<int, int>, cmds: seq<KvCommand>, d: int, j: nat) returns (i: nat)
    requires Over(ix, cmds, d, j)
    ensures FirstOver(ix, cmds, d, i) && i <= j
  {
    if h: nat :| h < j && Over(ix, cmds, d, h) {
      i := SomeIsFirst(ix, cmds, d, h);
    } else {
      i := j;
    }
  }

  /**
   * With several commands, stopping at the first larger index is enough exactly
   * when none of the commands after it has an index that is larger still.
   */
  lemma BatchDep(ix: map<int, int>, cmds: seq<KvCommand>, d: int)
    ensures NewDep(ix, cmds, d) >= d
    ensures Dominates(NewDep(ix, cmds, d), ix, cmds) <==>
            forall i: nat, j: nat :: FirstOver(ix, cmds, d, i) && i < j && Over(ix, cmds, d, j)
              ==> ix[cmds[j].k] <= ix[cmds[i].k]
  {
    FirstLargerFacts(ix, cmds, d);
    var dep := NewDep(ix, cmds, d);
    if i: nat :| FirstOver(ix, cmds, d, i) {
      FirstLargerIsFirst(ix, cmds, d, i);
      if forall j: nat :: i < j && Over(ix, cmds, d, j) ==> ix[cmds[j].k] <= dep {
        forall c | c in cmds && c.k in ix ensures ix[c.k] <= dep {
          var j: nat :| j < |cmds| && cmds[j] == c;
          assert j < i ==> !Over(ix, cmds, d, j);
          assert i < j && ix[c.k] > d ==> Over(ix, cmds, d, j);
        }
        forall h: nat | FirstOver(ix, cmds, d, h) ensures h == i {
          assert h < i ==> !Over(ix, cmds, d, h);
        }
      } else {
        var j: nat :| i < j && Over(ix, cmds, d, j) && ix[cmds[j].k] > dep;
        assert cmds[j] in cmds;
      }
    } else {
      forall c | c in cmds && c.k in ix ensures ix[c.k] <= d {
        var j: nat :| j < |cmds| && cmds[j] == c;
        if ix[c.k] > d {
          var i := SomeIsFirst(ix, cmds, d, j);
        }
      }
    }
  }

  /** Rows whose dependency the batch raised. */
  predicate RaisedRow(deps: seq<int>, deps': seq<int>, q: nat)
    requires |deps'| == |deps|
  {
    q < |deps| && deps'[q] != deps[q]
  }

  /** The sequence number lies above those of the raised dependencies, and no higher than it has to. */
  ghost predicate RowsSeq(s: int, space: Space, seqNum: int, deps: seq<int>, deps': seq<int>)
    requires |deps'| == |deps|
  {
    && seqNum <= s
    && (forall q: nat :: RaisedRow(deps, deps', q) ==> DepSeq(space, q, deps'[q]) < s)
    && (s == seqNum || exists q: nat :: RaisedRow(deps, deps', q) && s == DepSeq(space, q, deps'[q]) + 1)
  }

  /** Likewise above the greatest seen on each key. */
  ghost predicate KeysSeq(s: int, maxSeqs: map<int, int>, cmds: seq<KvCommand>, seqNum: int) {
    && seqNum <= s
    && (forall c :: c in cmds && c.k in maxSeqs ==> maxSeqs[c.k] < s)
    && (s == seqNum || exists c :: c in cmds && c.k in maxSeqs && s == maxSeqs[c.k] + 1)
  }

  /** seqNum' is the least number that lies above all that the batch and its dependencies call for. */
  ghost predicate LeastSeq(space: Space, maxSeqs: map<int, int>, cmds: seq<KvCommand>, seqNum: int, deps: seq<int>,
                           seqNum': int, deps': seq<int>)
    requires |deps'| == |deps|
  {
    exists s :: RowsSeq(s, space, seqNum, deps, deps') && KeysSeq(seqNum', maxSeqs, cmds, s)
  }

  function DepSeq(space: Space, q: ReplicaID, d: int): int {
    if d >= 0 && InstanceID(q, d) in space then space[InstanceID(q, d)].seqNum else -1
  }

  // ----- Merging replies -----

  datatype Attributes = Attributes(seqNum: int, deps: seq<int>)

  function Larger(a: int, b: int): int {
    if b > a then b else a
  }

  /** The leader takes the greater of each, but keeps its own row. */
  function Merge(self: ReplicaID, a: Attributes, b: Attributes): (r: Attributes)
    ensures |r.deps| == |a.deps|
  {
    Attributes(Larger(a.seqNum, b.seqNum),
               seq(|a.deps|, q requires 0 <= q < |a.deps| =>
                 if q == self || q >= |b.deps| then a.deps[q] else Larger(a.deps[q], b.deps[q])))
  }

  predicate SameOff(self: ReplicaID, a: Attributes, b: Attributes) {
    && a.seqNum == b.seqNum && |a.deps| == |b.deps|
    && forall q :: 0 <= q < |a.deps| && q != self ==> a.deps[q] == b.deps[q]
  }

  function MergeAll(self: ReplicaID, a: Attributes, replies: seq<Attributes>): Attributes {
    if replies == [] then a
    else Merge(self, MergeAll(self, a, replies[..|replies| - 1]), replies[|replies| - 1])
  }

  lemma MergeSwap(self: ReplicaID, a: Attributes, b: Attributes, c: Attributes)
    ensures Merge(self, Merge(self, a, b), c) == Merge(self, Merge(self, a, c), b)
  {
  }

  lemma {:induction false} MergeMiddle(self: ReplicaID, a: Attributes, front: seq<Attributes>, b: Attributes,
                                       back: seq<Attributes>)
    ensures MergeAll(self, a, front + [b] + back) == Merge(self, MergeAll(self, a, front + back), b)
  {
    hide Merge;
    if back == [] {
      assert front + [b] + back == front + [b] && front + back == front;
      assert (front + [b])[..|front|] == front;
    } else {
      var l := |back| - 1;
      assert (front + [b] + back)[..|front + [b] + back| - 1] == front + [b] + back[..l];
      assert (front + back)[..|front + back| - 1] == front + back[..l];
      MergeMiddle(self, a, front, b, back[..l]);
      MergeSwap(self, MergeAll(self, a, front + back[..l]), b, back[l]);
    }
  }

  /** The merged attributes do not depend on the order in which the replies come. */
  lemma {:induction false} MergeAnyOrder(self: ReplicaID, a: Attributes, xs: seq<Attributes>, ys: seq<Attributes>)
    requires multiset(xs) == multiset(ys)
    ensures MergeAll(self, a, xs) == MergeAll(self, a, ys)
    decreases |xs|
  {
    hide Merge;
    if xs == [] {
      NoneLeft(ys);
    } else {
      var l := |xs| - 1;
      var k := Occurs(xs, ys);
      var front, back := ys[..k], ys[k + 1..];
      MergeAnyOrder(self, a, xs[..l], front + back);
      MergeMiddle(self, a, front, xs[l], back);
    }
  }

  lemma NoneLeft<T>(ys: seq<T>)
    requires multiset(ys) == multiset{}
    ensures ys == []
  {
    assert |ys| == |multiset(ys)|;
  }

  /** The last of xs is somewhere in a permutation of it; without it the rest are permutations too. */
  lemma Occurs<T>(xs: seq<T>, ys: seq<T>) returns (k: nat)
    requires xs != [] && multiset(xs) == multiset(ys)
    ensures k < |ys| && ys == ys[..k] + [xs[|xs| - 1]] + ys[k + 1..]
    ensures multiset(xs[..|xs| - 1]) == multiset(ys[..k] + ys[k + 1..])
  {
    var l := |xs| - 1;
    Without(xs, l);
    assert xs[..l] + xs[l + 1..] == xs[..l];
    assert xs[l] in multiset(ys);
    k :| 0 <= k < |ys| && ys[k] == xs[l];
    Without(ys, k);
  }

  lemma Without<T>(s: seq<T>, k: nat)
    requires k < |s|
    ensures s == s[..k] + [s[k]] + s[k + 1..]
    ensures multiset(s[..k] + s[k + 1..]) == multiset(s) - multiset{s[k]}
  {
    assert s == s[..k] + [s[k]] + s[k + 1..];
    assert multiset(s) == multiset(s[..k]) + multiset{s[k]} + multiset(s[k + 1..]);
  }

  // ----- What handling a message does to the tables -----

  datatype Tables = Tables(
    space: Space,
    crtInstance: seq<nat>,
    committedUpTo: seq<int>,
    conflicts: seq<map<int, int>>,
    maxSeqPerKey: map<int, int>)
  {
    ghost predicate Shaped(id: ReplicaID, n: nat) {
      && id < n && |crtInstance| == n && |committedUpTo| == n && |conflicts| == n
      && (forall q :: 0 <= q < n ==> committedUpTo[q] >= -1)
      && (forall x :: x in space ==> x.replica < n && x.num < crtInstance[x.replica] && |space[x].deps| == n)
    }

    /** Each row's table is what a scan of the row would find. */
    ghost predicate IndexOk() {
      forall q: nat :: q < |conflicts| ==> IndexRow(space, q, conflicts[q])
    }

    ghost predicate FrontierOk() {
      forall q: nat :: q < |committedUpTo| ==> Frontier(space, q, committedUpTo[q])
    }
  }

  function OldCmds(space: Space, x: InstanceID): Option<seq<KvCommand>> {
    if x in space then space[x].cmds else None
  }

  /**
   * What reaches a replica: a client's batch, a leader's messages, what it
   * decides about its own instances, and what its execution thread has done.
   * Attributes are not part of it; they may be any.
   */
  datatype Event =
    | Propose(cmds: seq<KvCommand>)
    | PreAccept(x: InstanceID, cmds: seq<KvCommand>, seqNum: int)
    | Accept(x: InstanceID)
    | Commit(x: InstanceID, cmds: seq<KvCommand>, seqNum: int)
    | CommitShort(x: InstanceID)
    | Decide(i: nat, status: Phase)
    | Execute(x: InstanceID)

  /** Only x changes, and holds these commands and this status afterwards. */
  predicate Puts(t: Tables, t': Tables, x: InstanceID, cmds: Option<seq<KvCommand>>, status: Phase) {
    && x in t'.space && t'.space == t.space[x := t'.space[x]]
    && t'.space[x].cmds == cmds && t'.space[x].status == status
    && |t'.space[x].deps| == |t.crtInstance|
  }

  predicate Knows(t: Tables, t': Tables, x: InstanceID) {
    && x.replica < |t.crtInstance|
    && t'.crtInstance == t.crtInstance[x.replica := Max(t.crtInstance[x.replica], x.num + 1)]
  }

  predicate Indexes(t: Tables, t': Tables, x: InstanceID, cmds: seq<KvCommand>, seqNum: int) {
    && x.replica < |t.conflicts|
    && t'.conflicts == t.conflicts[x.replica := Raised(t.conflicts[x.replica], KeysOf(cmds), x.num)]
    && t'.maxSeqPerKey == Raised(t.maxSeqPerKey, KeysOf(cmds), seqNum)
  }

  predicate SameIndex(t: Tables, t': Tables) {
    t'.conflicts == t.conflicts && t'.maxSeqPerKey == t.maxSeqPerKey
  }

  /** The frontier moves over all that is committed next in the row. */
  ghost predicate Advances(t: Tables, t': Tables, q: ReplicaID) {
    && q < |t.committedUpTo| && |t'.committedUpTo| == |t.committedUpTo|
    && t'.committedUpTo == t.committedUpTo[q := t'.committedUpTo[q]]
    && t.committedUpTo[q] <= t'.committedUpTo[q]
    && (forall i: nat :: t.committedUpTo[q] < i <= t'.committedUpTo[q] ==> Done(t'.space, q, i))
    && (t'.committedUpTo[q] >= -1 ==> !Done(t'.space, q, t'.committedUpTo[q] + 1))
  }

  ghost predicate Stepped(id: ReplicaID, t: Tables, e: Event, t': Tables)
    requires id < |t.crtInstance|
  {
    match e
    case Propose(cmds) =>
      var x := InstanceID(id, t.crtInstance[id]);
      && Puts(t, t', x, Some(cmds), PREACCEPTED) && Knows(t, t', x)
      && Indexes(t, t', x, cmds, t'.space[x].seqNum) && t'.committedUpTo == t.committedUpTo
    case PreAccept(x, cmds, seqNum) =>
      && t'.committedUpTo == t.committedUpTo
      && if x in t.space && t.space[x].status in {COMMITTED, ACCEPTED} then
           if t.space[x].cmds.Some? then t' == t
           else && Puts(t, t', x, Some(cmds), t.space[x].status) && t'.crtInstance == t.crtInstance
                && Indexes(t, t', x, cmds, seqNum)
         else
           && (Puts(t, t', x, Some(cmds), PREACCEPTED) || Puts(t, t', x, Some(cmds), PREACCEPTED_EQ))
           && Knows(t, t', x) && Indexes(t, t', x, cmds, seqNum)
    case Accept(x) =>
      if Done(t.space, x.replica, x.num) then t' == t
      else && Puts(t, t', x, OldCmds(t.space, x), ACCEPTED) && Knows(t, t', x)
           && SameIndex(t, t') && t'.committedUpTo == t.committedUpTo
    case Commit(x, cmds, seqNum) =>
      && Knows(t, t', x) && Advances(t, t', x.replica)
      && (if x in t.space then Puts(t, t', x, t.space[x].cmds, COMMITTED) && SameIndex(t, t')
          else Puts(t, t', x, Some(cmds), COMMITTED) && Indexes(t, t', x, cmds, seqNum))
    case CommitShort(x) =>
      && Knows(t, t', x) && Advances(t, t', x.replica)
      && Puts(t, t', x, OldCmds(t.space, x), COMMITTED) && SameIndex(t, t')
    case Decide(i, status) =>
      var x := InstanceID(id, i);
      if x in t.space && t.space[x].status in {PREACCEPTED, ACCEPTED} then
        && Puts(t, t', x, t.space[x].cmds, status) && t'.crtInstance == t.crtInstance && SameIndex(t, t')
        && if status == COMMITTED then Advances(t, t', id) else t'.committedUpTo == t.committedUpTo
      else t' == t
    case Execute(x) =>
      && Done(t.space, x.replica, x.num) && t.space[x].cmds.Some?
      && Puts(t, t', x, t.space[x].cmds, EXECUTED) && t'.crtInstance == t.crtInstance
      && SameIndex(t, t') && t'.committedUpTo == t.committedUpTo
  }

  /** Whatever is said about an instance after its commands are known says the same commands. */
  predicate Agrees(t: Tables, e: Event) {
    (e.PreAccept? || e.Commit?) && e.x in t.space && t.space[e.x].cmds.Some? ==> t.space[e.x].cmds.value == e.cmds
  }

  /** Nobody sends messages about another's row, and a leader's decisions are not pre-acceptances by another. */
  predicate Possible(id: ReplicaID, n: nat, e: Event) {
    match e
    case Propose(_) => true
    case PreAccept(x, _, _) => x.replica < n && x.replica != id
    case Accept(x) => x.replica < n && x.replica != id
    case Commit(x, _, _) => x.replica < n && x.replica != id
    case CommitShort(x) => x.replica < n && x.replica != id
    case Decide(_, status) => status in {PREACCEPTED, ACCEPTED, COMMITTED}
    case Execute(x) => x.replica < n
  }

  /** The one event that can take back what the frontier says. */
  predicate Late(t: Tables, e: Event) {
    && e.PreAccept? && e.x in t.space && t.space[e.x].status == EXECUTED
    && e.x.replica < |t.committedUpTo| && e.x.num <= t.committedUpTo[e.x.replica]
  }

  /** A step keeps the shape and the conflict table, in whatever state it finds the frontier. */
  lemma StepIndex(id: ReplicaID, t: Tables, e: Event, t': Tables)
    requires t.Shaped(id, |t.crtInstance|) && t.IndexOk() && Possible(id, |t.crtInstance|, e) && Agrees(t, e)
    requires Stepped(id, t, e, t')
    ensures t'.Shaped(id, |t.crtInstance|) && t'.IndexOk()
  {
    hide IndexRow, Raised, KeysOf;
    StepShape(id, t, e, t');
    StepTable(id, t, e, t');
  }

  lemma StepShape(id: ReplicaID, t: Tables, e: Event, t': Tables)
    requires t.Shaped(id, |t.crtInstance|) && Possible(id, |t.crtInstance|, e) && Stepped(id, t, e, t')
    ensures t'.Shaped(id, |t.crtInstance|)
  {
    hide Raised, KeysOf, Tables.Shaped;
    match e
    case Propose(_) => OneMoreShaped(id, t, t', InstanceID(id, t.crtInstance[id]));
    case PreAccept(x, _, _) => if t' != t { OneMoreShaped(id, t, t', x); }
    case Accept(x) => if t' != t { OneMoreShaped(id, t, t', x); }
    case Commit(x, _, _) => OneMoreShaped(id, t, t', x);
    case CommitShort(x) => OneMoreShaped(id, t, t', x);
    case Decide(i, _) => if t' != t { OneMoreShaped(id, t, t', InstanceID(id, i)); }
    case Execute(x) => OneMoreShaped(id, t, t', x);
  }

  lemma OneMoreShaped(id: ReplicaID, t: Tables, t': Tables, x: InstanceID)
    requires t.Shaped(id, |t.crtInstance|) && x in t'.space && t'.space == t.space[x := t'.space[x]]
    requires |t'.space[x].deps| == |t.crtInstance| && |t'.conflicts| == |t.conflicts|
    requires Knows(t, t', x) || (x in t.space && t'.crtInstance == t.crtInstance)
    requires t'.committedUpTo == t.committedUpTo || Advances(t, t', x.replica)
    ensures t'.Shaped(id, |t.crtInstance|)
  {
  }

  lemma StepTable(id: ReplicaID, t: Tables, e: Event, t': Tables)
    requires t.Shaped(id, |t.crtInstance|) && t.IndexOk() && Possible(id, |t.crtInstance|, e) && Agrees(t, e)
    requires Stepped(id, t, e, t')
    ensures t'.IndexOk()
  {
    hide IndexRow, Raised, KeysOf, Tables.IndexOk, Advances;
    match e
    case Propose(cmds) => Indexed(t, t', InstanceID(id, t.crtInstance[id]), cmds);
    case PreAccept(x, cmds, _) => if t' != t { Indexed(t, t', x, cmds); }
    case Accept(x) => if t' != t { Unindexed(t, t', x); }
    case Commit(x, cmds, _) =>
      if x in t.space { Unindexed(t, t', x); } else { Indexed(t, t', x, cmds); }
    case CommitShort(x) => Unindexed(t, t', x);
    case Decide(i, _) => if t' != t { Unindexed(t, t', InstanceID(id, i)); }
    case Execute(x) => Unindexed(t, t', x);
  }

  lemma Indexed(t: Tables, t': Tables, x: InstanceID, cmds: seq<KvCommand>)
    requires t.IndexOk() && x.replica < |t.conflicts| && x in t'.space && t'.space == t.space[x := t'.space[x]]
    requires t'.space[x].cmds == Some(cmds)
    requires x in t.space && t.space[x].cmds.Some? ==> t.space[x].cmds.value == cmds
    requires t'.conflicts == t.conflicts[x.replica := Raised(t.conflicts[x.replica], KeysOf(cmds), x.num)]
    ensures t'.IndexOk()
  {
    hide IndexRow, Raised, KeysOf;
    forall p: nat | p < |t.conflicts| ensures IndexRow(t'.space, p, t'.conflicts[p]) {
      if p == x.replica {
        IndexGrows(t.space, p, x.num, t'.space[x], t.conflicts[p]);
      } else {
        IndexSame(t.space, x.replica, x.num, t'.space[x], p, t.conflicts[p]);
      }
    }
  }

  lemma Unindexed(t: Tables, t': Tables, x: InstanceID)
    requires t.IndexOk() && x in t'.space && t'.space == t.space[x := t'.space[x]]
    requires t'.space[x].cmds == OldCmds(t.space, x) && t'.conflicts == t.conflicts
    ensures t'.IndexOk()
  {
    hide IndexRow;
    forall p: nat | p < |t.conflicts| ensures IndexRow(t'.space, p, t'.conflicts[p]) {
      IndexSame(t.space, x.replica, x.num, t'.space[x], p, t.conflicts[p]);
    }
  }

  /** A step keeps the frontier exact if and only if it is not a late PreAccept. */
  lemma StepFrontier(id: ReplicaID, t: Tables, e: Event, t': Tables)
    requires t.Shaped(id, |t.crtInstance|) && t.FrontierOk() && Possible(id, |t.crtInstance|, e)
    requires Stepped(id, t, e, t')
    ensures t'.FrontierOk() <==> !Late(t, e)
  {
    if t' != t {
      var x := Changed(id, t, e);
      assert t'.space == t.space[x := t'.space[x]];
      if t'.committedUpTo == t.committedUpTo && Done(t'.space, x.replica, x.num) == Done(t.space, x.replica, x.num) {
        FrontierKept(t, t', x);
      } else if Done(t'.space, x.replica, x.num) {
        FrontierMoves(t, t', x);
      } else {
        FrontierLost(t, t', x);
      }
    }
  }

  function Changed(id: ReplicaID, t: Tables, e: Event): InstanceID
    requires id < |t.crtInstance|
  {
    match e
    case Propose(_) => InstanceID(id, t.crtInstance[id])
    case Decide(i, _) => InstanceID(id, i)
    case PreAccept(x, _, _) => x
    case Accept(x) => x
    case Commit(x, _, _) => x
    case CommitShort(x) => x
    case Execute(x) => x
  }

  lemma OthersDone(t: Tables, t': Tables, x: InstanceID)
    requires x in t'.space && t'.space == t.space[x := t'.space[x]]
    ensures forall q: nat, i: nat :: InstanceID(q, i) != x ==> Done(t'.space, q, i) == Done(t.space, q, i)
  {
  }

  lemma FrontierKept(t: Tables, t': Tables, x: InstanceID)
    requires t.FrontierOk() && x in t'.space && t'.space == t.space[x := t'.space[x]]
    requires t'.committedUpTo == t.committedUpTo && Done(t'.space, x.replica, x.num) == Done(t.space, x.replica, x.num)
    ensures t'.FrontierOk()
  {
    OthersDone(t, t', x);
    assert x == InstanceID(x.replica, x.num);
    assert forall q: nat, i: nat :: Done(t'.space, q, i) == Done(t.space, q, i);
  }

  lemma FrontierMoves(t: Tables, t': Tables, x: InstanceID)
    requires t.FrontierOk() && x in t'.space && t'.space == t.space[x := t'.space[x]]
    requires Done(t'.space, x.replica, x.num) && Advances(t, t', x.replica)
    ensures t'.FrontierOk()
  {
    OthersDone(t, t', x);
    assert x == InstanceID(x.replica, x.num);
    assert Frontier(t.space, x.replica, t.committedUpTo[x.replica]);
  }

  lemma FrontierLost(t: Tables, t': Tables, x: InstanceID)
    requires t.FrontierOk() && x in t'.space && t'.space == t.space[x := t'.space[x]]
    requires x.replica < |t.committedUpTo| && t'.committedUpTo == t.committedUpTo && !Done(t'.space, x.replica, x.num)
    ensures t'.FrontierOk() <==> x.num > t.committedUpTo[x.replica]
  {
    OthersDone(t, t', x);
    assert x == InstanceID(x.replica, x.num);
    assert Frontier(t.space, x.replica, t.committedUpTo[x.replica]);
    if x.num <= t.committedUpTo[x.replica] {
      assert !Frontier(t'.space, x.replica, t'.committedUpTo[x.replica]);
    }
  }

  // ----- The replica -----

  datatype Reply = Silent | PreAcceptOK | PreAcceptReply(seqNum: int, deps: seq<int>, committed: seq<int>)

  /**
   * The answer of a replica that is asked to pre-accept x: its own attributes, or
   * its agreement when they are those it was sent and all they cover is committed.
   */
  ghost predicate Answered(t: Tables, t': Tables, x: InstanceID, cmds: seq<KvCommand>, seqNum: int, deps: seq<int>,
                           reply: Reply)
  {
    && x in t'.space && |t'.space[x].deps| == |deps| == |t.conflicts| == |t.committedUpTo|
    && var inst := t'.space[x];
       && inst.cmds == Some(cmds)
       && inst.status == (if inst.seqNum == seqNum && inst.deps == deps then PREACCEPTED_EQ else PREACCEPTED)
       && (forall p: nat :: p < |deps| ==>
             inst.deps[p] == if p == x.replica then deps[p] else NewDep(t.conflicts[p], cmds, deps[p]))
       && LeastSeq(t.space, t.maxSeqPerKey, cmds, seqNum, deps, inst.seqNum, inst.deps)
       && reply == if inst.seqNum == seqNum && inst.deps == deps
                      && forall p: nat :: p < |deps| ==> deps[p] <= t.committedUpTo[p]
                   then PreAcceptOK else PreAcceptReply(inst.seqNum, inst.deps, t.committedUpTo)
  }

  class Replica {
    const id: ReplicaID
    const n: nat
    var space: Space
    var crtInstance: seq<nat>
    var committedUpTo: seq<int>
    var conflicts: seq<map<int, int>>
    var maxSeqPerKey: map<int, int>

    ghost function View(): Tables
      reads this
    {
      Tables(space, crtInstance, committedUpTo, conflicts, maxSeqPerKey)
    }

    ghost predicate Shaped()
      reads this
    {
      View().Shaped(id, n)
    }

    ghost predicate IndexOk()
      reads this
    {
      View().IndexOk()
    }

    ghost predicate FrontierOk()
      reads this
    {
      View().FrontierOk()
    }

    constructor (id: ReplicaID, n: nat)
      requires id < n
      ensures Shaped() && IndexOk() && FrontierOk() && this.id == id && this.n == n && View() == Fresh(n)
    {
      this.id, this.n, space := id, n, map[];
      crtInstance := seq(n, _ => 0);
      committedUpTo := seq(n, _ => -1);
      conflicts := seq(n, _ => map[]);
      maxSeqPerKey := map[];
    }

    method UpdateConflicts(cmds: seq<KvCommand>, replica: ReplicaID, instance: nat, seqNum: int)
      requires replica < |conflicts|
      modifies this`conflicts, this`maxSeqPerKey
      ensures conflicts == old(conflicts)[replica := Raised(old(conflicts[replica]), KeysOf(cmds), instance)]
      ensures maxSeqPerKey == Raised(old(maxSeqPerKey), KeysOf(cmds), seqNum)
      ensures |conflicts| == |old(conflicts)| && forall q: nat :: q < |conflicts| && q != replica ==> conflicts[q] == old(conflicts)[q]
      ensures Raises(old(conflicts)[replica], conflicts[replica], cmds, instance)
      ensures Raises(old(maxSeqPerKey), maxSeqPerKey, cmds, seqNum)
    {
      hide Raised, Raises;
      RaisedRaises(conflicts[replica], cmds, instance);
      RaisedRaises(maxSeqPerKey, cmds, seqNum);
      RaisedNothing(conflicts[replica], instance);
      RaisedNothing(maxSeqPerKey, seqNum);
      assert conflicts == conflicts[replica := conflicts[replica]];
      for i := 0 to |cmds|
        invariant replica < |conflicts|
        invariant conflicts == old(conflicts)[replica := Raised(old(conflicts[replica]), KeysOf(cmds[..i]), instance)]
        invariant maxSeqPerKey == Raised(old(maxSeqPerKey), KeysOf(cmds[..i]), seqNum)
      {
        var k := cmds[i].k;
        RaisedMore(old(conflicts[replica]), cmds, i, instance);
        RaisedMore(old(maxSeqPerKey), cmds, i, seqNum);
        if k in conflicts[replica] {
          if conflicts[replica][k] < instance {
            conflicts := conflicts[replica := conflicts[replica][k := instance]];
          }
        } else {
          conflicts := conflicts[replica := conflicts[replica][k := instance]];
        }
        if k in maxSeqPerKey {
          if maxSeqPerKey[k] < seqNum {
            maxSeqPerKey := maxSeqPerKey[k := seqNum];
          }
        } else {
          maxSeqPerKey := maxSeqPerKey[k := seqNum];
        }
      }
      assert cmds[..|cmds|] == cmds;
    }

    /** The while loop over the row. */
    method UpdateCommitted(replica: ReplicaID)
      requires replica < |committedUpTo| && committedUpTo[replica] >= -1
      modifies this`committedUpTo
      ensures Advances(old(View()), View(), replica)
    {
      while InstanceID(replica, committedUpTo[replica] + 1) in space
            && space[InstanceID(replica, committedUpTo[replica] + 1)].status in {COMMITTED, EXECUTED}
        invariant |committedUpTo| == |old(committedUpTo)| && committedUpTo[replica] >= old(committedUpTo)[replica]
        invariant committedUpTo == old(committedUpTo)[replica := committedUpTo[replica]]
        invariant forall i: nat :: old(committedUpTo)[replica] < i <= committedUpTo[replica] ==> Done(space, replica, i)
        decreases |Beyond(space, replica, committedUpTo[replica])|
      {
        FewerBeyond(space, replica, committedUpTo[replica]);
        committedUpTo := committedUpTo[replica := committedUpTo[replica] + 1];
      }
    }

    /** The attributes of a batch, given what was proposed for it. */
    method UpdateAttributes(cmds: seq<KvCommand>, seqNum: int, deps: seq<int>, replica: ReplicaID)
      returns (seqNum': int, deps': seq<int>, changed: bool)
      requires Shaped() && IndexOk() && |deps| == n
      ensures |deps'| == n
      ensures forall q: nat :: q < n ==>
                deps'[q] == if id != replica && q == replica then deps[q] else NewDep(conflicts[q], cmds, deps[q])
      ensures LeastSeq(space, maxSeqPerKey, cmds, seqNum, deps, seqNum', deps')
      ensures changed <==> seqNum' != seqNum || deps' != deps
    {
      seqNum', deps', changed := RaiseDeps(cmds, seqNum, deps, replica);
      ghost var s0, changed0 := seqNum', changed;
      for i := 0 to |cmds|
        invariant KeysSeq(seqNum', maxSeqPerKey, cmds[..i], s0)
        invariant changed <==> changed0 || seqNum' != s0
      {
        assert cmds[..i + 1] == cmds[..i] + [cmds[i]];
        if cmds[i].k in maxSeqPerKey {
          if seqNum' <= maxSeqPerKey[cmds[i].k] {
            changed := true;
            seqNum' := maxSeqPerKey[cmds[i].k] + 1;
          }
        }
      }
      assert cmds[..|cmds|] == cmds;
    }

    /** The loop over the rows. */
    method RaiseDeps(cmds: seq<KvCommand>, seqNum: int, deps: seq<int>, replica: ReplicaID)
      returns (seqNum': int, deps': seq<int>, changed: bool)
      requires Shaped() && IndexOk() && |deps| == n
      ensures |deps'| == n
      ensures forall q: nat :: q < n ==>
                deps'[q] == if id != replica && q == replica then deps[q] else NewDep(conflicts[q], cmds, deps[q])
      ensures RowsSeq(seqNum', space, seqNum, deps, deps')
      ensures changed <==> deps' != deps
      ensures deps' == deps ==> seqNum' == seqNum
    {
      seqNum', deps', changed := seqNum, deps, false;
      for q := 0 to n
        invariant |deps'| == n && forall p: nat :: q <= p < n ==> deps'[p] == deps[p]
        invariant forall p: nat :: p < q ==>
                    deps'[p] == if id != replica && p == replica then deps[p] else NewDep(conflicts[p], cmds, deps[p])
        invariant RowsSeq(seqNum', space, seqNum, deps, deps')
        invariant changed <==> deps' != deps
        invariant !changed ==> seqNum' == seqNum
      {
        if id != replica && q == replica {
          continue;
        }
        var larger := FindLarger(q, cmds, deps'[q]);
        if larger.Some? {
          ghost var s0, d0 := seqNum', deps';
          deps' := deps'[q := larger.value];
          assert deps'[q] != deps[q];
          if seqNum' <= space[InstanceID(q, larger.value)].seqNum {
            seqNum' := space[InstanceID(q, larger.value)].seqNum + 1;
          }
          changed := true;
          RowRaised(s0, seqNum', space, seqNum, deps, d0, deps', q);
        }
      }
    }

    /** The loop over the batch for one row. */
    method FindLarger(q: nat, cmds: seq<KvCommand>, d: int) returns (larger: Option<int>)
      requires Shaped() && IndexOk() && q < n
      ensures larger == FirstLarger(conflicts[q], cmds, d)
      ensures larger.Some? ==> larger.value > d && larger.value >= 0 && InstanceID(q, larger.value) in space
    {
      larger := None;
      var i := 0;
      assert cmds[0..] == cmds;
      while i < |cmds|
        invariant 0 <= i <= |cmds|
        invariant FirstLarger(conflicts[q], cmds, d) == FirstLarger(conflicts[q], cmds[i..], d)
      {
        if cmds[i].k in conflicts[q] && conflicts[q][cmds[i].k] > d {
          assert Touches(space, q, conflicts[q][cmds[i].k], cmds[i].k);
          return Some(conflicts[q][cmds[i].k]);
        }
        assert cmds[i..][1..] == cmds[i + 1..];
        i := i + 1;
      }
    }

    // ----- Handlers -----

    lemma Handled(t: Tables, e: Event)
      requires t.Shaped(id, n) && t.IndexOk() && Possible(id, n, e) && Agrees(t, e) && Stepped(id, t, e, View())
      ensures Shaped() && IndexOk() && (t.FrontierOk() ==> (FrontierOk() <==> !Late(t, e)))
    {
      hide Stepped, Agrees, Possible, Late;
      StepIndex(id, t, e, View());
      if t.FrontierOk() {
        StepFrontier(id, t, e, View());
      }
    }

    method Know(q: ReplicaID, i: nat)
      requires q < |crtInstance|
      modifies this`crtInstance
      ensures Knows(old(View()), View(), InstanceID(q, i))
      ensures crtInstance == old(crtInstance)[q := if old(crtInstance)[q] <= i then i + 1 else old(crtInstance)[q]]
    {
      if i >= crtInstance[q] {
        crtInstance := crtInstance[q := i + 1];
      }
    }

    /** A client's batch gets an instance of this replica. */
    method StartPhase1(cmds: seq<KvCommand>) returns (instance: nat, seqNum: int, deps: seq<int>)
      requires Shaped() && IndexOk() && cmds != []
      modifies this
      ensures Shaped() && IndexOk() && (old(FrontierOk()) ==> FrontierOk())
      ensures Stepped(id, old(View()), Propose(cmds), View())
      ensures instance == old(crtInstance)[id] && InstanceID(id, instance) !in old(space)
      ensures space == old(space)[InstanceID(id, instance) := Inst(Some(cmds), PREACCEPTED, seqNum, deps)]
      ensures crtInstance == old(crtInstance)[id := instance + 1]
      ensures |deps| == n && forall q: nat :: q < n ==> deps[q] == NewDep(old(conflicts)[q], cmds, -1)
      ensures LeastSeq(old(space), old(maxSeqPerKey), cmds, 0, seq(n, _ => -1), seqNum, deps)
    {
      hide Raises, LeastSeq, IndexRow, Frontier, NewDep, Raised;
      instance := crtInstance[id];
      ghost var t := View();
      deps := seq(n, _ => -1);
      var changed;
      seqNum, deps, changed := UpdateAttributes(cmds, 0, deps, id);
      crtInstance := crtInstance[id := crtInstance[id] + 1];
      space := space[InstanceID(id, instance) := Inst(Some(cmds), PREACCEPTED, seqNum, deps)];
      UpdateConflicts(cmds, id, instance, seqNum);
      Handled(t, Propose(cmds));
    }

    /** A leader asks this replica to pre-accept. */
    method HandlePreAccept(q: ReplicaID, i: nat, cmds: seq<KvCommand>, seqNum: int, deps: seq<int>)
      returns (reply: Reply)
      requires Shaped() && IndexOk() && q < n && q != id && cmds != [] && |deps| == n
      requires Agrees(View(), PreAccept(InstanceID(q, i), cmds, seqNum))
      modifies this
      ensures Shaped() && IndexOk()
      ensures Stepped(id, old(View()), PreAccept(InstanceID(q, i), cmds, seqNum), View())
      ensures var x := InstanceID(q, i); old(FrontierOk()) ==>
                (FrontierOk() <==> !(i <= old(committedUpTo)[q] && x in old(space) && old(space)[x].status == EXECUTED))
      ensures var x := InstanceID(q, i);
              if x in old(space) && old(space)[x].status in {ACCEPTED, COMMITTED} then reply == Silent
              else Answered(old(View()), View(), x, cmds, seqNum, deps, reply)
      ensures old(FrontierOk()) && reply.PreAcceptOK? ==> AllDone(old(space), deps)
    {
      hide Raises, IndexRow, Frontier, Raised, KeysOf, AllDone, Answered;
      var x := InstanceID(q, i);
      ghost var t, e := View(), PreAccept(x, cmds, seqNum);
      if x in space && (space[x].status == COMMITTED || space[x].status == ACCEPTED) {
        if space[x].cmds.None? {
          space := space[x := space[x].(cmds := Some(cmds))];
          UpdateConflicts(cmds, q, i, seqNum);
        }
        Handled(t, e);
        return Silent;
      }
      reply := PreAcceptHere(q, i, cmds, seqNum, deps);
      if reply.PreAcceptOK? {
        CoveredDone(t, View(), x, cmds, seqNum, deps, reply);
      }
    }

    /** The instance is not further than pre-accepted, or has executed. */
    method PreAcceptHere(q: ReplicaID, i: nat, cmds: seq<KvCommand>, seqNum: int, deps: seq<int>)
      returns (reply: Reply)
      requires Shaped() && IndexOk() && q < n && q != id && cmds != [] && |deps| == n
      requires var x := InstanceID(q, i); x in space ==> space[x].status !in {ACCEPTED, COMMITTED}
      requires Agrees(View(), PreAccept(InstanceID(q, i), cmds, seqNum))
      modifies this
      ensures Shaped() && IndexOk()
      ensures Stepped(id, old(View()), PreAccept(InstanceID(q, i), cmds, seqNum), View())
      ensures old(FrontierOk()) ==> (FrontierOk() <==> !Late(old(View()), PreAccept(InstanceID(q, i), cmds, seqNum)))
      ensures Answered(old(View()), View(), InstanceID(q, i), cmds, seqNum, deps, reply)
    {
      hide Raises, IndexRow, Frontier, NewDep, Raised, LeastSeq, KeysOf, Answered;
      var x := InstanceID(q, i);
      ghost var t, e := View(), PreAccept(x, cmds, seqNum);
      Know(q, i);
      var seqNum', deps', changed := UpdateAttributes(cmds, seqNum, deps, q);
      var uncommittedDeps := Uncommitted(deps');
      space := space[x := Inst(Some(cmds), if changed then PREACCEPTED else PREACCEPTED_EQ, seqNum', deps')];
      UpdateConflicts(cmds, q, i, seqNum);
      Handled(t, e);
      reply := if changed || uncommittedDeps then PreAcceptReply(seqNum', deps', committedUpTo) else PreAcceptOK;
      AnswersWith(t, x, cmds, seqNum, deps, changed, uncommittedDeps, reply);
    }

    lemma AnswersWith(t: Tables, x: InstanceID, cmds: seq<KvCommand>, seqNum: int, deps: seq<int>, changed: bool,
                      uncommitted: bool, reply: Reply)
      requires x in space && |space[x].deps| == |deps| == n == |t.conflicts| == |t.committedUpTo|
      requires space[x].cmds == Some(cmds) && space[x].status == if changed then PREACCEPTED else PREACCEPTED_EQ
      requires forall p: nat :: p < n ==>
                 space[x].deps[p] == if p == x.replica then deps[p] else NewDep(t.conflicts[p], cmds, deps[p])
      requires LeastSeq(t.space, t.maxSeqPerKey, cmds, seqNum, deps, space[x].seqNum, space[x].deps)
      requires changed <==> space[x].seqNum != seqNum || space[x].deps != deps
      requires uncommitted <==> exists p: nat :: p < n && space[x].deps[p] > t.committedUpTo[p]
      requires reply == if changed || uncommitted then PreAcceptReply(space[x].seqNum, space[x].deps, t.committedUpTo)
                        else PreAcceptOK
      ensures Answered(t, View(), x, cmds, seqNum, deps, reply)
    {
      hide NewDep, LeastSeq;
    }

    /** Whether some dependency lies beyond what is committed here. */
    method Uncommitted(deps: seq<int>) returns (r: bool)
      requires |committedUpTo| == n && |deps| == n
      ensures r <==> exists q: nat :: q < n && deps[q] > committedUpTo[q]
    {
      r := false;
      for q := 0 to n
        invariant forall p: nat :: p < q ==> deps[p] <= committedUpTo[p]
      {
        if deps[q] > committedUpTo[q] {
          return true;
        }
      }
    }

    method HandleAccept(q: ReplicaID, i: nat, seqNum: int, deps: seq<int>) returns (ok: bool)
      requires Shaped() && IndexOk() && q < n && q != id && |deps| == n
      modifies this
      ensures Shaped() && IndexOk() && (old(FrontierOk()) ==> FrontierOk())
      ensures Stepped(id, old(View()), Accept(InstanceID(q, i)), View())
      ensures ok <==> !Done(old(space), q, i)
      ensures var x := InstanceID(q, i);
              space == if ok then old(space)[x := Inst(OldCmds(old(space), x), ACCEPTED, seqNum, deps)] else old(space)
    {
      hide IndexRow, Frontier, Raised;
      var x := InstanceID(q, i);
      ghost var t := View();
      if x in space && (space[x].status == COMMITTED || space[x].status == EXECUTED) {
        Handled(t, Accept(x));
        return false;
      }
      Know(q, i);
      if x in space {
        space := space[x := space[x].(status := ACCEPTED, seqNum := seqNum, deps := deps)];
      } else {
        space := space[x := Inst(None, ACCEPTED, seqNum, deps)];
      }
      Handled(t, Accept(x));
      return true;
    }

    /** A commit that carries the commands. */
    method HandleCommit(q: ReplicaID, i: nat, cmds: seq<KvCommand>, seqNum: int, deps: seq<int>)
      requires Shaped() && IndexOk() && q < n && q != id && cmds != [] && |deps| == n
      requires Agrees(View(), Commit(InstanceID(q, i), cmds, seqNum))
      modifies this
      ensures Shaped() && IndexOk() && (old(FrontierOk()) ==> FrontierOk())
      ensures Stepped(id, old(View()), Commit(InstanceID(q, i), cmds, seqNum), View())
      ensures var x := InstanceID(q, i);
              space == old(space)[x := Inst(if x in old(space) then old(space)[x].cmds else Some(cmds), COMMITTED,
                                            seqNum, deps)]
    {
      hide Raises, IndexRow, Frontier, Raised;
      var x := InstanceID(q, i);
      ghost var t := View();
      Know(q, i);
      if x in space {
        space := space[x := space[x].(status := COMMITTED, seqNum := seqNum, deps := deps)];
      } else {
        space := space[x := Inst(Some(cmds), COMMITTED, seqNum, deps)];
        UpdateConflicts(cmds, q, i, seqNum);
      }
      UpdateCommitted(q);
      Handled(t, Commit(x, cmds, seqNum));
    }

    /** A commit without the commands. */
    method HandleCommitShort(q: ReplicaID, i: nat, seqNum: int, deps: seq<int>)
      requires Shaped() && IndexOk() && q < n && q != id && |deps| == n
      modifies this
      ensures Shaped() && IndexOk() && (old(FrontierOk()) ==> FrontierOk())
      ensures Stepped(id, old(View()), CommitShort(InstanceID(q, i)), View())
      ensures var x := InstanceID(q, i); space == old(space)[x := Inst(OldCmds(old(space), x), COMMITTED, seqNum, deps)]
    {
      hide IndexRow, Frontier, Raised;
      var x := InstanceID(q, i);
      ghost var t := View();
      Know(q, i);
      if x in space {
        space := space[x := space[x].(status := COMMITTED, seqNum := seqNum, deps := deps)];
      } else {
        space := space[x := Inst(None, COMMITTED, seqNum, deps)];
      }
      UpdateCommitted(q);
      Handled(t, CommitShort(x));
    }

    /**
     * Replies have come in for an instance of this replica: its attributes are
     * the merged ones, and it stays, is to be accepted, or is committed.
     */
    method DecideOwn(i: nat, merged: Attributes, status: Phase)
      requires Shaped() && IndexOk() && |merged.deps| == n && status in {PREACCEPTED, ACCEPTED, COMMITTED}
      requires InstanceID(id, i) in space
      modifies this
      ensures Shaped() && IndexOk() && (old(FrontierOk()) ==> FrontierOk())
      ensures Stepped(id, old(View()), Decide(i, status), View())
      ensures var x := InstanceID(id, i);
              space == if old(space)[x].status in {PREACCEPTED, ACCEPTED}
                       then old(space)[x := Inst(old(space)[x].cmds, status, merged.seqNum, merged.deps)] else old(space)
    {
      hide IndexRow, Frontier, Raised;
      var x := InstanceID(id, i);
      ghost var t := View();
      if space[x].status != PREACCEPTED && space[x].status != ACCEPTED {
        Handled(t, Decide(i, status));
        return;
      }
      space := space[x := space[x].(status := status, seqNum := merged.seqNum, deps := merged.deps)];
      if status == COMMITTED {
        UpdateCommitted(id);
      }
      Handled(t, Decide(i, status));
    }

    /** The execution thread is done with a committed instance, whose commands it has waited for. */
    method MarkExecuted(q: ReplicaID, i: nat)
      requires Shaped() && IndexOk() && Done(space, q, i) && space[InstanceID(q, i)].cmds.Some? && q < n
      modifies this`space
      ensures Shaped() && IndexOk() && (old(FrontierOk()) ==> FrontierOk())
      ensures Stepped(id, old(View()), Execute(InstanceID(q, i)), View())
      ensures space == old(space)[InstanceID(q, i) := old(space)[InstanceID(q, i)].(status := EXECUTED)]
    {
      hide IndexRow, Frontier, Raised;
      var x := InstanceID(q, i);
      ghost var t := View();
      space := space[x := space[x].(status := EXECUTED)];
      Handled(t, Execute(x));
    }

    /** The leader's loop over the rows of a reply. */
    method MergeAttributes(a: Attributes, b: Attributes) returns (r: Attributes, equal: bool)
      requires |a.deps| == n && |b.deps| == n
      ensures r == Merge(id, a, b)
      ensures equal <==> SameOff(id, a, b)
      ensures |r.deps| == n && a.seqNum <= r.seqNum && b.seqNum <= r.seqNum && (r.seqNum == a.seqNum || r.seqNum == b.seqNum)
      ensures forall q: nat :: q < n ==>
                if q == id then r.deps[q] == a.deps[q]
                else a.deps[q] <= r.deps[q] && b.deps[q] <= r.deps[q] && (r.deps[q] == a.deps[q] || r.deps[q] == b.deps[q])
      ensures equal <==> a.seqNum == b.seqNum && forall q: nat :: q < n && q != id ==> a.deps[q] == b.deps[q]
    {
      equal := a.seqNum == b.seqNum;
      var seqNum, deps := if b.seqNum > a.seqNum then b.seqNum else a.seqNum, a.deps;
      for q := 0 to n
        invariant |deps| == n
        invariant forall p: nat :: p < n ==> deps[p] == if p < q then Merge(id, a, b).deps[p] else a.deps[p]
        invariant equal <==> a.seqNum == b.seqNum && forall p: nat :: p < q && p != id ==> a.deps[p] == b.deps[p]
      {
        if q == id {
          continue;
        }
        if a.deps[q] != b.deps[q] {
          equal := false;
          if b.deps[q] > a.deps[q] {
            deps := deps[q := b.deps[q]];
          }
        }
      }
      r := Attributes(seqNum, deps);
    }
  }

  lemma RowRaised(s0: int, s: int, space: Space, seqNum: int, deps: seq<int>, d0: seq<int>, d: seq<int>, q: nat)
    requires |deps| == |d0| == |d| && q < |deps| && d == d0[q := d[q]] && d0[q] == deps[q] && d[q] > deps[q]
    requires RowsSeq(s0, space, seqNum, deps, d0)
    requires s == Larger(s0, DepSeq(space, q, d[q]) + 1)
    ensures RowsSeq(s, space, seqNum, deps, d)
  {
    forall p: nat | RaisedRow(deps, d, p) ensures DepSeq(space, p, d[p]) < s {
      assert p != q ==> RaisedRow(deps, d0, p);
    }
    if s0 != seqNum && s == s0 {
      var p: nat :| RaisedRow(deps, d0, p) && s0 == DepSeq(space, p, d0[p]) + 1;
      assert RaisedRow(deps, d, p);
    }
    assert RaisedRow(deps, d, q);
  }

  /** Everything that the dependencies cover is committed here. */
  ghost predicate AllDone(space: Space, deps: seq<int>) {
    forall q: nat, j: nat :: q < |deps| && j <= deps[q] ==> Done(space, q, j)
  }

  lemma CoveredDone(t: Tables, t': Tables, x: InstanceID, cmds: seq<KvCommand>, seqNum: int, deps: seq<int>, reply: Reply)
    requires Answered(t, t', x, cmds, seqNum, deps, reply) && reply.PreAcceptOK?
    ensures t.FrontierOk() ==> AllDone(t.space, deps)
  {
    hide NewDep, LeastSeq;
    if t.FrontierOk() {
      assert forall q: nat :: q < |deps| ==> Frontier(t.space, q, t.committedUpTo[q]);
    }
  }

  function Beyond(space: Space, q: ReplicaID, upTo: int): set<InstanceID> {
    set id | id in space && id.replica == q && id.num > upTo
  }

  lemma FewerBeyond(space: Space, q: ReplicaID, upTo: int)
    requires upTo >= -1 && InstanceID(q, upTo + 1) in space
    ensures |Beyond(space, q, upTo + 1)| < |Beyond(space, q, upTo)|
  {
    var id := InstanceID(q, upTo + 1);
    assert Beyond(space, q, upTo) == Beyond(space, q, upTo + 1) + {id};
  }

  lemma RaisedNothing(ix: map<int, int>, v: int)
    ensures Raised(ix, KeysOf([]), v) == ix
  {
  }

  lemma RaisedMore(ix: map<int, int>, cmds: seq<KvCommand>, i: nat, v: int)
    requires i < |cmds|
    ensures var before, after, k := Raised(ix, KeysOf(cmds[..i]), v), Raised(ix, KeysOf(cmds[..i + 1]), v), cmds[i].k;
            after == if k in before && before[k] >= v then before else before[k := v]
  {
    assert cmds[..i + 1] == cmds[..i] + [cmds[i]];
    assert KeysOf(cmds[..i + 1]) == KeysOf(cmds[..i]) + {cmds[i].k};
  }

  /** With one command, the new dependency covers every instance of the row known to touch its key, and no more. */
  lemma OneCommandCovers(space: Space, q: ReplicaID, ix: map<int, int>, c: KvCommand, d: int)
    requires IndexRow(space, q, ix)
    ensures forall i: nat :: Touches(space, q, i, c.k) ==> i <= NewDep(ix, [c], d)
    ensures NewDep(ix, [c], d) == d || (NewDep(ix, [c], d) > d >= -1 ==> Touches(space, q, NewDep(ix, [c], d), c.k))
  {
    OneCommandDep(ix, c, d);
  }

  function Fresh(n: nat): Tables {
    Tables(map[], seq(n, _ => 0), seq(n, _ => -1), seq(n, _ => map[]), map[])
  }

  /**
   * A batch on which the loop stops too early: the third instance touches the
   * keys of the first two, and its dependencies reach only the first.
   */
  method BatchMissesDep() returns (r: Replica, deps: seq<int>)
    ensures fresh(r) && r.Shaped() && r.IndexOk() && |deps| == 3
    ensures Touches(r.space, 0, 1, 2) && Touches(r.space, 0, 2, 2) && r.space[InstanceID(0, 2)].deps == deps
    ensures deps[0] == 0
  {
    hide Raised, IndexRow, FirstLarger, KeysOf, Stepped, NewDep, LeastSeq, Frontier;
    var one, two := KvCommand(PUT, 1, 0), KvCommand(PUT, 2, 0);
    r := new Replica(0, 3);
    var instance, seqNum;
    instance, seqNum, deps := r.StartPhase1([one]);
    instance, seqNum, deps := r.StartPhase1([two]);
    EarlyStop(r.space, r.conflicts[0], one, two);
    instance, seqNum, deps := r.StartPhase1([one, two]);
    assert two in [one, two] && two in [two];
    TouchesKey(r.space, 0, 1, two);
    TouchesKey(r.space, 0, 2, two);
  }

  lemma TouchesKey(space: Space, q: ReplicaID, i: nat, c: KvCommand)
    requires var x := InstanceID(q, i); x in space && space[x].cmds.Some? && c in space[x].cmds.value
    ensures Touches(space, q, i, c.k)
  {
  }

  lemma EarlyStop(space: Space, ix: map<int, int>, one: KvCommand, two: KvCommand)
    requires IndexRow(space, 0, ix) && one.k != two.k
    requires forall x :: x in space ==> x == InstanceID(0, 0) || x == InstanceID(0, 1)
    requires InstanceID(0, 0) in space && space[InstanceID(0, 0)].cmds == Some([one])
    requires InstanceID(0, 1) in space && space[InstanceID(0, 1)].cmds == Some([two])
    ensures NewDep(ix, [one, two], -1) == 0
  {
    assert one in [one];
    assert Touches(space, 0, 0, one.k);
    assert ix[one.k] == 0;
  }
}

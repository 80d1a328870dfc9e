/**
 * The key/value state machine behind the protocol, the benchmark's notion of
 * conflict, and the adapter that turns client operations into commands.
 */
module Store {
  import opened Types
  import opened Graph
  import opened History

  const NIL: int := 0

  type Values = map<int, int>

  predicate Conflict(c: KvCommand, d: KvCommand) {
    c.k == d.k && (c.op == PUT || d.op == PUT)
  }

  /** Whether some command of one batch conflicts with some command of the other. */
  method ConflictBatch(batch1: seq<KvCommand>, batch2: seq<KvCommand>) returns (found: bool)
    ensures found <==> exists i, j :: 0 <= i < |batch1| && 0 <= j < |batch2| && Conflict(batch1[i], batch2[j])
    ensures found <==> exists i, j :: 0 <= i < |batch1| && 0 <= j < |batch2| && batch1[i].k == batch2[j].k
                                      && (batch1[i].op == PUT || batch2[j].op == PUT)
  {
    for i := 0 to |batch1|
      invariant forall p, q :: 0 <= p < i && 0 <= q < |batch2| ==> !Conflict(batch1[p], batch2[q])
    {
      for j := 0 to |batch2|
        invariant forall q :: 0 <= q < j ==> !Conflict(batch1[i], batch2[q])
      {
        if Conflict(batch1[i], batch2[j]) {
          return true;
        }
      }
    }
    return false;
  }

  /** The store after one operation. */
  function After(st: Values, c: KvCommand): Values {
    if c.op == PUT then st[c.k := c.v] else st
  }

  /** What the operation returns to its client. */
  function Answer(st: Values, c: KvCommand): int {
    match c.op
    case PUT => c.v
    case GET => if c.k in st then st[c.k] else NIL
    case _ => NIL
  }

  /** A command without a payload is passed over. */
  function Apply(st: Values, c: Command): Values {
    if c.data.None? then st else After(st, c.data.value)
  }

  /** The store after executing the commands in order, from an empty store. */
  function Replay(cmds: seq<Command>): Values {
    if cmds == [] then map[] else Apply(Replay(cmds[..|cmds| - 1]), cmds[|cmds| - 1])
  }

  /** The answer to command i, if it has a payload. */
  function AnswerAt(cmds: seq<Command>, i: nat): Option<int>
    requires i < |cmds|
  {
    if cmds[i].data.None? then None else Some(Answer(Replay(cmds[..i]), cmds[i].data.value))
  }

  /** The answers delivered so far, each with the id of the request it answers. */
  function Answers(cmds: seq<Command>): seq<(nat, int)> {
    if cmds == [] then []
    else
      var l := |cmds| - 1;
      Answers(cmds[..l]) + match AnswerAt(cmds, l) case None => [] case Some(v) => [(cmds[l].id, v)]
  }

  lemma OneMoreAnswer(cmds: seq<Command>, c: Command)
    ensures Replay(cmds + [c]) == if c.data.None? then Replay(cmds) else After(Replay(cmds), c.data.value)
    ensures Answers(cmds + [c]) ==
            Answers(cmds) + if c.data.None? then [] else [(c.id, Answer(Replay(cmds), c.data.value))]
  {
    var more := cmds + [c];
    assert more[..|more| - 1] == cmds && more[|more| - 1] == c;
  }

  // ----- What decides the value of a key -----

  predicate Puts(c: Command, k: int) {
    c.data.Some? && c.data.value.op == PUT && c.data.value.k == k
  }

  /** Command w is the last among the first n that puts key k. */
  predicate LastPut(cmds: seq<Command>, n: nat, k: int, w: nat)
    requires n <= |cmds|
  {
    w < n && Puts(cmds[w], k) && forall i :: w < i < n ==> !Puts(cmds[i], k)
  }

  predicate NoPut(cmds: seq<Command>, n: nat, k: int)
    requires n <= |cmds|
  {
    forall i :: 0 <= i < n ==> !Puts(cmds[i], k)
  }

  lemma {:induction false} ReplayLast(cmds: seq<Command>, n: nat, k: int, w: nat)
    requires n <= |cmds| && LastPut(cmds, n, k, w)
    ensures k in Replay(cmds[..n]) && Replay(cmds[..n])[k] == cmds[w].data.value.v
  {
    assert cmds[..n][..n - 1] == cmds[..n - 1];
    if w < n - 1 {
      ReplayLast(cmds, n - 1, k, w);
    }
  }

  lemma {:induction false} ReplayNone(cmds: seq<Command>, n: nat, k: int)
    requires n <= |cmds| && NoPut(cmds, n, k)
    ensures k !in Replay(cmds[..n])
  {
    if n > 0 {
      assert cmds[..n][..n - 1] == cmds[..n - 1];
      ReplayNone(cmds, n - 1, k);
    }
  }

  lemma {:induction false} FindLastPut(cmds: seq<Command>, n: nat, k: int) returns (w: nat)
    requires n <= |cmds|
    ensures LastPut(cmds, n, k, w) || NoPut(cmds, n, k)
  {
    w := 0;
    if n > 0 {
      if Puts(cmds[n - 1], k) {
        w := n - 1;
      } else {
        w := FindLastPut(cmds, n - 1, k);
      }
    }
  }

  /** st holds for each key the value put last, and nothing for a key never put. */
  ghost predicate Holds(cmds: seq<Command>, st: Values) {
    && (forall k :: k !in st ==> NoPut(cmds, |cmds|, k))
    && (forall k :: k in st ==> exists w: nat :: LastPut(cmds, |cmds|, k, w) && cmds[w].data.value.v == st[k])
  }

  lemma ReplayHolds(cmds: seq<Command>)
    ensures Holds(cmds, Replay(cmds))
  {
    assert cmds[..|cmds|] == cmds;
    forall k
      ensures k !in Replay(cmds) ==> NoPut(cmds, |cmds|, k)
      ensures k in Replay(cmds) ==> exists w: nat :: LastPut(cmds, |cmds|, k, w) && cmds[w].data.value.v == Replay(cmds)[k]
    {
      var w := FindLastPut(cmds, |cmds|, k);
      if LastPut(cmds, |cmds|, k, w) {
        ReplayLast(cmds, |cmds|, k, w);
      } else {
        ReplayNone(cmds, |cmds|, k);
      }
    }
  }

  /**
   * What command i has to answer: a put its own value, a get the value put last
   * on its key among the commands before it, and 0 if there is none.
   */
  ghost predicate IsAnswer(cmds: seq<Command>, i: nat, v: int)
    requires i < |cmds| && cmds[i].data.Some?
  {
    var c := cmds[i].data.value;
    if c.op == PUT then v == c.v
    else if c.op == GET then
      || (exists w: nat :: LastPut(cmds, i, c.k, w) && v == cmds[w].data.value.v)
      || (NoPut(cmds, i, c.k) && v == 0)
    else v == 0
  }

  lemma AnswerExact(cmds: seq<Command>, i: nat, v: int)
    requires i < |cmds| && cmds[i].data.Some?
    ensures AnswerAt(cmds, i) == Some(v) <==> IsAnswer(cmds, i, v)
  {
    var c := cmds[i].data.value;
    var w := FindLastPut(cmds, i, c.k);
    if LastPut(cmds, i, c.k, w) {
      ReplayLast(cmds, i, c.k, w);
      assert forall u: nat :: LastPut(cmds, i, c.k, u) ==> u == w;
    } else {
      ReplayNone(cmds, i, c.k);
    }
  }

  /** How many of the first i commands have a payload. */
  function Payloads(cmds: seq<Command>, i: nat): nat
    requires i <= |cmds|
  {
    if i == 0 then 0 else Payloads(cmds, i - 1) + if cmds[i - 1].data.Some? then 1 else 0
  }

  /** The answer to command i stands where the payloads since command n put it. */
  ghost predicate AnsweredIn(cmds: seq<Command>, n: nat, answers: seq<(nat, int)>, i: nat)
    requires n <= i < |cmds| && cmds[i].data.Some?
  {
    var at := Payloads(cmds, i) - Payloads(cmds, n);
    0 <= at < |answers| && answers[at].0 == cmds[i].id && IsAnswer(cmds, i, answers[at].1)
  }

  /** From command n on, each with a payload is answered, in order, and none else. */
  ghost predicate Answering(cmds: seq<Command>, n: nat, answers: seq<(nat, int)>)
    requires n <= |cmds|
  {
    && Payloads(cmds, n) + |answers| == Payloads(cmds, |cmds|)
    && forall i: nat :: n <= i < |cmds| && cmds[i].data.Some? ==> AnsweredIn(cmds, n, answers, i)
  }

  lemma {:induction false} PayloadsOf(cmds: seq<Command>, more: seq<Command>, i: nat)
    requires i <= |cmds| && cmds <= more
    ensures Payloads(cmds, i) == Payloads(more, i)
  {
    if i > 0 {
      PayloadsOf(cmds, more, i - 1);
    }
  }

  /** Later commands change nothing about an answer. */
  lemma AnswerStays(cmds: seq<Command>, more: seq<Command>, i: nat, v: int)
    requires cmds <= more && i < |cmds| && cmds[i].data.Some? && IsAnswer(cmds, i, v)
    ensures IsAnswer(more, i, v)
  {
    var k := cmds[i].data.value.k;
    assert forall j: nat :: j < i ==> cmds[j] == more[j];
    assert forall w: nat :: LastPut(cmds, i, k, w) ==> LastPut(more, i, k, w);
  }

  lemma StillAnswered(cmds: seq<Command>, n: nat, answers: seq<(nat, int)>, more: seq<Command>, now: seq<(nat, int)>, i: nat)
    requires n <= i < |cmds| && cmds[i].data.Some? && cmds <= more && answers <= now
    requires AnsweredIn(cmds, n, answers, i)
    ensures AnsweredIn(more, n, now, i)
  {
    hide IsAnswer;
    PayloadsOf(cmds, more, n);
    PayloadsOf(cmds, more, i);
    AnswerStays(cmds, more, i, answers[Payloads(cmds, i) - Payloads(cmds, n)].1);
  }

  lemma AnsweringMore(cmds: seq<Command>, n: nat, answers: seq<(nat, int)>, c: Command, v: int)
    requires n <= |cmds| && Answering(cmds, n, answers)
    requires c.data.Some? ==> v == Answer(Replay(cmds), c.data.value)
    ensures Answering(cmds + [c], n, if c.data.Some? then answers + [(c.id, v)] else answers)
  {
    hide IsAnswer, Replay, Answer;
    var more := cmds + [c];
    var now := if c.data.Some? then answers + [(c.id, v)] else answers;
    PayloadsOf(cmds, more, n);
    PayloadsOf(cmds, more, |cmds|);
    if c.data.Some? {
      assert more[..|cmds|] == cmds;
      AnswerExact(more, |cmds|, v);
      assert AnsweredIn(more, n, now, |cmds|);
    }
    forall i: nat | n <= i < |more| && more[i].data.Some? ensures AnsweredIn(more, n, now, i) {
      if i < |cmds| {
        StillAnswered(cmds, n, answers, more, now, i);
      }
    }
  }

  /** The benchmark's store; every replica has one. */
  class State {
    var store: Values

    /** Every command executed so far. */
    ghost var log: seq<Command>

    ghost predicate Valid()
      reads this
    {
      store == Replay(log)
    }

    constructor ()
      ensures Valid() && log == []
    {
      store := map[];
      log := [];
    }

    method Snapshot() returns (copy: Values)
      requires Valid()
      ensures copy == Replay(log)
    {
      copy := store;
    }

    method Execute(c: KvCommand) returns (v: int)
      modifies this`store
      ensures store == After(old(store), c)
      ensures v == Answer(old(store), c)
      ensures store == if c.op == PUT then old(store)[c.k := c.v] else old(store)
      ensures v == if c.op == PUT then c.v else if c.op == GET && c.k in old(store) then old(store)[c.k] else 0
    {
      match c.op {
        case PUT =>
          store := store[c.k := c.v];
          v := c.v;
        case GET =>
          if c.k in store {
            v := store[c.k];
          } else {
            v := NIL;
          }
        case _ =>
          v := NIL;
      }
    }

    /** The adapter's loop over the commands the protocol hands out. */
    method ExecuteAll(cmds: seq<Command>) returns (answers: seq<(nat, int)>)
      requires Valid()
      modifies this
      ensures Valid() && log == old(log) + cmds
      ensures Answers(log) == Answers(old(log)) + answers
      ensures Answering(log, |old(log)|, answers) && Holds(log, store)
    {
      hide Replay, Answers, Answer, After, Answering, Holds;
      answers := [];
      assert log + [] == log;
      NothingAnswered(log);
      for i := 0 to |cmds|
        invariant Valid() && log == old(log) + cmds[..i]
        invariant Answers(log) == Answers(old(log)) + answers
        invariant Answering(log, |old(log)|, answers)
      {
        var c := cmds[i];
        OneMoreAnswer(log, c);
        AnsweringMore(log, |old(log)|, answers, c, if c.data.Some? then Answer(store, c.data.value) else 0);
        assert cmds[..i + 1] == cmds[..i] + [c];
        if c.data.Some? {
          var v := Execute(c.data.value);
          answers := answers + [(c.id, v)];
        }
        log := log + [c];
      }
      assert cmds[..|cmds|] == cmds;
      ReplayHolds(log);
    }
  }

  lemma NothingAnswered(cmds: seq<Command>)
    ensures Answering(cmds, |cmds|, [])
  {
  }

  // ----- Two orders of the same commands -----

  predicate Conflicting(c: Command, d: Command) {
    c.data.Some? && d.data.Some? && Conflict(c.data.value, d.data.value)
  }

  predicate Named(cmd: map<InstanceID, Command>, ids: seq<InstanceID>, cmds: seq<Command>) {
    |cmds| == |ids| && forall i :: 0 <= i < |ids| ==> ids[i] in cmd && cmds[i] == cmd[ids[i]]
  }

  /** Both orders are of the same instances, and conflicting ones stand the same way round. */
  ghost predicate SameConflicts(cmd: map<InstanceID, Command>, ids: seq<InstanceID>, ids': seq<InstanceID>) {
    && NoDup(ids) && NoDup(ids') && Elems(ids) == Elems(ids')
    && (forall a :: a in ids ==> a in cmd)
    && (forall a, b {:trigger Precedes(ids, a, b)} {:trigger Precedes(ids', a, b)} ::
          a in ids && b in ids && a != b && Conflicting(cmd[a], cmd[b])
          ==> (Precedes(ids, a, b) <==> Precedes(ids', a, b)))
  }

  lemma SameConflictsSym(cmd: map<InstanceID, Command>, ids: seq<InstanceID>, ids': seq<InstanceID>)
    requires SameConflicts(cmd, ids, ids')
    ensures SameConflicts(cmd, ids', ids)
  {
    hide Precedes;
    assert forall a :: a in ids' <==> a in Elems(ids');
  }

  /** i is where its instance stands in the other order. */
  lemma Elsewhere(ids: seq<InstanceID>, ids': seq<InstanceID>, i: nat) returns (j: nat)
    requires Elems(ids) == Elems(ids') && i < |ids|
    ensures j < |ids'| && ids'[j] == ids[i]
  {
    assert ids[i] in Elems(ids');
    j :| 0 <= j < |ids'| && ids'[j] == ids[i];
  }

  /** n and m cut the two orders so that the same puts of k come before. */
  ghost predicate SameCut(cmd: map<InstanceID, Command>, ids: seq<InstanceID>, ids': seq<InstanceID>,
                          k: int, n: nat, m: nat)
  {
    && n <= |ids| && m <= |ids'|
    && forall i, j :: 0 <= i < |ids| && 0 <= j < |ids'| && ids[i] == ids'[j] && ids[i] in cmd && Puts(cmd[ids[i]], k)
         ==> (i < n <==> j < m)
  }

  /** The last put of k before the cut is the same one. */
  lemma SamePut(cmd: map<InstanceID, Command>, ids: seq<InstanceID>, ids': seq<InstanceID>,
                cmds: seq<Command>, cmds': seq<Command>, k: int, n: nat, m: nat, w: nat) returns (v: nat)
    requires SameConflicts(cmd, ids, ids') && Named(cmd, ids, cmds) && Named(cmd, ids', cmds')
    requires SameCut(cmd, ids, ids', k, n, m) && LastPut(cmds, n, k, w)
    ensures LastPut(cmds', m, k, v) && ids'[v] == ids[w]
  {
    v := Elsewhere(ids, ids', w);
    forall j | v < j < m ensures !Puts(cmds'[j], k) {
      if Puts(cmds'[j], k) {
        assert ids'[j] in Elems(ids);
        var i :| 0 <= i < |ids| && ids[i] == ids'[j];
        assert i < n;
        assert Precedes(ids', ids[w], ids[i]);
        assert Conflicting(cmd[ids[w]], cmd[ids[i]]);
      }
    }
  }

  lemma SameValue(cmd: map<InstanceID, Command>, ids: seq<InstanceID>, ids': seq<InstanceID>,
                  cmds: seq<Command>, cmds': seq<Command>, k: int, n: nat, m: nat)
    requires SameConflicts(cmd, ids, ids') && Named(cmd, ids, cmds) && Named(cmd, ids', cmds')
    requires SameCut(cmd, ids, ids', k, n, m)
    ensures k in Replay(cmds[..n]) <==> k in Replay(cmds'[..m])
    ensures k in Replay(cmds[..n]) ==> Replay(cmds[..n])[k] == Replay(cmds'[..m])[k]
  {
    var w := FindLastPut(cmds, n, k);
    if LastPut(cmds, n, k, w) {
      var v := SamePut(cmd, ids, ids', cmds, cmds', k, n, m, w);
      ReplayLast(cmds, n, k, w);
      ReplayLast(cmds', m, k, v);
    } else {
      var v := FindLastPut(cmds', m, k);
      if LastPut(cmds', m, k, v) {
        SameConflictsSym(cmd, ids, ids');
        var u := SamePut(cmd, ids', ids, cmds', cmds, k, m, n, v);
        assert false;
      }
      ReplayNone(cmds, n, k);
      ReplayNone(cmds', m, k);
    }
  }

  /** Orders that agree on conflicting pairs end in the same store. */
  lemma SameStore(cmd: map<InstanceID, Command>, ids: seq<InstanceID>, ids': seq<InstanceID>,
                  cmds: seq<Command>, cmds': seq<Command>)
    requires SameConflicts(cmd, ids, ids') && Named(cmd, ids, cmds) && Named(cmd, ids', cmds')
    ensures Replay(cmds) == Replay(cmds')
  {
    hide SameConflicts;
    assert cmds[..|cmds|] == cmds && cmds'[..|cmds'|] == cmds';
    forall k
      ensures k in Replay(cmds) <==> k in Replay(cmds')
      ensures k in Replay(cmds) ==> Replay(cmds)[k] == Replay(cmds')[k]
    {
      SameValue(cmd, ids, ids', cmds, cmds', k, |cmds|, |cmds'|);
    }
  }

  /** And every command gets the same answer in both. */
  lemma SameAnswer(cmd: map<InstanceID, Command>, ids: seq<InstanceID>, ids': seq<InstanceID>,
                   cmds: seq<Command>, cmds': seq<Command>, n: nat, m: nat)
    requires SameConflicts(cmd, ids, ids') && Named(cmd, ids, cmds) && Named(cmd, ids', cmds')
    requires n < |ids| && m < |ids'| && ids[n] == ids'[m]
    ensures AnswerAt(cmds, n) == AnswerAt(cmds', m)
  {
    if cmds[n].data.Some? && cmds[n].data.value.op == GET {
      var k := cmds[n].data.value.k;
      CutAt(cmd, ids, ids', k, n, m);
      SameValue(cmd, ids, ids', cmds, cmds', k, n, m);
    }
  }

  lemma CutAt(cmd: map<InstanceID, Command>, ids: seq<InstanceID>, ids': seq<InstanceID>, k: int, n: nat, m: nat)
    requires SameConflicts(cmd, ids, ids')
    requires n < |ids| && m < |ids'| && ids[n] == ids'[m]
    requires var c := cmd[ids[n]]; c.data.Some? && c.data.value.op == GET && c.data.value.k == k
    ensures SameCut(cmd, ids, ids', k, n, m)
  {
    forall i, j | 0 <= i < |ids| && 0 <= j < |ids'| && ids[i] == ids'[j] && ids[i] in cmd && Puts(cmd[ids[i]], k)
      ensures i < n <==> j < m
    {
      assert Conflicting(cmd[ids[i]], cmd[ids[n]]);
      if i < n {
        assert Precedes(ids, ids[i], ids[n]);
        assert Precedes(ids', ids[i], ids[n]);
      }
      if j < m {
        assert Precedes(ids', ids[i], ids[n]);
        assert Precedes(ids, ids[i], ids[n]);
      }
    }
  }

  // ----- The adapter's commands -----

  /** A client operation as a command: one key, writing only if it is a PUT. */
  function Wrap(id: nat, kv: KvCommand): Command {
    Command(id, Point(kv.k), kv.op == PUT, Some(kv))
  }

  predicate Wrapped(c: Command) {
    c.data.Some? && c == Wrap(c.id, c.data.value)
  }

  /** The protocol's interference coincides with the benchmark's conflicts. */
  lemma WrapPreservesConflict(c: Command, d: Command)
    requires Wrapped(c) && Wrapped(d)
    ensures c.Interferes(d) <==> Conflict(c.data.value, d.data.value)
    ensures c.span.WellFormed()
  {
  }
}

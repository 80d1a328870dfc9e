/**
 * The local scan for the commands a new command must follow: each replica's
 * row newest first, leaving out what newer writes in the row already reach.
 */
module Scan {
  import opened Types
  import opened State

  /** ok is false when the scan dereferences an instance without a command. */
  datatype Found = Found(ok: bool, maxSeq: SeqNum, deps: set<InstanceID>)

  predicate RangesOverlap(group: set<Key>, keys: set<Key>) {
    group * keys != {}
  }

  /** The keys form one unbroken range. */
  predicate Single(group: set<Key>) {
    && group != {}
    && forall a, b, k :: a in group && b in group && a <= k <= b ==> k in group
  }

  /** The rest of a row has been scanned; one more interfering instance counts. */
  function Note(f: Found, seqNum: SeqNum): Found {
    f.(maxSeq := Max(f.maxSeq, seqNum))
  }

  function Depend(f: Found, seqNum: SeqNum, id: InstanceID): Found {
    Found(f.ok, Max(f.maxSeq, seqNum), f.deps + {id})
  }

  /**
   * Instances of row r numbered below n, newest first. group holds the keys of
   * the newer writes that have been made dependencies.
   */
  function ScanRow(insts: Instances, r: ReplicaID, n: nat, cmd: Command, ignored: InstanceID,
                   group: set<Key>): Found
    decreases n
  {
    if n == 0 then Found(true, 0, {})
    else
      var id := InstanceID(r, n - 1);
      if id !in insts || id == ignored then ScanRow(insts, r, n - 1, cmd, ignored, group)
      else if insts[id].cmd.None? then Found(false, 0, {})
      else
        var other, seqNum := insts[id].cmd.value, insts[id].seqNum;
        if !other.Interferes(cmd) then ScanRow(insts, r, n - 1, cmd, ignored, group)
        else if other.writing then
          var grown := group + other.span.Keys();
          if grown == group then Note(ScanRow(insts, r, n - 1, cmd, ignored, group), seqNum)
          else if Single(grown) && cmd.span.Keys() <= grown then Found(true, seqNum, {id})
          else Depend(ScanRow(insts, r, n - 1, cmd, ignored, grown), seqNum, id)
        else if RangesOverlap(group, other.span.Keys()) then
          Note(ScanRow(insts, r, n - 1, cmd, ignored, group), seqNum)
        else Depend(ScanRow(insts, r, n - 1, cmd, ignored, group), seqNum, id)
  }

  /** A known instance that the scan must account for. */
  predicate Relevant(insts: Instances, cmd: Command, ignored: InstanceID, id: InstanceID) {
    && id in insts && id != ignored
    && insts[id].cmd.Some?
    && insts[id].cmd.value.Interferes(cmd)
  }

  /** A dependency in the same row that writes a key of id later than id. */
  predicate NewerWrite(insts: Instances, deps: set<InstanceID>, id: InstanceID, j: InstanceID) {
    && j in deps && j in insts && id in insts
    && j.replica == id.replica && j.num > id.num
    && insts[j].cmd.Some? && insts[id].cmd.Some?
    && insts[j].cmd.value.writing
    && insts[j].cmd.value.Interferes(insts[id].cmd.value)
  }

  /** id is a dependency, or a newer write of its row that must follow it is. */
  ghost predicate Covered(insts: Instances, deps: set<InstanceID>, id: InstanceID) {
    || id in deps
    || exists j :: NewerWrite(insts, deps, id, j)
  }

  ghost predicate WellFormed(insts: Instances) {
    forall id :: id in insts && insts[id].cmd.Some? ==> insts[id].cmd.value.span.WellFormed()
  }

  /** Dependencies are relevant instances, and maxSeq bounds their numbers. */
  lemma {:induction false} ScanRowSound(insts: Instances, r: ReplicaID, n: nat, cmd: Command,
                                        ignored: InstanceID, group: set<Key>)
    ensures var f := ScanRow(insts, r, n, cmd, ignored, group);
            forall d :: d in f.deps ==>
              Relevant(insts, cmd, ignored, d) && d.replica == r && d.num < n && insts[d].seqNum <= f.maxSeq
    decreases n
  {
    if n > 0 {
      var id := InstanceID(r, n - 1);
      ScanRowSound(insts, r, n - 1, cmd, ignored, group);
      if id in insts && insts[id].cmd.Some? {
        ScanRowSound(insts, r, n - 1, cmd, ignored, group + insts[id].cmd.value.span.Keys());
      }
    }
  }

  lemma WriteCovers(insts: Instances, deps: set<InstanceID>, id: InstanceID, w: InstanceID, k: Key)
    requires WellFormed(insts) && id in insts && w in insts && w in deps
    requires insts[id].cmd.Some? && insts[w].cmd.Some? && insts[w].cmd.value.writing
    requires w.replica == id.replica && w.num > id.num
    requires k in insts[id].cmd.value.span.Keys() && k in insts[w].cmd.value.span.Keys()
    ensures Covered(insts, deps, id)
  {
    OverlapsIffSharedKey(insts[w].cmd.value.span, insts[id].cmd.value.span);
    assert NewerWrite(insts, deps, id, w);
  }

  lemma CoveredMono(insts: Instances, deps: set<InstanceID>, more: set<InstanceID>, id: InstanceID)
    requires deps <= more && Covered(insts, deps, id)
    ensures Covered(insts, more, id)
  {
    if id !in deps {
      var j :| NewerWrite(insts, deps, id, j);
      assert NewerWrite(insts, more, id, j);
    }
  }

  /**
   * Pruning is safe: what the scan leaves out shares a key with a newer write
   * it keeps, or with a write above the row position where it started.
   */
  lemma {:induction false} ScanRowCovers(insts: Instances, r: ReplicaID, n: nat, cmd: Command,
                                         ignored: InstanceID, group: set<Key>, i: InstanceID)
    requires WellFormed(insts) && cmd.span.WellFormed()
    requires ScanRow(insts, r, n, cmd, ignored, group).ok
    requires Relevant(insts, cmd, ignored, i) && i.replica == r && i.num < n
    ensures Covered(insts, ScanRow(insts, r, n, cmd, ignored, group).deps, i)
            || RangesOverlap(group, insts[i].cmd.value.span.Keys())
    decreases n
  {
    var id := InstanceID(r, n - 1);
    var keys := insts[i].cmd.value.span.Keys();
    var deps := ScanRow(insts, r, n, cmd, ignored, group).deps;
    if id !in insts || id == ignored {
      ScanRowCovers(insts, r, n - 1, cmd, ignored, group, i);
    } else {
      var other := insts[id].cmd.value;
      var grown := group + other.span.Keys();
      if i == id {
        assert other.span.Contains(other.span.key);
        if other.writing && grown == group {
          assert other.span.key in group * keys;
        }
      } else if !other.Interferes(cmd) || !other.writing || grown == group {
        ScanRowCovers(insts, r, n - 1, cmd, ignored, group, i);
        if !RangesOverlap(group, keys) {
          CoveredMono(insts, ScanRow(insts, r, n - 1, cmd, ignored, group).deps, deps, i);
        }
      } else {
        if !(Single(grown) && cmd.span.Keys() <= grown) {
          ScanRowCovers(insts, r, n - 1, cmd, ignored, grown, i);
        }
        GrownCovers(insts, r, n, cmd, ignored, group, i);
      }
    }
  }

  /** A write that has just been made a dependency covers what its keys hide. */
  lemma GrownCovers(insts: Instances, r: ReplicaID, n: nat, cmd: Command,
                    ignored: InstanceID, group: set<Key>, i: InstanceID)
    requires WellFormed(insts) && cmd.span.WellFormed() && n > 0
    requires Relevant(insts, cmd, ignored, i) && i.replica == r && i.num < n - 1
    requires Relevant(insts, cmd, ignored, InstanceID(r, n - 1))
    requires insts[InstanceID(r, n - 1)].cmd.value.writing
    requires var grown := group + insts[InstanceID(r, n - 1)].cmd.value.span.Keys();
             && grown != group
             && ((Single(grown) && cmd.span.Keys() <= grown)
                 || Covered(insts, ScanRow(insts, r, n - 1, cmd, ignored, grown).deps, i)
                 || RangesOverlap(grown, insts[i].cmd.value.span.Keys()))
    ensures Covered(insts, ScanRow(insts, r, n, cmd, ignored, group).deps, i)
            || RangesOverlap(group, insts[i].cmd.value.span.Keys())
  {
    var id := InstanceID(r, n - 1);
    var keys := insts[i].cmd.value.span.Keys();
    var grown := group + insts[id].cmd.value.span.Keys();
    var deps := ScanRow(insts, r, n, cmd, ignored, group).deps;
    assert id in deps;
    if Single(grown) && cmd.span.Keys() <= grown {
      OverlapsIffSharedKey(insts[i].cmd.value.span, cmd.span);
      var k :| k in keys && k in cmd.span.Keys();
      assert k in grown * keys;
    }
    if RangesOverlap(grown, keys) {
      var k :| k in grown * keys;
      if k in group {
        assert k in group * keys;
      } else {
        WriteCovers(insts, deps, i, id, k);
      }
    } else {
      CoveredMono(insts, ScanRow(insts, r, n - 1, cmd, ignored, grown).deps, deps, i);
    }
  }

  /** The largest number of a set, or 0. */
  ghost function MaxOf(s: set<nat>): (m: nat)
    ensures forall x :: x in s ==> x <= m
    ensures if s == {} then m == 0 else m in s
  {
    if s == {} then 0
    else
      var x :| x in s;
      assert s == (s - {x}) + {x};
      Max(x, MaxOf(s - {x}))
  }

  /** The highest instance number in row r, or 0. */
  ghost function MaxNum(insts: Instances, r: ReplicaID): (m: nat)
    ensures forall id :: id in insts && id.replica == r ==> id.num <= m
    ensures m == 0 || InstanceID(r, m) in insts
  {
    var nums := set id | id in insts && id.replica == r :: id.num;
    assert forall id :: id in insts && id.replica == r ==> id.num in nums;
    assert forall k :: k in nums ==> InstanceID(r, k) in insts;
    MaxOf(nums)
  }

  function Merge(a: Found, b: Found): Found {
    Found(a.ok && b.ok, Max(a.maxSeq, b.maxSeq), a.deps + b.deps)
  }

  /** Largest interfering sequence number and dependencies over the given rows. */
  ghost function SeqAndDeps(insts: Instances, rows: seq<ReplicaID>, cmd: Command, ignored: InstanceID): Found
  {
    if rows == [] then Found(true, 0, {})
    else
      var last := rows[|rows| - 1];
      Merge(SeqAndDeps(insts, rows[..|rows| - 1], cmd, ignored),
            ScanRow(insts, last, MaxNum(insts, last) + 1, cmd, ignored, {}))
  }

  lemma NoRows(insts: Instances, cmd: Command, ignored: InstanceID)
    ensures SeqAndDeps(insts, [], cmd, ignored) == Found(true, 0, {})
  {
  }

  lemma OneMoreRow(insts: Instances, rows: seq<ReplicaID>, cmd: Command, ignored: InstanceID, k: nat)
    requires k < |rows|
    ensures SeqAndDeps(insts, rows[..k + 1], cmd, ignored) ==
            Merge(SeqAndDeps(insts, rows[..k], cmd, ignored),
                  ScanRow(insts, rows[k], MaxNum(insts, rows[k]) + 1, cmd, ignored, {}))
  {
    assert rows[..k + 1][..k] == rows[..k];
  }

  ghost function RowFound(insts: Instances, r: ReplicaID, cmd: Command, ignored: InstanceID): Found {
    ScanRow(insts, r, MaxNum(insts, r) + 1, cmd, ignored, {})
  }

  /** What the rows give together, whatever their order. */
  ghost predicate Gathers(insts: Instances, rows: seq<ReplicaID>, cmd: Command, ignored: InstanceID, f: Found) {
    && (f.ok <==> forall r :: r in rows ==> RowFound(insts, r, cmd, ignored).ok)
    && (forall d :: d in f.deps <==> exists r :: r in rows && d in RowFound(insts, r, cmd, ignored).deps)
    && (forall r :: r in rows ==> RowFound(insts, r, cmd, ignored).maxSeq <= f.maxSeq)
    && (f.maxSeq == 0 || exists r :: r in rows && RowFound(insts, r, cmd, ignored).maxSeq == f.maxSeq)
  }

  lemma {:induction false} RowsGather(insts: Instances, rows: seq<ReplicaID>, cmd: Command, ignored: InstanceID)
    ensures Gathers(insts, rows, cmd, ignored, SeqAndDeps(insts, rows, cmd, ignored))
  {
    hide Gathers, RowFound, ScanRow;
    if rows == [] {
      NoRowsGather(insts, cmd, ignored);
    } else {
      var l := |rows| - 1;
      RowsGather(insts, rows[..l], cmd, ignored);
      GatherMore(insts, rows[..l], rows[l], cmd, ignored, SeqAndDeps(insts, rows[..l], cmd, ignored));
      RowIs(insts, rows[l], cmd, ignored);
      assert rows == rows[..l] + [rows[l]];
    }
  }

  lemma RowIs(insts: Instances, r: ReplicaID, cmd: Command, ignored: InstanceID)
    ensures RowFound(insts, r, cmd, ignored) == ScanRow(insts, r, MaxNum(insts, r) + 1, cmd, ignored, {})
  {
  }

  lemma NoRowsGather(insts: Instances, cmd: Command, ignored: InstanceID)
    ensures Gathers(insts, [], cmd, ignored, Found(true, 0, {}))
  {
  }

  lemma GatherMore(insts: Instances, rows: seq<ReplicaID>, r: ReplicaID, cmd: Command, ignored: InstanceID, f: Found)
    requires Gathers(insts, rows, cmd, ignored, f)
    ensures Gathers(insts, rows + [r], cmd, ignored, Merge(f, RowFound(insts, r, cmd, ignored)))
  {
    hide RowFound;
    assert forall x :: x in rows + [r] <==> x in rows || x == r;
  }

  /** The rows may be scanned in any order. */
  lemma RowOrder(insts: Instances, a: seq<ReplicaID>, b: seq<ReplicaID>, cmd: Command, ignored: InstanceID)
    requires forall r :: r in a <==> r in b
    ensures SeqAndDeps(insts, a, cmd, ignored) == SeqAndDeps(insts, b, cmd, ignored)
  {
    hide SeqAndDeps, RowFound;
    RowsGather(insts, a, cmd, ignored);
    RowsGather(insts, b, cmd, ignored);
    var f, g := SeqAndDeps(insts, a, cmd, ignored), SeqAndDeps(insts, b, cmd, ignored);
    assert forall d :: d in f.deps <==> d in g.deps;
    assert f.deps == g.deps;
  }

  /** A scan that meets no instance without a command succeeds. */
  lemma {:induction false} ScanRowOk(insts: Instances, r: ReplicaID, n: nat, cmd: Command,
                                     ignored: InstanceID, group: set<Key>)
    requires forall id :: id in insts && id != ignored ==> insts[id].cmd.Some?
    ensures ScanRow(insts, r, n, cmd, ignored, group).ok
    decreases n
  {
    if n > 0 {
      var id := InstanceID(r, n - 1);
      ScanRowOk(insts, r, n - 1, cmd, ignored, group);
      if id in insts && insts[id].cmd.Some? {
        ScanRowOk(insts, r, n - 1, cmd, ignored, group + insts[id].cmd.value.span.Keys());
      }
    }
  }

  lemma {:induction false} SeqAndDepsOk(insts: Instances, rows: seq<ReplicaID>, cmd: Command, ignored: InstanceID)
    requires forall id :: id in insts && id != ignored ==> insts[id].cmd.Some?
    ensures SeqAndDeps(insts, rows, cmd, ignored).ok
  {
    if rows != [] {
      var last := rows[|rows| - 1];
      SeqAndDepsOk(insts, rows[..|rows| - 1], cmd, ignored);
      ScanRowOk(insts, last, MaxNum(insts, last) + 1, cmd, ignored, {});
    }
  }

  /** The scan does not look at the instance it is to ignore. */
  lemma {:induction false} ScanRowIgnores(insts: Instances, r: ReplicaID, n: nat, cmd: Command,
                                          id: InstanceID, inst: Instance, group: set<Key>)
    ensures ScanRow(insts[id := inst], r, n, cmd, id, group) == ScanRow(insts, r, n, cmd, id, group)
    decreases n
  {
    if n > 0 {
      var at := InstanceID(r, n - 1);
      ScanRowIgnores(insts, r, n - 1, cmd, id, inst, group);
      if at in insts && insts[at].cmd.Some? {
        ScanRowIgnores(insts, r, n - 1, cmd, id, inst, group + insts[at].cmd.value.span.Keys());
      }
    }
  }

  lemma {:induction false} SeqAndDepsIgnores(insts: Instances, rows: seq<ReplicaID>, cmd: Command,
                                             id: InstanceID, inst: Instance)
    requires id in insts
    ensures SeqAndDeps(insts[id := inst], rows, cmd, id) == SeqAndDeps(insts, rows, cmd, id)
  {
    if rows != [] {
      var last := rows[|rows| - 1];
      SeqAndDepsIgnores(insts, rows[..|rows| - 1], cmd, id, inst);
      var m := MaxNum(insts, last);
      assert MaxNum(insts[id := inst], last) == m by {
        assert insts[id := inst].Keys == insts.Keys;
        assert InstanceID(last, m) in insts ==> m <= MaxNum(insts[id := inst], last);
        var k := MaxNum(insts[id := inst], last);
        assert InstanceID(last, k) in insts ==> k <= m;
      }
      ScanRowIgnores(insts, last, m + 1, cmd, id, inst, {});
    }
  }

  /** Only interfering instances become dependencies; maxSeq is at least theirs. */
  lemma {:induction false} SeqAndDepsSound(insts: Instances, rows: seq<ReplicaID>, cmd: Command,
                                           ignored: InstanceID, d: InstanceID)
    requires d in SeqAndDeps(insts, rows, cmd, ignored).deps
    ensures Relevant(insts, cmd, ignored, d) && d.replica in rows
    ensures insts[d].seqNum <= SeqAndDeps(insts, rows, cmd, ignored).maxSeq
  {
    var last := rows[|rows| - 1];
    ScanRowSound(insts, last, MaxNum(insts, last) + 1, cmd, ignored, {});
    if d in SeqAndDeps(insts, rows[..|rows| - 1], cmd, ignored).deps {
      SeqAndDepsSound(insts, rows[..|rows| - 1], cmd, ignored, d);
    }
  }

  /** Every known interfering instance is a dependency or hidden by a newer one. */
  lemma {:induction false} SeqAndDepsCovers(insts: Instances, rows: seq<ReplicaID>, cmd: Command,
                                            ignored: InstanceID, i: InstanceID)
    requires WellFormed(insts) && cmd.span.WellFormed()
    requires SeqAndDeps(insts, rows, cmd, ignored).ok
    requires Relevant(insts, cmd, ignored, i) && i.replica in rows
    ensures Covered(insts, SeqAndDeps(insts, rows, cmd, ignored).deps, i)
  {
    hide ScanRow, Covered;
    var n := |rows| - 1;
    var row := ScanRow(insts, rows[n], MaxNum(insts, rows[n]) + 1, cmd, ignored, {});
    var others := SeqAndDeps(insts, rows[..n], cmd, ignored);
    if i.replica == rows[n] {
      ScanRowCovers(insts, rows[n], MaxNum(insts, rows[n]) + 1, cmd, ignored, {}, i);
      CoveredMono(insts, row.deps, row.deps + others.deps, i);
    } else {
      assert i.replica in rows[..n];
      SeqAndDepsCovers(insts, rows[..n], cmd, ignored, i);
      CoveredMono(insts, others.deps, row.deps + others.deps, i);
    }
    assert row.deps + others.deps == SeqAndDeps(insts, rows, cmd, ignored).deps;
  }

  /** Every known command names a single key. */
  ghost predicate SingleKeys(insts: Instances) {
    forall id :: id in insts && insts[id].cmd.Some? ==> insts[id].cmd.value.span.Point?
  }

  /** A newer interfering write between i and position n of the row. */
  ghost predicate WrittenAfter(insts: Instances, cmd: Command, ignored: InstanceID, i: InstanceID, n: nat) {
    exists j :: Relevant(insts, cmd, ignored, j) && j.replica == i.replica && i.num < j.num < n
                && insts[j].cmd.value.writing
  }

  /**
   * With single-key commands the scan keeps exactly the interfering instances
   * that no newer interfering write in their row follows.
   */
  lemma {:induction false} ScanRowExact(insts: Instances, r: ReplicaID, n: nat, cmd: Command,
                                        ignored: InstanceID, i: InstanceID)
    requires SingleKeys(insts) && cmd.span.Point?
    requires ScanRow(insts, r, n, cmd, ignored, {}).ok
    ensures i in ScanRow(insts, r, n, cmd, ignored, {}).deps <==>
            Relevant(insts, cmd, ignored, i) && i.replica == r && i.num < n
            && !WrittenAfter(insts, cmd, ignored, i, n)
    decreases n
  {
    if n > 0 {
      var id := InstanceID(r, n - 1);
      if Relevant(insts, cmd, ignored, id) && insts[id].cmd.value.writing {
        var keys := insts[id].cmd.value.span.Keys();
        assert cmd.span.Keys() == keys == {cmd.span.key} by {
          assert cmd.span.Contains(cmd.span.key);
        }
        assert {} + keys == keys && Single(keys);
      } else {
        ScanRowExact(insts, r, n - 1, cmd, ignored, i);
        if i.replica == r && WrittenAfter(insts, cmd, ignored, i, n) {
          var j :| Relevant(insts, cmd, ignored, j) && j.replica == i.replica && i.num < j.num < n
                   && insts[j].cmd.value.writing;
          assert j != id;
          assert WrittenAfter(insts, cmd, ignored, i, n - 1);
        }
      }
    }
  }

  // ----- What a scan finds, said without the scan -----

  /** The keys that relevant writes of i's row above i write. */
  ghost function WrittenAbove(insts: Instances, cmd: Command, ignored: InstanceID, i: InstanceID): set<Key> {
    set j, k | j in insts && Relevant(insts, cmd, ignored, j) && j.replica == i.replica && j.num > i.num
               && insts[j].cmd.value.writing && k in insts[j].cmd.value.span.Keys() :: k
  }

  /** A write that adds keys, with which the writes down to it make one range around all of the command's keys. */
  ghost predicate Stops(insts: Instances, cmd: Command, ignored: InstanceID, i: InstanceID) {
    && Relevant(insts, cmd, ignored, i) && insts[i].cmd.value.writing
    && var keys, above := insts[i].cmd.value.span.Keys(), WrittenAbove(insts, cmd, ignored, i);
       !(keys <= above) && Single(above + keys) && cmd.span.Keys() <= above + keys
  }

  /** A relevant instance with no stop above it in its row. */
  ghost predicate Seen(insts: Instances, cmd: Command, ignored: InstanceID, i: InstanceID) {
    && Relevant(insts, cmd, ignored, i)
    && forall j :: Stops(insts, cmd, ignored, j) && j.replica == i.replica ==> j.num <= i.num
  }

  /** A write with a key that no write above it has, or a read with no key that one has. */
  ghost predicate Adds(insts: Instances, cmd: Command, ignored: InstanceID, i: InstanceID) {
    && Relevant(insts, cmd, ignored, i)
    && var keys, above := insts[i].cmd.value.span.Keys(), WrittenAbove(insts, cmd, ignored, i);
       if insts[i].cmd.value.writing then !(keys <= above) else keys * above == {}
  }

  ghost predicate Due(insts: Instances, cmd: Command, ignored: InstanceID, i: InstanceID) {
    Seen(insts, cmd, ignored, i) && Adds(insts, cmd, ignored, i)
  }

  /** f is what is to be found among the instances of the rows below n. */
  ghost predicate Means(insts: Instances, r: ReplicaID, n: nat, cmd: Command, ignored: InstanceID, f: Found) {
    && (forall i :: i in f.deps <==> i.replica == r && i.num < n && Due(insts, cmd, ignored, i))
    && (forall i :: Seen(insts, cmd, ignored, i) && i.replica == r && i.num < n ==> insts[i].seqNum <= f.maxSeq)
    && (f.maxSeq == 0 || exists i :: Seen(insts, cmd, ignored, i) && i.replica == r && i.num < n
                                     && insts[i].seqNum == f.maxSeq)
  }

  lemma {:induction false} ScanRowMeans(insts: Instances, r: ReplicaID, n: nat, cmd: Command,
                                        ignored: InstanceID, group: set<Key>)
    requires ScanRow(insts, r, n, cmd, ignored, group).ok
    requires n > 0 ==> group == WrittenAbove(insts, cmd, ignored, InstanceID(r, n - 1))
    requires forall j :: Stops(insts, cmd, ignored, j) && j.replica == r ==> j.num < n
    ensures Means(insts, r, n, cmd, ignored, ScanRow(insts, r, n, cmd, ignored, group))
    decreases n
  {
    hide Means, Single, WrittenAbove, Seen;
    if n == 0 {
      NothingMeant(insts, r, cmd, ignored);
    } else {
      var id := InstanceID(r, n - 1);
      NextAbove(insts, cmd, ignored, id);
      if !Relevant(insts, cmd, ignored, id) {
        ScanRowMeans(insts, r, n - 1, cmd, ignored, group);
        Skipped(insts, r, n, cmd, ignored, ScanRow(insts, r, n - 1, cmd, ignored, group));
      } else {
        FirstSeen(insts, cmd, ignored, id, n);
        var keys, seqNum := insts[id].cmd.value.span.Keys(), insts[id].seqNum;
        var next := if insts[id].cmd.value.writing then group + keys else group;
        if Stops(insts, cmd, ignored, id) {
          Stopped(insts, r, n, cmd, ignored);
        } else {
          assert next == group || insts[id].cmd.value.writing;
          assert n > 1 ==> next == WrittenAbove(insts, cmd, ignored, InstanceID(r, n - 2));
          ScanRowMeans(insts, r, n - 1, cmd, ignored, next);
          var f := ScanRow(insts, r, n - 1, cmd, ignored, next);
          if Adds(insts, cmd, ignored, id) {
            Depended(insts, r, n, cmd, ignored, f);
          } else {
            Noted(insts, r, n, cmd, ignored, f);
          }
        }
      }
    }
  }

  lemma NothingMeant(insts: Instances, r: ReplicaID, cmd: Command, ignored: InstanceID)
    ensures Means(insts, r, 0, cmd, ignored, Found(true, 0, {}))
  {
  }

  lemma FirstSeen(insts: Instances, cmd: Command, ignored: InstanceID, id: InstanceID, n: nat)
    requires Relevant(insts, cmd, ignored, id) && id.num == n - 1
    requires forall j :: Stops(insts, cmd, ignored, j) && j.replica == id.replica ==> j.num < n
    ensures Seen(insts, cmd, ignored, id)
  {
  }

  lemma Skipped(insts: Instances, r: ReplicaID, n: nat, cmd: Command, ignored: InstanceID, f: Found)
    requires n > 0 && !Relevant(insts, cmd, ignored, InstanceID(r, n - 1)) && Means(insts, r, n - 1, cmd, ignored, f)
    ensures Means(insts, r, n, cmd, ignored, f)
  {
    hide Stops, Relevant;
    OneLess(r, n);
  }

  lemma Noted(insts: Instances, r: ReplicaID, n: nat, cmd: Command, ignored: InstanceID, f: Found)
    requires n > 0 && InstanceID(r, n - 1) in insts && Seen(insts, cmd, ignored, InstanceID(r, n - 1))
    requires !Adds(insts, cmd, ignored, InstanceID(r, n - 1)) && Means(insts, r, n - 1, cmd, ignored, f)
    ensures Means(insts, r, n, cmd, ignored, Note(f, insts[InstanceID(r, n - 1)].seqNum))
  {
    hide Stops, Relevant, Adds;
    OneLess(r, n);
  }

  lemma Depended(insts: Instances, r: ReplicaID, n: nat, cmd: Command, ignored: InstanceID, f: Found)
    requires n > 0 && InstanceID(r, n - 1) in insts && Seen(insts, cmd, ignored, InstanceID(r, n - 1))
    requires Adds(insts, cmd, ignored, InstanceID(r, n - 1)) && Means(insts, r, n - 1, cmd, ignored, f)
    ensures Means(insts, r, n, cmd, ignored, Depend(f, insts[InstanceID(r, n - 1)].seqNum, InstanceID(r, n - 1)))
  {
    hide Stops, Relevant, Adds;
    OneLess(r, n);
  }

  lemma Stopped(insts: Instances, r: ReplicaID, n: nat, cmd: Command, ignored: InstanceID)
    requires n > 0 && InstanceID(r, n - 1) in insts && Seen(insts, cmd, ignored, InstanceID(r, n - 1))
    requires Stops(insts, cmd, ignored, InstanceID(r, n - 1))
    ensures Means(insts, r, n, cmd, ignored,
                  Found(true, insts[InstanceID(r, n - 1)].seqNum, {InstanceID(r, n - 1)}))
  {
    hide WrittenAbove, Single;
    OneLess(r, n);
  }

  lemma OneLess(r: ReplicaID, n: nat)
    requires n > 0
    ensures forall i: InstanceID :: i.replica == r && i.num < n <==>
              i == InstanceID(r, n - 1) || (i.replica == r && i.num < n - 1)
  {
  }

  /** One position further down. */
  lemma NextAbove(insts: Instances, cmd: Command, ignored: InstanceID, id: InstanceID)
    ensures id.num > 0 ==>
              WrittenAbove(insts, cmd, ignored, InstanceID(id.replica, id.num - 1)) ==
              WrittenAbove(insts, cmd, ignored, id)
              + if Relevant(insts, cmd, ignored, id) && insts[id].cmd.value.writing
                then insts[id].cmd.value.span.Keys() else {}
  {
  }

  /**
   * With any spans: the scan depends on exactly the seen instances that add to
   * the writes above them, and its number is the largest of all it has seen.
   */
  lemma SeqAndDepsExact(insts: Instances, rows: seq<ReplicaID>, cmd: Command, ignored: InstanceID)
    requires SeqAndDeps(insts, rows, cmd, ignored).ok
    ensures var f := SeqAndDeps(insts, rows, cmd, ignored);
            && (forall i :: i in f.deps <==> Due(insts, cmd, ignored, i) && i.replica in rows)
            && (forall i :: Seen(insts, cmd, ignored, i) && i.replica in rows ==> insts[i].seqNum <= f.maxSeq)
            && (f.maxSeq == 0 || exists i :: Seen(insts, cmd, ignored, i) && i.replica in rows
                                             && insts[i].seqNum == f.maxSeq)
  {
    hide SeqAndDeps, RowFound, Seen, Adds, Relevant;
    var f := SeqAndDeps(insts, rows, cmd, ignored);
    RowsGather(insts, rows, cmd, ignored);
    forall r | r in rows ensures RowMeans(insts, r, cmd, ignored, RowFound(insts, r, cmd, ignored)) {
      RowExact(insts, r, cmd, ignored);
    }
    if f.maxSeq != 0 {
      var r :| r in rows && RowFound(insts, r, cmd, ignored).maxSeq == f.maxSeq;
    }
  }

  /** The same for one row. */
  ghost predicate RowMeans(insts: Instances, r: ReplicaID, cmd: Command, ignored: InstanceID, f: Found) {
    && (forall i :: i in f.deps <==> Due(insts, cmd, ignored, i) && i.replica == r)
    && (forall i :: Seen(insts, cmd, ignored, i) && i.replica == r ==> insts[i].seqNum <= f.maxSeq)
    && (f.maxSeq == 0 || exists i :: Seen(insts, cmd, ignored, i) && i.replica == r && insts[i].seqNum == f.maxSeq)
  }

  lemma RowExact(insts: Instances, r: ReplicaID, cmd: Command, ignored: InstanceID)
    requires RowFound(insts, r, cmd, ignored).ok
    ensures RowMeans(insts, r, cmd, ignored, RowFound(insts, r, cmd, ignored))
  {
    hide ScanRow;
    var n := MaxNum(insts, r) + 1;
    assert WrittenAbove(insts, cmd, ignored, InstanceID(r, n - 1)) == {};
    ScanRowMeans(insts, r, n, cmd, ignored, {});
  }
}

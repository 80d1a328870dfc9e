/**
 * The append thread of the etcd adapter: group commit, the mirror in memory,
 * compaction, and responses that wait until their batch is durable.
 */
module Appending {
  import opened Types
  import opened Wal

  datatype Response = Response(to: nat, id: nat)

  /** A storage-append message; its three numbers make up a hard state. */
  datatype AppendMsg = AppendMsg(hard: HardState, entries: seq<Entry>, responses: seq<Response>)

  const APPEND_BATCH_MAX: nat := 64

  function ItemOf(m: AppendMsg): Item {
    Item(Some(m.hard), m.entries)
  }

  function ItemsOf(ms: seq<AppendMsg>): (r: seq<Item>)
    ensures |r| == |ms| && forall i :: 0 <= i < |ms| ==> r[i] == ItemOf(ms[i])
  {
    seq(|ms|, i requires 0 <= i < |ms| => ItemOf(ms[i]))
  }

  /** The bytes that a sequence of messages leaves in the log. */
  function Logged(c: Codec, ms: seq<AppendMsg>): seq<byte> {
    Bytes(c, Records(ItemsOf(ms)))
  }

  lemma LoggedJoin(c: Codec, a: seq<AppendMsg>, b: seq<AppendMsg>)
    ensures Logged(c, a + b) == Logged(c, a) + Logged(c, b)
    ensures Records(ItemsOf(a + b)) == Records(ItemsOf(a)) + Records(ItemsOf(b))
  {
    assert ItemsOf(a + b) == ItemsOf(a) + ItemsOf(b);
    RecordsJoin(ItemsOf(a), ItemsOf(b));
    BatchesJoin(c, ItemsOf(a), ItemsOf(b));
  }

  function Responses(ms: seq<AppendMsg>): seq<Response> {
    if ms == [] then [] else Responses(ms[..|ms| - 1]) + ms[|ms| - 1].responses
  }

  lemma {:induction false} ResponsesJoin(a: seq<AppendMsg>, b: seq<AppendMsg>)
    ensures Responses(a + b) == Responses(a) + Responses(b)
  {
    if b == [] {
      assert a + b == a;
    } else {
      var l := |b| - 1;
      ResponsesJoin(a, b[..l]);
      assert (a + b)[..|a + b| - 1] == a + b[..l] && (a + b)[|a + b| - 1] == b[l];
      Associative(Responses(a), Responses(b[..l]), b[l].responses);
    }
  }

  /** How many responses the first i messages carry. */
  function Lengths(ms: seq<AppendMsg>, i: nat): nat
    requires i <= |ms|
  {
    if i == 0 then 0 else Lengths(ms, i - 1) + |ms[i - 1].responses|
  }

  predicate StandsAt(rs: seq<Response>, at: nat, r: Response) {
    at < |rs| && rs[at] == r
  }

  /** now goes on from was with every response of every message, each in its place. */
  ghost predicate Placed(was: seq<Response>, now: seq<Response>, ms: seq<AppendMsg>) {
    && |now| == |was| + Lengths(ms, |ms|)
    && (forall k: nat :: k < |was| ==> now[k] == was[k])
    && forall i: nat, k: nat :: i < |ms| && k < |ms[i].responses| ==>
         StandsAt(now, |was| + Lengths(ms, i) + k, ms[i].responses[k])
  }

  lemma {:induction false} LengthsOf(a: seq<AppendMsg>, b: seq<AppendMsg>, i: nat)
    requires i <= |a| && a <= b
    ensures Lengths(a, i) == Lengths(b, i)
  {
    if i > 0 {
      LengthsOf(a, b, i - 1);
    }
  }

  lemma {:induction false} ResponsesPlaced(was: seq<Response>, ms: seq<AppendMsg>)
    ensures Placed(was, was + Responses(ms), ms)
  {
    if ms != [] {
      var l := |ms| - 1;
      var older, now := was + Responses(ms[..l]), was + Responses(ms);
      ResponsesPlaced(was, ms[..l]);
      LengthsOf(ms[..l], ms, l);
      assert now == older + ms[l].responses;
      forall i: nat, k: nat | i < |ms| && k < |ms[i].responses|
        ensures StandsAt(now, |was| + Lengths(ms, i) + k, ms[i].responses[k])
      {
        if i < l {
          LengthsOf(ms[..l], ms, i);
          assert ms[..l][i] == ms[i];
          assert StandsAt(older, |was| + Lengths(ms[..l], i) + k, ms[..l][i].responses[k]);
        } else {
          assert now[|older| + k] == ms[l].responses[k];
        }
      }
    }
  }

  /** All the responses that the messages carry, each as often as it is carried. */
  function Carried(ms: seq<AppendMsg>): multiset<Response> {
    if ms == [] then multiset{} else Carried(ms[..|ms| - 1]) + multiset(ms[|ms| - 1].responses)
  }

  lemma {:induction false} ResponsesCarried(ms: seq<AppendMsg>)
    ensures multiset(Responses(ms)) == Carried(ms)
  {
    if ms != [] {
      ResponsesCarried(ms[..|ms| - 1]);
    }
  }

  predicate Awaited(ms: seq<AppendMsg>) {
    exists m :: m in ms && m.responses != []
  }

  lemma AwaitedExact(ms: seq<AppendMsg>)
    ensures Awaited(ms) <==> exists i :: 0 <= i < |ms| && ms[i].responses != []
  {
    if Awaited(ms) {
      var m :| m in ms && m.responses != [];
    }
  }

  /** The index of the last entry that the batch appends, or 0. */
  function LastAppended(ms: seq<AppendMsg>): nat {
    if ms == [] then 0
    else
      var m := ms[|ms| - 1];
      if m.entries != [] then m.entries[|m.entries| - 1].index else LastAppended(ms[..|ms| - 1])
  }

  /** Message i is the last with entries, and the index of the last of them is last. */
  predicate EndsAt(ms: seq<AppendMsg>, i: int, last: nat) {
    && 0 <= i < |ms| && ms[i].entries != [] && ms[i].entries[|ms[i].entries| - 1].index == last
    && forall j :: i < j < |ms| ==> ms[j].entries == []
  }

  lemma {:induction false} LastAppendedExact(ms: seq<AppendMsg>)
    ensures (exists i :: EndsAt(ms, i, LastAppended(ms)))
            || (LastAppended(ms) == 0 && forall i :: 0 <= i < |ms| ==> ms[i].entries == [])
  {
    if ms != [] {
      var l := |ms| - 1;
      LastAppendedExact(ms[..l]);
      if ms[l].entries != [] {
        assert EndsAt(ms, l, LastAppended(ms));
      } else if i :| EndsAt(ms[..l], i, LastAppended(ms[..l])) {
        assert ms[..l][i] == ms[i];
        assert EndsAt(ms, i, LastAppended(ms));
      } else {
        assert forall i :: 0 <= i < l ==> ms[..l][i] == ms[i];
      }
    }
  }

  /** How far the log is compacted after a batch. */
  function NextCompact(last: nat, applied: nat, trailing: nat, appended: nat): nat {
    if applied > trailing + 1 && last < applied - trailing <= appended then applied - trailing else last
  }

  /** Storage without the first n entries. */
  function Compacted(full: Storage, n: nat): Storage
    requires n <= |full.log|
  {
    Storage(n + 1, full.log[n..], full.hard)
  }

  /** Raft never goes back to an index that is compacted, and leaves no gap. */
  predicate Follows(full: Storage, floor: nat, es: seq<Entry>) {
    es != [] ==> Contiguous(es) && floor < es[0].index <= |full.log| + 1
  }

  predicate AllFollow(full: Storage, floor: nat, ms: seq<AppendMsg>)
    decreases |ms|
  {
    ms != [] ==>
      && Follows(full, floor, ms[0].entries)
      && (match ApplyItem(full, ItemOf(ms[0]))
          case Failed => false
          case Loaded(next) => AllFollow(next, floor, ms[1..]))
  }

  lemma {:induction false} FollowJoin(full: Storage, a: seq<AppendMsg>, mid: Storage, floor: nat, b: seq<AppendMsg>)
    requires AllFollow(full, 0, a) && ApplyItems(full, ItemsOf(a)) == Loaded(mid) && AllFollow(mid, floor, b)
    ensures AllFollow(full, 0, a + b)
    decreases |a| + |b|
  {
    hide ApplyItem;
    if a != [] {
      assert ItemsOf(a)[1..] == ItemsOf(a[1..]) && (a + b)[1..] == a[1..] + b;
      FollowJoin(ApplyItem(full, ItemOf(a[0])).st, a[1..], mid, floor, b);
    } else if b != [] {
      assert a + b == b && ItemsOf([]) == [];
      var next := ApplyItem(mid, ItemOf(b[0])).st;
      FollowJoin(next, [], next, floor, b[1..]);
      assert [] + b[1..] == b[1..];
    }
  }

  /**
   * Raft goes back in its log only with a change of term or after one, before
   * anything is appended in the new term: a leader never takes back what it has
   * sent. A change of term is in the hard state that comes with the entries or
   * before them. The log ends at last, free says that nothing has been appended
   * since the term changed.
   */
  predicate Orderly(last: nat, term: nat, free: bool, ms: seq<AppendMsg>)
    decreases |ms|
  {
    ms != [] ==>
      var m := ms[0];
      var now := free || (m.hard != EMPTY_STATE && m.hard.term != term);
      && (m.entries != [] ==> now || m.entries[0].index == last + 1)
      && Orderly(if m.entries == [] then last else m.entries[|m.entries| - 1].index,
                 if m.hard == EMPTY_STATE then term else m.hard.term,
                 now && m.entries == [], ms[1..])
  }

  /** Then entries between hard states go on where those before left off. */
  lemma {:induction false} OrderlyRuns(full: Storage, term: nat, free: bool, pending: seq<Entry>, ms: seq<AppendMsg>)
    requires full.first == 1 && AllFollow(full, 0, ms) && Orderly(|full.log|, term, free, ms)
    requires Contiguous(pending) && (free ==> pending == [])
    requires pending != [] ==> pending[|pending| - 1].index == |full.log|
    ensures RunsContiguous(pending, ItemsOf(ms)) && AllIndexed(ItemsOf(ms))
    decreases |ms|
  {
    hide ApplyItem, Append, Contiguous, Indexed;
    if ms != [] {
      var m := ms[0];
      assert ItemsOf(ms)[1..] == ItemsOf(ms[1..]) && ItemsOf(ms)[0] == ItemOf(m);
      var next := ApplyItem(full, ItemOf(m)).st;
      var before := if HasState(ItemOf(m)) then [] else pending;
      OneApplied(full, m);
      Extended(before, m.entries, |full.log|);
      OrderlyRuns(next, if m.hard == EMPTY_STATE then term else m.hard.term,
                  (free || (m.hard != EMPTY_STATE && m.hard.term != term)) && m.entries == [], before + m.entries, ms[1..]);
      forall it | it in ItemsOf(ms) ensures Indexed(it.entries) {
        assert it == ItemsOf(ms)[0] || it in ItemsOf(ms)[1..];
      }
    }
  }

  lemma OneApplied(full: Storage, m: AppendMsg)
    requires full.first == 1 && Follows(full, 0, m.entries) && ApplyItem(full, ItemOf(m)).Loaded?
    ensures var next := ApplyItem(full, ItemOf(m)).st;
            next.first == 1 && |next.log| == if m.entries == [] then |full.log| else m.entries[|m.entries| - 1].index
    ensures Indexed(m.entries) && Contiguous(m.entries)
  {
    AppendCompacted(full, 0, m.entries);
  }

  lemma Extended(a: seq<Entry>, b: seq<Entry>, last: nat)
    requires Contiguous(a) && Contiguous(b) && (a != [] ==> a[|a| - 1].index == last)
    requires a != [] && b != [] ==> b[0].index == last + 1
    ensures Contiguous(a + b)
  {
  }

  function AfterMessage(full: Storage, m: AppendMsg): Storage
    requires Append(full, m.entries).Some?
  {
    var grown := Append(full, m.entries).value;
    if m.hard != EMPTY_STATE then grown.(hard := m.hard) else grown
  }

  /** Appending commutes with compaction. */
  lemma AppendCompacted(full: Storage, n: nat, es: seq<Entry>)
    requires full.first == 1 && n <= |full.log| && Follows(full, n, es)
    ensures Append(full, es).Some? && Append(full, es).value.first == 1
    ensures n <= |Append(full, es).value.log|
    ensures Append(Compacted(full, n), es) == Some(Compacted(Append(full, es).value, n))
    ensures es != [] ==> |Append(full, es).value.log| == es[|es| - 1].index
  {
    if es != [] {
      var at := es[0].index - 1;
      assert full.log[n..][..at - n] + es == (full.log[..at] + es)[n..];
    }
  }

  /** What happens, in order. */
  datatype Event = Disk(access: Access) | Stored(m: AppendMsg) | Released(r: Response)

  function OnDisk(accesses: seq<Access>): (r: seq<Event>)
    ensures |r| == |accesses| && forall i :: 0 <= i < |accesses| ==> r[i] == Disk(accesses[i])
  {
    seq(|accesses|, i requires 0 <= i < |accesses| => Disk(accesses[i]))
  }

  function StoredAll(ms: seq<AppendMsg>): (r: seq<Event>)
    ensures |r| == |ms| && forall i :: 0 <= i < |ms| ==> r[i] == Stored(ms[i])
  {
    seq(|ms|, i requires 0 <= i < |ms| => Stored(ms[i]))
  }

  function ReleasedAll(rs: seq<Response>): (r: seq<Event>)
    ensures |r| == |rs| && forall i :: 0 <= i < |rs| ==> r[i] == Released(rs[i])
  {
    seq(|rs|, i requires 0 <= i < |rs| => Released(rs[i]))
  }

  function WriteEvents(ms: seq<AppendMsg>): seq<Event> {
    OnDisk(BatchAccesses(ItemsOf(ms), Awaited(ms)))
  }

  /** One batch: write, force if anyone waits, mirror, and only then release. */
  function BatchEvents(ms: seq<AppendMsg>): seq<Event> {
    WriteEvents(ms) + StoredAll(ms) + ReleasedAll(Responses(ms))
  }

  // ----- Runs of the thread -----

  function Messages(batches: seq<seq<AppendMsg>>): seq<AppendMsg> {
    if batches == [] then [] else Messages(batches[..|batches| - 1]) + batches[|batches| - 1]
  }

  function RunEvents(batches: seq<seq<AppendMsg>>): seq<Event> {
    if batches == [] then [] else RunEvents(batches[..|batches| - 1]) + BatchEvents(batches[|batches| - 1])
  }

  /** Writing the batch forces the file to disk. */
  predicate Forces(ms: seq<AppendMsg>) {
    Awaited(ms) && Records(ItemsOf(ms)) != []
  }

  /** How many batches had been processed when the file was forced last. */
  function ForcedUpTo(batches: seq<seq<AppendMsg>>): (n: nat)
    ensures n <= |batches|
  {
    if batches == [] then 0
    else if Forces(batches[|batches| - 1]) then |batches|
    else ForcedUpTo(batches[..|batches| - 1])
  }

  /** The compaction index after the batches, applied holding the applied index seen with each. */
  function CompactAfter(batches: seq<seq<AppendMsg>>, applied: seq<nat>, trailing: nat): nat
    requires |applied| == |batches|
    decreases |batches|
  {
    if batches == [] then 0
    else
      var l := |batches| - 1;
      NextCompact(CompactAfter(batches[..l], applied[..l], trailing), applied[l], trailing, LastAppended(batches[l]))
  }

  class AppendThread {
    const log: Log
    const trailing: nat
    var storage: Storage
    var lastCompact: nat
    var released: seq<Response>

    ghost var batches: seq<seq<AppendMsg>>
    ghost var applieds: seq<nat>
    ghost var processed: seq<AppendMsg>
    ghost var full: Storage
    ghost var trace: seq<Event>

    /** The state is that of the batches processed and the applied indices seen with them. */
    ghost predicate Valid()
      reads this, log
    {
      && log.Valid() && Mirrored()
      && processed == Messages(batches) && |applieds| == |batches|
      && log.durable == |Logged(log.codec, Messages(batches[..ForcedUpTo(batches)]))|
      && lastCompact == CompactAfter(batches, applieds, trailing)
      && trace == RunEvents(batches)
    }

    /** File, mirror and responses are those of the messages processed. */
    ghost predicate Mirrored()
      reads this, log
    {
      && log.file == Logged(log.codec, processed)
      && ApplyItems(FRESH, ItemsOf(processed)) == Loaded(full) && AllFollow(FRESH, 0, processed)
      && full.first == 1 && lastCompact <= |full.log|
      && storage == Compacted(full, lastCompact)
      && released == Responses(processed)
    }

    constructor (codec: Codec, trailing: nat)
      ensures Valid() && fresh(log) && log.codec == codec && this.trailing == trailing
      ensures batches == [] && applieds == []
    {
      log := new Log(codec, []);
      this.trailing := trailing;
      storage, lastCompact, released := FRESH, 0, [];
      batches, applieds, processed, full, trace := [], [], [], FRESH, [];
    }

    /** The items of a batch that have anything to write, and whether anyone waits. */
    method Items(batch: seq<AppendMsg>) returns (items: seq<Item>, sync: bool, lastAppended: nat)
      ensures Records(items) == Records(ItemsOf(batch))
      ensures sync == Awaited(batch) && lastAppended == LastAppended(batch)
      ensures sync <==> exists i :: 0 <= i < |batch| && batch[i].responses != []
      ensures (exists i :: EndsAt(batch, i, lastAppended))
              || (lastAppended == 0 && forall i :: 0 <= i < |batch| ==> batch[i].entries == [])
    {
      hide Records, ItemsOf, Awaited, LastAppended, EndsAt;
      LastAppendedExact(batch);
      AwaitedExact(batch);
      items, sync, lastAppended := [], false, 0;
      NothingYet(batch);
      for i := 0 to |batch|
        invariant Records(items) == Records(ItemsOf(batch[..i]))
        invariant sync == Awaited(batch[..i]) && lastAppended == LastAppended(batch[..i])
      {
        var m := batch[i];
        BatchGrows(batch, i, items);
        if m.hard != EMPTY_STATE || |m.entries| > 0 {
          items := items + [ItemOf(m)];
        }
        if |m.responses| > 0 {
          sync := true;
        }
        if |m.entries| > 0 {
          lastAppended := m.entries[|m.entries| - 1].index;
        }
      }
    }

    /** One message's entries and hard state go to memory storage. */
    method Store(m: AppendMsg)
      requires full.first == 1 && lastCompact <= |full.log| && storage == Compacted(full, lastCompact)
      requires Follows(full, lastCompact, m.entries) && Append(full, m.entries).Some?
      modifies this`storage, this`full, this`trace
      ensures full == AfterMessage(old(full), m) && full.first == 1
      ensures lastCompact <= |full.log| && storage == Compacted(full, lastCompact)
      ensures m.entries != [] ==> |full.log| == m.entries[|m.entries| - 1].index
      ensures m.entries == [] ==> |full.log| == |old(full).log|
      ensures trace == old(trace) + [Stored(m)]
    {
      AppendCompacted(full, lastCompact, m.entries);
      storage := Append(storage, m.entries).value;
      full := Append(full, m.entries).value;
      if m.hard != EMPTY_STATE {
        storage := storage.(hard := m.hard);
        full := full.(hard := m.hard);
      }
      trace := trace + [Stored(m)];
    }

    /** The batch's entries and hard states go to memory storage. */
    method Mirror(batch: seq<AppendMsg>)
      requires full.first == 1 && lastCompact <= |full.log| && storage == Compacted(full, lastCompact)
      requires AllFollow(full, lastCompact, batch)
      modifies this`storage, this`full, this`trace
      ensures full.first == 1 && lastCompact <= |full.log| && storage == Compacted(full, lastCompact)
      ensures ApplyItems(old(full), ItemsOf(batch)) == Loaded(full)
      ensures LastAppended(batch) > 0 ==> LastAppended(batch) <= |full.log|
      ensures trace == old(trace) + StoredAll(batch)
    {
      hide AllFollow, ApplyItems, Append, LastAppended, ItemsOf, StoredAll, Follows, AfterMessage, Compacted;
      assert trace + [] == trace;
      MirrorEnds(full, lastCompact, batch);
      for i := 0 to |batch|
        invariant full.first == 1 && lastCompact <= |full.log| && storage == Compacted(full, lastCompact)
        invariant AllFollow(full, lastCompact, batch[i..])
        invariant ApplyItems(old(full), ItemsOf(batch)) == ApplyItems(full, ItemsOf(batch[i..]))
        invariant LastAppended(batch[..i]) > 0 ==> LastAppended(batch[..i]) <= |full.log|
        invariant trace == old(trace) + StoredAll(batch[..i])
      {
        MirrorStep(full, lastCompact, batch, i);
        Store(batch[i]);
      }
      MirrorEnds(full, lastCompact, batch);
    }

    /** The batch's items go to the file in one write, forced if anyone waits. */
    method Write(batch: seq<AppendMsg>) returns (lastAppended: nat)
      requires log.Valid()
      modifies this`trace, log
      ensures log.Valid() && log.file == old(log.file) + Bytes(log.codec, Records(ItemsOf(batch)))
      ensures log.durable == if Forces(batch) then |log.file| else old(log.durable)
      ensures trace == old(trace) + WriteEvents(batch) && lastAppended == LastAppended(batch)
    {
      hide Records, ItemsOf, LastAppended, Bytes, WriteEvents, Awaited, BatchAccesses, OnDisk;
      ghost var before := log.accesses;
      var items, sync;
      items, sync, lastAppended := Items(batch);
      log.AppendBatch(items, sync);
      SameAccesses(items, batch, before, log.accesses);
      trace := trace + OnDisk(log.accesses[|before|..]);
    }

    /** One batch from the channel. */
    method ProcessBatch(batch: seq<AppendMsg>, applied: nat)
      requires Valid() && 0 < |batch| <= APPEND_BATCH_MAX
      requires AllFollow(full, lastCompact, batch)
      modifies this, log
      ensures Valid() && batches == old(batches) + [batch] && applieds == old(applieds) + [applied]
      ensures processed == old(processed) + batch
      ensures Placed(old(released), released, batch)
      ensures Awaited(batch) ==>
                (log.durable == |log.file| <==> Records(ItemsOf(batch)) != [] || old(log.durable == |log.file|))
    {
      hide Logged, Records, ItemsOf, LastAppended, AllFollow, ApplyItems, Responses, BatchEvents, Bytes,
        NextCompact, StoredAll, ReleasedAll, WriteEvents, Awaited, Messages, RunEvents, ForcedUpTo, CompactAfter,
        BatchAccesses, OnDisk, Compacted, Placed;
      ghost var done := processed;
      var lastAppended := Write(batch);
      Mirror(batch);
      Compact(applied, lastAppended);
      Release(batch);
      processed := done + batch;
      batches, applieds := batches + [batch], applieds + [applied];
      BatchDone(log.codec, done, batch, old(full));
      FollowJoin(FRESH, done, old(full), old(lastCompact), batch);
      SomeBytes(log.codec, Records(ItemsOf(batch)));
      RunGrows(log.codec, old(batches), batch, old(applieds), applied, trailing);
      assert old(log.file) + [] == old(log.file);
      assert log.file == Logged(log.codec, processed) && processed == Messages(batches);
      assert log.durable == |Logged(log.codec, Messages(batches[..ForcedUpTo(batches)]))|;
      assert trace == RunEvents(batches);
      assert Mirrored();
    }

    /** Compacts below the applied index, keeping the trailing entries. */
    method Compact(applied: nat, lastAppended: nat)
      requires full.first == 1 && lastCompact <= |full.log| && storage == Compacted(full, lastCompact)
      requires lastAppended > 0 ==> lastAppended <= |full.log|
      modifies this`storage, this`lastCompact
      ensures lastCompact <= |full.log| && storage == Compacted(full, lastCompact)
      ensures lastCompact == NextCompact(old(lastCompact), applied, trailing, lastAppended)
    {
      if applied > trailing + 1 {
        var to := applied - trailing;
        if lastCompact < to <= lastAppended {
          assert storage.log[to + 1 - storage.first..] == full.log[to..];
          storage := Storage(to + 1, storage.log[to + 1 - storage.first..], storage.hard);
          lastCompact := to;
        }
      }
    }

    /** The responses of the batch, in order. */
    method Release(batch: seq<AppendMsg>)
      modifies this`released, this`trace
      ensures released == old(released) + Responses(batch)
      ensures Placed(old(released), released, batch)
      ensures trace == old(trace) + ReleasedAll(Responses(batch))
    {
      hide ReleasedAll, Placed;
      ResponsesPlaced(released, batch);
      assert released + [] == released && trace + [] == trace;
      for i := 0 to |batch|
        invariant released == old(released) + Responses(batch[..i])
        invariant trace == old(trace) + ReleasedAll(Responses(batch[..i]))
      {
        assert batch[..i + 1][..i] == batch[..i];
        var rs := batch[i].responses;
        released := released + rs;
        trace := trace + ReleasedAll(rs);
        assert ReleasedAll(Responses(batch[..i])) + ReleasedAll(rs) == ReleasedAll(Responses(batch[..i + 1]));
      }
      assert batch[..|batch|] == batch;
    }
  }

  lemma SameAccesses(items: seq<Item>, batch: seq<AppendMsg>, before: seq<Access>, after: seq<Access>)
    requires Records(items) == Records(ItemsOf(batch)) && after == before + BatchAccesses(items, Awaited(batch))
    ensures OnDisk(after[|before|..]) == WriteEvents(batch)
  {
    assert after[|before|..] == BatchAccesses(items, Awaited(batch));
  }

  /** One more batch in the history of the thread. */
  lemma RunGrows(c: Codec, bs: seq<seq<AppendMsg>>, batch: seq<AppendMsg>, applieds: seq<nat>, applied: nat, trailing: nat)
    requires |applieds| == |bs|
    ensures var more := bs + [batch];
            && Messages(more) == Messages(bs) + batch
            && RunEvents(more) == RunEvents(bs) + BatchEvents(batch)
            && ForcedUpTo(more) == (if Forces(batch) then |more| else ForcedUpTo(bs))
            && more[..ForcedUpTo(more)] == (if Forces(batch) then more else bs[..ForcedUpTo(bs)])
            && CompactAfter(more, applieds + [applied], trailing) ==
                 NextCompact(CompactAfter(bs, applieds, trailing), applied, trailing, LastAppended(batch))
  {
    var more := bs + [batch];
    assert more[..|bs|] == bs && (applieds + [applied])[..|bs|] == applieds;
  }

  /** Processing a batch after others, put together. */
  lemma BatchDone(c: Codec, done: seq<AppendMsg>, batch: seq<AppendMsg>, mid: Storage)
    requires ApplyItems(FRESH, ItemsOf(done)) == Loaded(mid)
    ensures Logged(c, done + batch) == Logged(c, done) + Bytes(c, Records(ItemsOf(batch)))
    ensures ApplyItems(FRESH, ItemsOf(done + batch)) == ApplyItems(mid, ItemsOf(batch))
    ensures Responses(done + batch) == Responses(done) + Responses(batch)
    ensures BatchEvents(batch) == WriteEvents(batch) + StoredAll(batch) + ReleasedAll(Responses(batch))
  {
    hide Records, ApplyItems, Bytes, ItemOf;
    LoggedJoin(c, done, batch);
    ApplyJoin(FRESH, ItemsOf(done), ItemsOf(batch));
    assert ItemsOf(done + batch) == ItemsOf(done) + ItemsOf(batch);
    ResponsesJoin(done, batch);
  }

  lemma NothingYet(batch: seq<AppendMsg>)
    ensures Records([]) == Records(ItemsOf(batch[..0]))
    ensures !Awaited(batch[..0]) && LastAppended(batch[..0]) == 0 && batch[..|batch|] == batch
  {
  }

  lemma BatchGrows(batch: seq<AppendMsg>, i: nat, items: seq<Item>)
    requires i < |batch| && Records(items) == Records(ItemsOf(batch[..i]))
    ensures var m, more := batch[i], batch[..i + 1];
            && more[..i] == batch[..i] && more[i] == m
            && (Awaited(more) <==> Awaited(batch[..i]) || m.responses != [])
            && LastAppended(more) ==
                 (if m.entries != [] then m.entries[|m.entries| - 1].index else LastAppended(batch[..i]))
            && Records(ItemsOf(more)) ==
                 Records(if m.hard != EMPTY_STATE || |m.entries| > 0 then items + [ItemOf(m)] else items)
  {
    var m, more := batch[i], batch[..i + 1];
    assert more == batch[..i] + [m];
    assert ItemsOf(more) == ItemsOf(batch[..i]) + [ItemOf(m)];
    RecordsJoin(ItemsOf(batch[..i]), [ItemOf(m)]);
    RecordsJoin(items, [ItemOf(m)]);
    assert Records([ItemOf(m)]) == ItemRecords(ItemOf(m)) + [];
    if m.hard == EMPTY_STATE && |m.entries| == 0 {
      assert ItemRecords(ItemOf(m)) == [];
      assert Records(items) + [] == Records(items);
    }
    assert Awaited(more) <==> Awaited(batch[..i]) || m.responses != [] by {
      assert forall x :: x in more <==> x in batch[..i] || x == m;
    }
  }

  lemma MirrorEnds(full: Storage, n: nat, batch: seq<AppendMsg>)
    ensures batch[0..] == batch && batch[..|batch|] == batch && batch[..0] == []
    ensures LastAppended([]) == 0 && StoredAll([]) == []
    ensures ApplyItems(full, ItemsOf(batch[|batch|..])) == Loaded(full)
  {
  }

  lemma MirrorStep(full: Storage, n: nat, batch: seq<AppendMsg>, i: nat)
    requires i < |batch| && full.first == 1 && n <= |full.log|
    requires AllFollow(full, n, batch[i..])
    ensures Follows(full, n, batch[i].entries) && Append(full, batch[i].entries).Some?
    ensures StoredAll(batch[..i]) + [Stored(batch[i])] == StoredAll(batch[..i + 1])
    ensures var next := AfterMessage(full, batch[i]);
            && AllFollow(next, n, batch[i + 1..])
            && ApplyItems(full, ItemsOf(batch[i..])) == ApplyItems(next, ItemsOf(batch[i + 1..]))
    ensures LastAppended(batch[..i + 1]) ==
            if batch[i].entries != [] then batch[i].entries[|batch[i].entries| - 1].index else LastAppended(batch[..i])
  {
    assert batch[i..][0] == batch[i] && batch[i..][1..] == batch[i + 1..];
    assert ItemsOf(batch[i..])[1..] == ItemsOf(batch[i + 1..]);
    assert batch[..i + 1][..i] == batch[..i];
  }

  lemma {:induction false} ApplyJoin(st: Storage, a: seq<Item>, b: seq<Item>)
    ensures ApplyItems(st, a + b) ==
            if ApplyItems(st, a).Failed? then Failed else ApplyItems(ApplyItems(st, a).st, b)
    decreases |a|
  {
    if a == [] {
      assert a + b == b;
    } else {
      assert (a + b)[1..] == a[1..] + b;
      if ApplyItem(st, a[0]).Loaded? {
        ApplyJoin(ApplyItem(st, a[0]).st, a[1..], b);
      }
    }
  }

  // ----- Over whole runs -----

  /** However the messages fall into batches, the file is the same. */
  lemma BatchingIsInvisible(c: Codec, a: seq<seq<AppendMsg>>, b: seq<seq<AppendMsg>>)
    requires Messages(a) == Messages(b)
    ensures LoggedBatches(c, a) == LoggedBatches(c, b) == Logged(c, Messages(a))
  {
    LoggedInBatches(c, a);
    LoggedInBatches(c, b);
  }

  /** The file that the batches leave, one write after the other. */
  function LoggedBatches(c: Codec, batches: seq<seq<AppendMsg>>): seq<byte> {
    if batches == [] then []
    else LoggedBatches(c, batches[..|batches| - 1]) + Logged(c, batches[|batches| - 1])
  }

  lemma {:induction false} LoggedInBatches(c: Codec, batches: seq<seq<AppendMsg>>)
    ensures LoggedBatches(c, batches) == Logged(c, Messages(batches))
  {
    if batches != [] {
      var l := |batches| - 1;
      LoggedInBatches(c, batches[..l]);
      LoggedJoin(c, Messages(batches[..l]), batches[l]);
    }
  }

  // ----- What has been forced to disk -----

  /** Some of what the batch wrote may be lost in a crash after all of the batches. */
  ghost predicate Unforced(c: Codec, bs: seq<seq<AppendMsg>>, j: nat)
    requires j < |bs|
  {
    && Records(ItemsOf(bs[j])) != []
    && |Logged(c, Messages(bs[..ForcedUpTo(bs)]))| < |Logged(c, Messages(bs[..j + 1]))|
  }

  /**
   * After any batches, what a batch wrote is in the file but not known to be on
   * disk if and only if nobody waited for it, nor for a later batch that wrote.
   */
  lemma UnforcedExact(c: Codec, bs: seq<seq<AppendMsg>>, j: nat)
    requires j < |bs| && Records(ItemsOf(bs[j])) != []
    ensures Unforced(c, bs, j) <==> forall k :: j <= k < |bs| ==> !Forces(bs[k])
  {
    hide Forces, Logged, Messages, Records;
    var n := ForcedUpTo(bs);
    ForcedFacts(bs);
    if n <= j {
      LoggedGrows(c, bs, n, j);
      LoggedMore(c, bs, j);
    } else {
      assert Forces(bs[n - 1]);
      LoggedGrows(c, bs, j + 1, n);
    }
  }

  lemma {:induction false} ForcedFacts(bs: seq<seq<AppendMsg>>)
    ensures forall k :: ForcedUpTo(bs) <= k < |bs| ==> !Forces(bs[k])
    ensures ForcedUpTo(bs) > 0 ==> Forces(bs[ForcedUpTo(bs) - 1])
  {
    if bs != [] && !Forces(bs[|bs| - 1]) {
      ForcedFacts(bs[..|bs| - 1]);
    }
  }

  lemma LoggedMore(c: Codec, bs: seq<seq<AppendMsg>>, j: nat)
    requires j < |bs|
    ensures |Logged(c, Messages(bs[..j + 1]))| == |Logged(c, Messages(bs[..j]))| + |Logged(c, bs[j])|
    ensures Logged(c, bs[j]) == [] <==> Records(ItemsOf(bs[j])) == []
  {
    hide Logged;
    assert bs[..j + 1][..j] == bs[..j];
    LoggedJoin(c, Messages(bs[..j]), bs[j]);
    assert Logged(c, bs[j]) == Bytes(c, Records(ItemsOf(bs[j]))) by { LoggedIs(c, bs[j]); }
    SomeBytes(c, Records(ItemsOf(bs[j])));
  }

  lemma LoggedIs(c: Codec, ms: seq<AppendMsg>)
    ensures Logged(c, ms) == Bytes(c, Records(ItemsOf(ms)))
  {
  }

  lemma {:induction false} LoggedGrows(c: Codec, bs: seq<seq<AppendMsg>>, i: nat, j: nat)
    requires i <= j <= |bs|
    ensures |Logged(c, Messages(bs[..i]))| <= |Logged(c, Messages(bs[..j]))|
    decreases j - i
  {
    hide Logged, Messages;
    if i < j {
      LoggedGrows(c, bs, i, j - 1);
      LoggedMore(c, bs, j - 1);
    }
  }

  /**
   * All of a thread's file is on disk if and only if each batch that wrote was
   * waited for, or was followed by one that wrote and was waited for.
   */
  lemma AllForcedExact(t: AppendThread)
    requires t.Valid()
    ensures t.log.durable == |t.log.file| <==> AllAwaited(t.batches)
  {
    hide Logged, Messages, Records, ForcedUpTo, Forces, RunEvents, CompactAfter;
    ForcedOrNot(t.log.codec, t.batches);
  }

  /** Each batch that wrote was waited for, or a later one that wrote was. */
  ghost predicate AllAwaited(bs: seq<seq<AppendMsg>>) {
    forall j: nat :: j < |bs| && Records(ItemsOf(bs[j])) != [] ==> exists k :: j <= k < |bs| && Forces(bs[k])
  }

  lemma ForcedOrNot(c: Codec, bs: seq<seq<AppendMsg>>)
    ensures |Logged(c, Messages(bs[..ForcedUpTo(bs)]))| == |Logged(c, Messages(bs))| <==> AllAwaited(bs)
  {
    hide Logged, Messages, Records, ForcedUpTo, Forces;
    var n := ForcedUpTo(bs);
    assert bs[..|bs|] == bs;
    LoggedGrows(c, bs, n, |bs|);
    if |Logged(c, Messages(bs[..n]))| < |Logged(c, Messages(bs))| {
      var j := Grew(c, bs, n, |bs|);
      UnforcedExact(c, bs, j);
      assert forall k :: j <= k < |bs| ==> !Forces(bs[k]);
    } else {
      forall j: nat | j < |bs| && Records(ItemsOf(bs[j])) != [] ensures exists k :: j <= k < |bs| && Forces(bs[k]) {
        LoggedGrows(c, bs, j + 1, |bs|);
        UnforcedExact(c, bs, j);
      }
    }
  }

  lemma {:induction false} Grew(c: Codec, bs: seq<seq<AppendMsg>>, i: nat, j: nat) returns (k: nat)
    requires i <= j <= |bs| && |Logged(c, Messages(bs[..i]))| < |Logged(c, Messages(bs[..j]))|
    ensures i <= k < j && Records(ItemsOf(bs[k])) != []
    ensures |Logged(c, Messages(bs[..i]))| < |Logged(c, Messages(bs[..k + 1]))|
    decreases j - i
  {
    hide Logged, Messages, Records;
    if i == j {
      assert false;
    }
    LoggedMore(c, bs, j - 1);
    if Records(ItemsOf(bs[j - 1])) == [] {
      k := Grew(c, bs, i, j - 1);
    } else {
      k := j - 1;
    }
  }

  /**
   * A response that leaves while something is in the file and not on disk: a
   * batch that only changes the term and that nobody waits for, then one that
   * only carries a response.
   */
  method EarlyResponse(codec: Codec) returns (t: AppendThread)
    ensures fresh(t) && t.Valid() && t.released == [Response(1, 7)] && t.log.durable < |t.log.file|
  {
    var change := [AppendMsg(HardState(1, 0, 0), [], [])];
    var answer := [AppendMsg(EMPTY_STATE, [], [Response(1, 7)])];
    t := new AppendThread(codec, 0);
    FollowsNothing(t.full, change[0]);
    t.ProcessBatch(change, 0);
    FollowsNothing(t.full, answer[0]);
    t.ProcessBatch(answer, 0);
    TwoBatches(codec, change, answer);
  }

  lemma FollowsNothing(full: Storage, m: AppendMsg)
    requires m.entries == []
    ensures AllFollow(full, 0, [m])
  {
    assert [m][1..] == [];
  }

  lemma TwoBatches(c: Codec, change: seq<AppendMsg>, answer: seq<AppendMsg>)
    requires change == [AppendMsg(HardState(1, 0, 0), [], [])]
    requires answer == [AppendMsg(EMPTY_STATE, [], [Response(1, 7)])]
    ensures ForcedUpTo([] + [change] + [answer]) == 0 && Messages([]) == []
    ensures Logged(c, Messages([] + [change] + [answer])) != [] && Logged(c, []) == []
    ensures Responses(Messages([] + [change] + [answer])) == [Response(1, 7)]
  {
    var bs := [] + [change] + [answer];
    assert Messages(bs) == change + answer by {
      assert bs[..1] == [change] && [change][..0] == [];
      assert Messages([change]) == [] + change;
    }
    hide Messages, Logged;
    NeitherForces(change, answer);
    LoggedJoin(c, change, answer);
    ChangeIsLogged(c, change);
    ResponsesJoin(change, answer);
    assert Responses(change) == [] && Responses(answer) == [Response(1, 7)] by {
      assert change[..0] == [] && answer[..0] == [];
      assert Responses(answer) == [] + answer[0].responses;
    }
  }

  lemma NeitherForces(change: seq<AppendMsg>, answer: seq<AppendMsg>)
    requires change == [AppendMsg(HardState(1, 0, 0), [], [])]
    requires answer == [AppendMsg(EMPTY_STATE, [], [Response(1, 7)])]
    ensures ForcedUpTo([] + [change] + [answer]) == 0
  {
    var bs := [] + [change] + [answer];
    assert bs[..1] == [change] && [change][..0] == [];
    assert ItemsOf(answer)[1..] == [] && ItemRecords(ItemsOf(answer)[0]) == [];
    assert Records(ItemsOf(answer)[1..]) == [] && Records(ItemsOf(answer)) == [] + [];
    assert !Awaited(change) by {
      assert forall m :: m in change ==> m == change[0];
    }
    assert ForcedUpTo([change]) == 0;
  }

  lemma ChangeIsLogged(c: Codec, change: seq<AppendMsg>)
    requires change == [AppendMsg(HardState(1, 0, 0), [], [])]
    ensures Logged(c, change) != [] && Logged(c, []) == []
  {
    assert ItemRecords(ItemsOf(change)[0]) != [];
    SomeBytes(c, Records(ItemsOf(change)));
    assert ItemsOf([]) == [];
  }

  // ----- Every response leaves -----

  /** How many responses the messages of the first b batches carry. */
  function LengthsBefore(bs: seq<seq<AppendMsg>>, b: nat): nat
    requires b <= |bs|
  {
    if b == 0 then 0 else LengthsBefore(bs, b - 1) + Lengths(bs[b - 1], |bs[b - 1]|)
  }

  ghost predicate PlacedAll(rs: seq<Response>, bs: seq<seq<AppendMsg>>) {
    && |rs| == LengthsBefore(bs, |bs|)
    && forall b: nat, i: nat, k: nat :: b < |bs| && i < |bs[b]| && k < |bs[b][i].responses| ==>
         StandsAt(rs, LengthsBefore(bs, b) + Lengths(bs[b], i) + k, bs[b][i].responses[k])
  }

  lemma {:induction false} LengthsBeforeOf(a: seq<seq<AppendMsg>>, bs: seq<seq<AppendMsg>>, b: nat)
    requires b <= |a| && a <= bs
    ensures LengthsBefore(a, b) == LengthsBefore(bs, b)
  {
    if b > 0 {
      LengthsBeforeOf(a, bs, b - 1);
    }
  }

  lemma {:induction false} MessagesPlaced(bs: seq<seq<AppendMsg>>)
    ensures PlacedAll(Responses(Messages(bs)), bs)
  {
    hide Responses, Lengths;
    if bs == [] {
      ResponsesPlaced([], []);
      NoLengths();
    } else {
      var l := |bs| - 1;
      var older, rs := Responses(Messages(bs[..l])), Responses(Messages(bs));
      MessagesPlaced(bs[..l]);
      ResponsesJoin(Messages(bs[..l]), bs[l]);
      ResponsesPlaced(older, bs[l]);
      LengthsBeforeOf(bs[..l], bs, l);
      forall b: nat, i: nat, k: nat | b < |bs| && i < |bs[b]| && k < |bs[b][i].responses|
        ensures StandsAt(rs, LengthsBefore(bs, b) + Lengths(bs[b], i) + k, bs[b][i].responses[k])
      {
        if b < l {
          LengthsBeforeOf(bs[..l], bs, b);
          assert bs[..l][b] == bs[b];
          assert StandsAt(older, LengthsBefore(bs[..l], b) + Lengths(bs[b], i) + k, bs[..l][b][i].responses[k]);
        }
      }
    }
  }

  lemma NoLengths()
    ensures Lengths([], 0) == 0 && Responses([]) == []
  {
  }

  /**
   * At any time of any run, every response of every message of every batch has
   * left, in the order of batches, messages and responses, and nothing else has.
   */
  lemma AllReleased(t: AppendThread)
    requires t.Valid()
    ensures PlacedAll(t.released, t.batches)
    ensures multiset(t.released) == Carried(t.processed)
  {
    hide Responses, Messages, RunEvents, ForcedUpTo, CompactAfter, Logged, ApplyItems, PlacedAll;
    MessagesPlaced(t.batches);
    ResponsesCarried(t.processed);
  }

  // ----- The order of events -----

  /**
   * In one batch a response is released only after the records of every message
   * of the batch are written and forced to disk, and all of them are mirrored.
   */
  lemma BatchReleasesLast(ms: seq<AppendMsg>, i: nat, m: AppendMsg)
    requires i < |BatchEvents(ms)| && BatchEvents(ms)[i].Released? && m in ms
    ensures exists j :: 0 <= j < i && BatchEvents(ms)[j] == Stored(m)
    ensures ItemRecords(ItemOf(m)) != [] ==>
              i > 2 && BatchEvents(ms)[0] == Disk(Wrote(Records(ItemsOf(ms)))) && BatchEvents(ms)[1] == Disk(Synced)
    ensures forall r :: r in ItemRecords(ItemOf(m)) ==> r in Records(ItemsOf(ms))
  {
    var n := |WriteEvents(ms)|;
    var k :| 0 <= k < |ms| && ms[k] == m;
    assert BatchEvents(ms)[n + k] == Stored(m);
    assert i >= n + |ms|;
    assert BatchEvents(ms)[i] == ReleasedAll(Responses(ms))[i - n - |ms|];
    SomeoneWaits(ms);
    RecordInside(ItemsOf(ms), k);
    if ItemRecords(ItemOf(m)) != [] {
      assert ItemRecords(ItemOf(m))[0] in Records(ItemsOf(ms));
      assert n == 2;
    }
  }

  /** Before position i of the trace, m was stored in memory. */
  ghost predicate StoredBefore(trace: seq<Event>, i: nat, m: AppendMsg) {
    exists j :: 0 <= j < i && j < |trace| && trace[j] == Stored(m)
  }

  /** Before position i of the trace, a write that held r was followed by a force. */
  ghost predicate OnDiskBefore(trace: seq<Event>, i: nat, r: Record) {
    exists j :: 0 <= j < i - 1 && j + 1 < |trace| && trace[j].Disk? && trace[j].access.Wrote?
                && r in trace[j].access.records && trace[j + 1] == Disk(Synced)
  }

  /**
   * Over a whole run, a response leaves in some batch, after every message so far
   * has been stored in memory and every record of that batch written and forced.
   */
  lemma {:induction false} ReleasedLast(bs: seq<seq<AppendMsg>>, i: nat) returns (k: nat)
    requires i < |RunEvents(bs)| && RunEvents(bs)[i].Released?
    ensures k < |bs| && |RunEvents(bs[..k])| <= i < |RunEvents(bs[..k + 1])|
    ensures forall m :: m in Messages(bs[..k + 1]) ==> StoredBefore(RunEvents(bs), i, m)
    ensures forall m, r :: m in bs[k] && r in ItemRecords(ItemOf(m)) ==> OnDiskBefore(RunEvents(bs), i, r)
  {
    hide BatchEvents, ItemRecords;
    var l := |bs| - 1;
    var older, trace := RunEvents(bs[..l]), RunEvents(bs);
    assert bs[..l + 1] == bs && trace == older + BatchEvents(bs[l]);
    if i < |older| {
      k := ReleasedLast(bs[..l], i);
      assert bs[..l][..k] == bs[..k] && bs[..l][..k + 1] == bs[..k + 1];
      EventsExtend(older, BatchEvents(bs[l]), i);
    } else {
      k := l;
      assert BatchEvents(bs[l])[i - |older|] == trace[i];
      forall m | m in Messages(bs) ensures StoredBefore(trace, i, m) {
        if m in bs[l] {
          BatchReleasesLast(bs[l], i - |older|, m);
          var j :| 0 <= j < i - |older| && BatchEvents(bs[l])[j] == Stored(m);
          assert trace[|older| + j] == Stored(m);
        } else {
          MessagesLast(bs);
          AllStored(bs[..l], m);
          var j :| 0 <= j < |older| && older[j] == Stored(m);
          assert trace[j] == Stored(m);
        }
      }
      forall m, r | m in bs[l] && r in ItemRecords(ItemOf(m)) ensures OnDiskBefore(trace, i, r) {
        BatchReleasesLast(bs[l], i - |older|, m);
        assert trace[|older|] == BatchEvents(bs[l])[0] && trace[|older| + 1] == BatchEvents(bs[l])[1];
      }
    }
  }

  lemma EventsExtend(older: seq<Event>, more: seq<Event>, i: nat)
    requires i < |older|
    ensures forall m :: StoredBefore(older, i, m) ==> StoredBefore(older + more, i, m)
    ensures forall r :: OnDiskBefore(older, i, r) ==> OnDiskBefore(older + more, i, r)
  {
    var all := older + more;
    forall m | StoredBefore(older, i, m) ensures StoredBefore(all, i, m) {
      var j :| 0 <= j < i && j < |older| && older[j] == Stored(m);
      assert all[j] == older[j];
    }
    forall r | OnDiskBefore(older, i, r) ensures OnDiskBefore(all, i, r) {
      var j :| 0 <= j < i - 1 && j + 1 < |older| && older[j].Disk? && older[j].access.Wrote?
               && r in older[j].access.records && older[j + 1] == Disk(Synced);
      assert all[j] == older[j] && all[j + 1] == older[j + 1];
    }
  }

  lemma MessagesLast(bs: seq<seq<AppendMsg>>)
    requires bs != []
    ensures forall m :: m in Messages(bs) <==> m in Messages(bs[..|bs| - 1]) || m in bs[|bs| - 1]
  {
  }

  lemma {:induction false} AllStored(bs: seq<seq<AppendMsg>>, m: AppendMsg)
    requires m in Messages(bs)
    ensures exists j :: 0 <= j < |RunEvents(bs)| && RunEvents(bs)[j] == Stored(m)
  {
    var l := |bs| - 1;
    var older := RunEvents(bs[..l]);
    if m in bs[l] {
      var i :| 0 <= i < |bs[l]| && bs[l][i] == m;
      assert BatchEvents(bs[l])[|WriteEvents(bs[l])| + i] == Stored(m);
      assert RunEvents(bs)[|older| + |WriteEvents(bs[l])| + i] == Stored(m);
    } else {
      MessagesLast(bs);
      AllStored(bs[..l], m);
      var j :| 0 <= j < |older| && older[j] == Stored(m);
      assert RunEvents(bs)[j] == Stored(m);
    }
  }

  lemma {:induction false} SomeoneWaits(ms: seq<AppendMsg>)
    requires Responses(ms) != []
    ensures Awaited(ms)
  {
    var l := |ms| - 1;
    if ms[l].responses == [] {
      SomeoneWaits(ms[..l]);
    }
  }

  lemma {:induction false} RecordInside(items: seq<Item>, k: nat)
    requires k < |items|
    ensures forall r :: r in ItemRecords(items[k]) ==> r in Records(items)
  {
    if k > 0 {
      RecordInside(items[1..], k - 1);
    }
  }

  /**
   * As long as raft keeps its order, a replica that loads its log finds what the
   * append thread holds in memory, up to the entries that were compacted away.
   */
  lemma LogMatchesMirror(t: AppendThread, c: Codec)
    requires t.Valid() && t.log.codec == c && c.Faithful()
    requires AllFit(c, Records(ItemsOf(t.processed))) && Orderly(0, 0, true, t.processed)
    ensures var r := LoadFrom(c, t.log.file, FRESH, []);
            && r.Loaded? && r.st.hard == t.storage.hard
            && t.lastCompact <= |r.st.log| && r.st.log[t.lastCompact..] == t.storage.log
  {
    OrderlyRuns(FRESH, 0, true, [], t.processed);
    ReplayIsApply(c, ItemsOf(t.processed));
  }

  // ----- Compaction over a run -----

  /** The thread would compact up to here after batch k. */
  predicate MayCompact(bs: seq<seq<AppendMsg>>, applied: seq<nat>, trailing: nat, k: nat)
    requires |applied| == |bs|
  {
    && k < |bs| && applied[k] > trailing + 1
    && applied[k] - trailing <= LastAppended(bs[k])
  }

  /** The compaction index after a run is the highest of those allowed by any of its batches. */
  lemma {:induction false} CompactionExact(bs: seq<seq<AppendMsg>>, applied: seq<nat>, trailing: nat)
    requires |applied| == |bs|
    ensures forall k: nat :: MayCompact(bs, applied, trailing, k) ==>
              applied[k] - trailing <= CompactAfter(bs, applied, trailing)
    ensures CompactAfter(bs, applied, trailing) == 0
            || exists k: nat :: MayCompact(bs, applied, trailing, k)
                                && CompactAfter(bs, applied, trailing) == applied[k] - trailing
  {
    if bs != [] {
      var l := |bs| - 1;
      CompactionExact(bs[..l], applied[..l], trailing);
      assert forall k: nat :: k < l ==>
        MayCompact(bs, applied, trailing, k) == MayCompact(bs[..l], applied[..l], trailing, k);
      assert CompactAfter(bs, applied, trailing) == applied[l] - trailing ==>
        MayCompact(bs, applied, trailing, l) || CompactAfter(bs[..l], applied[..l], trailing) == applied[l] - trailing;
    }
  }

  /**
   * Along a run compaction indices never fall, and each rise stays at or below
   * that batch's last appended index and its applied index less the trailing logs.
   */
  lemma {:induction false} CompactionBounds(bs: seq<seq<AppendMsg>>, applied: seq<nat>, trailing: nat, i: nat, j: nat)
    requires |applied| == |bs| && i <= j <= |bs|
    ensures CompactAfter(bs[..i], applied[..i], trailing) <= CompactAfter(bs[..j], applied[..j], trailing)
    ensures CompactAfter(bs[..i], applied[..i], trailing) < CompactAfter(bs[..j], applied[..j], trailing) ==>
              exists k :: i <= k < j
                && CompactAfter(bs[..j], applied[..j], trailing) <= LastAppended(bs[k])
                && CompactAfter(bs[..j], applied[..j], trailing) + trailing <= applied[k]
    decreases j - i
  {
    if i < j {
      CompactionBounds(bs, applied, trailing, i, j - 1);
      assert bs[..j][..j - 1] == bs[..j - 1] && applied[..j][..j - 1] == applied[..j - 1];
    }
  }

  /** At any time of any run the thread's index is that one, and its storage holds everything above it. */
  lemma CompactionOf(t: AppendThread, k: nat)
    requires t.Valid() && MayCompact(t.batches, t.applieds, t.trailing, k)
    ensures t.applieds[k] - t.trailing <= t.lastCompact <= |t.full.log|
    ensures t.storage.first == t.lastCompact + 1 && t.storage.log == t.full.log[t.lastCompact..]
  {
    hide RunEvents, ForcedUpTo, CompactAfter, Logged, Messages, Responses, ApplyItems;
    CompactionExact(t.batches, t.applieds, t.trailing);
  }
}

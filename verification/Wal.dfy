/**
 * The write-ahead log of the etcd adapter: framed records, group commit and
 * replay. Bodies are encoded by a codec that is only known to be faithful.
 */
module Wal {
  import opened Types

  newtype byte = b: int | 0 <= b < 256

  const KIND_HARD_STATE: byte := 1
  const KIND_ENTRY: byte := 2

  datatype HardState = HardState(term: nat, vote: nat, commit: nat)

  const EMPTY_STATE: HardState := HardState(0, 0, 0)

  datatype Entry = Entry(term: nat, index: nat, data: seq<byte>)

  /** The encoding of bodies, which this model does not look into. */
  datatype Codec = Codec(
    encodeState: HardState -> seq<byte>,
    decodeState: seq<byte> -> Option<HardState>,
    encodeEntry: Entry -> seq<byte>,
    decodeEntry: seq<byte> -> Option<Entry>)
  {
    ghost predicate Faithful() {
      && (forall h :: decodeState(encodeState(h)) == Some(h))
      && (forall e :: decodeEntry(encodeEntry(e)) == Some(e))
    }
  }

  // ----- Frames -----

  const TWO_TO_THE_32: nat := 0x1_0000_0000

  /** Four bytes, most significant first; larger numbers wrap around. */
  function U32(n: nat): (b: seq<byte>)
    ensures |b| == 4
  {
    [(n / 0x100_0000 % 256) as byte, (n / 0x1_0000 % 256) as byte, (n / 0x100 % 256) as byte, (n % 256) as byte]
  }

  function FromU32(b: seq<byte>): nat
    requires |b| == 4
  {
    b[0] as nat * 0x100_0000 + b[1] as nat * 0x1_0000 + b[2] as nat * 0x100 + b[3] as nat
  }

  lemma U32RoundTrip(n: nat)
    ensures FromU32(U32(n)) == n % TWO_TO_THE_32
  {
    var a, b, c := n / 0x100, n / 0x1_0000, n / 0x100_0000;
    assert n == 0x100 * a + n % 0x100;
    assert a == 0x100 * b + a % 0x100 && b == n / 0x100 / 0x100;
    assert b == 0x100 * c + b % 0x100 && c == n / 0x1_0000 / 0x100;
    assert c == 0x100 * (c / 0x100) + c % 0x100;
    var low := c % 0x100 * 0x100_0000 + b % 0x100 * 0x1_0000 + a % 0x100 * 0x100 + n % 0x100;
    assert n == c / 0x100 * TWO_TO_THE_32 + low && 0 <= low < TWO_TO_THE_32;
    Remainder(n, c / 0x100, low);
  }

  lemma Remainder(n: nat, q: nat, r: nat)
    requires n == q * TWO_TO_THE_32 + r && r < TWO_TO_THE_32
    ensures n % TWO_TO_THE_32 == r
  {
  }

  function Frame(kind: byte, body: seq<byte>): seq<byte> {
    U32(1 + |body|) + [kind] + body
  }

  datatype Record = StateRecord(hard: HardState) | EntryRecord(entry: Entry)

  function Kind(r: Record): byte {
    if r.StateRecord? then KIND_HARD_STATE else KIND_ENTRY
  }

  function Body(c: Codec, r: Record): seq<byte> {
    if r.StateRecord? then c.encodeState(r.hard) else c.encodeEntry(r.entry)
  }

  function FrameOf(c: Codec, r: Record): seq<byte> {
    Frame(Kind(r), Body(c, r))
  }

  /** A record's bytes: its length with the kind, most significant byte first, then the kind, then the body. */
  lemma FrameLayout(c: Codec, r: Record)
    requires Fits(c, r)
    ensures var f, body := FrameOf(c, r), if r.StateRecord? then c.encodeState(r.hard) else c.encodeEntry(r.entry);
            && |f| == 5 + |body|
            && f[0] as int * 16777216 + f[1] as int * 65536 + f[2] as int * 256 + f[3] as int == 1 + |body|
            && f[4] == (if r.StateRecord? then 1 else 2)
            && f[5..] == body
  {
    hide U32;
    U32RoundTrip(1 + |Body(c, r)|);
  }

  /** The file that holds the given records. */
  function Bytes(c: Codec, recs: seq<Record>): seq<byte> {
    if recs == [] then [] else FrameOf(c, recs[0]) + Bytes(c, recs[1..])
  }

  /** The record's length fits the four bytes that hold it. */
  predicate Fits(c: Codec, r: Record) {
    1 + |Body(c, r)| < TWO_TO_THE_32
  }

  predicate AllFit(c: Codec, recs: seq<Record>) {
    forall r :: r in recs ==> Fits(c, r)
  }

  lemma {:induction false} BytesJoin(c: Codec, a: seq<Record>, b: seq<Record>)
    ensures Bytes(c, a + b) == Bytes(c, a) + Bytes(c, b)
  {
    hide FrameOf;
    if a == [] {
      assert a + b == b;
    } else {
      BytesJoin(c, a[1..], b);
      assert (a + b)[1..] == a[1..] + b;
      var head := FrameOf(c, a[0]);
      assert head + (Bytes(c, a[1..]) + Bytes(c, b)) == (head + Bytes(c, a[1..])) + Bytes(c, b);
    }
  }

  // ----- What is appended -----

  /** One hard state, if any, and entries, as one append message carries them. */
  datatype Item = Item(hard: Option<HardState>, entries: seq<Entry>)

  predicate HasState(it: Item) {
    it.hard.Some? && it.hard.value != EMPTY_STATE
  }

  function EntryRecords(es: seq<Entry>): (r: seq<Record>)
    ensures |r| == |es| && forall i :: 0 <= i < |es| ==> r[i] == EntryRecord(es[i])
  {
    seq(|es|, i requires 0 <= i < |es| => EntryRecord(es[i]))
  }

  function ItemRecords(it: Item): seq<Record> {
    (if HasState(it) then [StateRecord(it.hard.value)] else [])
    + EntryRecords(it.entries)
  }

  function Records(items: seq<Item>): seq<Record> {
    if items == [] then [] else ItemRecords(items[0]) + Records(items[1..])
  }

  lemma {:induction false} RecordsJoin(a: seq<Item>, b: seq<Item>)
    ensures Records(a + b) == Records(a) + Records(b)
  {
    hide ItemRecords;
    if a == [] {
      assert a + b == b;
    } else {
      RecordsJoin(a[1..], b);
      assert (a + b)[1..] == a[1..] + b;
      var head := ItemRecords(a[0]);
      assert head + (Records(a[1..]) + Records(b)) == (head + Records(a[1..])) + Records(b);
    }
  }

  /** What is done to the file. */
  datatype Access = Wrote(records: seq<Record>) | Synced

  function BatchAccesses(items: seq<Item>, sync: bool): seq<Access> {
    if Records(items) == [] then [] else [Wrote(Records(items))] + if sync then [Synced] else []
  }

  /** The log file; durable is how much of it is known to be on disk. */
  class Log {
    const codec: Codec
    var file: seq<byte>
    var off: nat
    ghost var durable: nat
    ghost var accesses: seq<Access>

    ghost predicate Valid()
      reads this
    {
      durable <= off == |file|
    }

    constructor (codec: Codec, file: seq<byte>)
      ensures Valid() && this.codec == codec && this.file == file && durable == |file| && accesses == []
    {
      this.codec, this.file, off := codec, file, |file|;
      durable, accesses := |file|, [];
    }

    /** The frames of one item. */
    method ItemFrames(it: Item) returns (frames: seq<seq<byte>>)
      ensures |frames| == |ItemRecords(it)|
      ensures forall i :: 0 <= i < |frames| ==> frames[i] == FrameOf(codec, ItemRecords(it)[i])
      ensures var h := if it.hard.Some? && it.hard.value != HardState(0, 0, 0) then 1 else 0;
              && |frames| == h + |it.entries|
              && (h == 1 ==> frames[0] == FrameOf(codec, StateRecord(it.hard.value)))
              && forall i :: 0 <= i < |it.entries| ==> frames[h + i] == FrameOf(codec, EntryRecord(it.entries[i]))
    {
      frames := [];
      if HasState(it) {
        frames := [Frame(KIND_HARD_STATE, codec.encodeState(it.hard.value))];
      }
      ghost var h := |frames|;
      for i := 0 to |it.entries|
        invariant |frames| == h + i
        invariant forall j :: 0 <= j < |frames| ==> frames[j] == FrameOf(codec, ItemRecords(it)[j])
      {
        frames := frames + [Frame(KIND_ENTRY, codec.encodeEntry(it.entries[i]))];
      }
    }

    /** The frames of all items, one after the other. */
    method BatchBytes(items: seq<Item>) returns (buf: seq<byte>)
      ensures buf == Bytes(codec, Records(items))
    {
      hide Bytes, Records, ItemRecords, FrameOf;
      buf := [];
      NoBytes(codec);
      for i := 0 to |items|
        invariant buf == Bytes(codec, Records(items[..i]))
      {
        var frames := ItemFrames(items[i]);
        ghost var before := buf;
        assert before + [] == before;
        for j := 0 to |frames|
          invariant buf == before + Bytes(codec, ItemRecords(items[i])[..j])
        {
          OneMoreFrame(codec, ItemRecords(items[i]), j);
          buf := buf + frames[j];
        }
        OneMoreItem(codec, items, i);
      }
      assert items[..|items|] == items;
    }

    /** One write for the whole batch, and one sync if asked for. */
    method AppendBatch(items: seq<Item>, sync: bool)
      requires Valid()
      modifies this
      ensures Valid() && file == old(file) + Bytes(codec, Records(items))
      ensures durable == if sync && Records(items) != [] then |file| else old(durable)
      ensures accesses == old(accesses) + BatchAccesses(items, sync)
    {
      hide Bytes, Records;
      var buf := BatchBytes(items);
      SomeBytes(codec, Records(items));
      if |buf| == 0 {
        return;
      }
      file := file[..off] + buf;
      off := off + |buf|;
      accesses := accesses + [Wrote(Records(items))];
      if sync {
        durable, accesses := |file|, accesses + [Synced];
      }
    }
  }

  lemma OneMoreFrame(c: Codec, recs: seq<Record>, j: nat)
    requires j < |recs|
    ensures Bytes(c, recs[..j + 1]) == Bytes(c, recs[..j]) + FrameOf(c, recs[j])
  {
    hide FrameOf;
    var one := [recs[j]];
    assert recs[..j + 1] == recs[..j] + one;
    BytesJoin(c, recs[..j], one);
    assert one[1..] == [] && Bytes(c, []) == [];
    assert Bytes(c, one) == FrameOf(c, recs[j]) + [];
  }

  lemma OneMoreItem(c: Codec, items: seq<Item>, i: nat)
    requires i < |items|
    ensures Bytes(c, Records(items[..i + 1])) == Bytes(c, Records(items[..i])) + Bytes(c, ItemRecords(items[i]))
    ensures ItemRecords(items[i])[..|ItemRecords(items[i])|] == ItemRecords(items[i])
  {
    hide ItemRecords, Bytes;
    var one := [items[i]];
    assert items[..i + 1] == items[..i] + one;
    RecordsJoin(items[..i], one);
    assert one[1..] == [] && Records([]) == [];
    assert Records(one) == ItemRecords(items[i]);
    BytesJoin(c, Records(items[..i]), ItemRecords(items[i]));
  }

  lemma NoBytes(c: Codec)
    ensures Bytes(c, Records([])) == []
    ensures forall recs: seq<Record> :: Bytes(c, recs[..0]) == []
  {
  }

  lemma SomeBytes(c: Codec, recs: seq<Record>)
    ensures Bytes(c, recs) == [] <==> recs == []
  {
  }

  // ----- Storage -----

  /** Raft's memory storage: entries from index first on, and a hard state. */
  datatype Storage = Storage(first: nat, log: seq<Entry>, hard: HardState)

  const FRESH: Storage := Storage(1, [], EMPTY_STATE)

  /** None is the panic on a gap. */
  function Append(st: Storage, es: seq<Entry>): Option<Storage> {
    if es == [] || es[0].index + |es| - 1 < st.first then Some(st)
    else
      var kept := if es[0].index < st.first then es[st.first - es[0].index..] else es;
      var at := if es[0].index < st.first then 0 else es[0].index - st.first;
      if at > |st.log| then None else Some(st.(log := st.log[..at] + kept))
  }

  /**
   * Appending, index by index: entries from the first new one on are the new
   * ones, those before it stay, what is compacted away is skipped, and a gap
   * cannot be filled.
   */
  lemma AppendExact(st: Storage, es: seq<Entry>)
    ensures Append(st, es).None? <==> es != [] && es[0].index + |es| > st.first && es[0].index > st.first + |st.log|
    ensures Append(st, es).Some? ==>
              var next := Append(st, es).value;
              && next.first == st.first && next.hard == st.hard
              && if es == [] || es[0].index + |es| <= st.first then next.log == st.log
                 else
                   && |next.log| == es[0].index + |es| - st.first
                   && forall k: nat :: k < |next.log| ==>
                        if st.first + k < es[0].index then k < |st.log| && next.log[k] == st.log[k]
                        else 0 <= st.first + k - es[0].index < |es| && next.log[k] == es[st.first + k - es[0].index]
  {
  }

  // ----- Replay -----

  datatype Loaded = Loaded(st: Storage) | Failed

  /** Pending entries go to storage in one piece. */
  function Flush(st: Storage, pending: seq<Entry>): Loaded {
    match Append(st, pending)
    case None => Failed
    case Some(next) => Loaded(next)
  }

  /** The next record of a file: none is left, none can be read, or this one. */
  datatype Next = End | Bad | Got(r: Record, rest: seq<byte>)

  function ReadOne(c: Codec, f: seq<byte>): Next {
    if |f| < 4 then End
    else
      var n := FromU32(f[..4]);
      if n == 0 || |f| - 4 < n then Bad
      else
        var body, rest := f[4..4 + n], f[4 + n..];
        if body[0] == KIND_HARD_STATE then
          (match c.decodeState(body[1..]) case None => Bad case Some(h) => Got(StateRecord(h), rest))
        else if body[0] == KIND_ENTRY then
          (match c.decodeEntry(body[1..]) case None => Bad case Some(e) => Got(EntryRecord(e), rest))
        else Bad
  }

  /** What can be read: a whole record of a known kind that decodes; fewer than four bytes are the end. */
  lemma ReadExact(c: Codec, f: seq<byte>)
    ensures ReadOne(c, f).End? <==> |f| < 4
    ensures |f| >= 4 ==>
              var n := f[0] as int * 16777216 + f[1] as int * 65536 + f[2] as int * 256 + f[3] as int;
              && (ReadOne(c, f).Got? <==>
                    && 0 < n <= |f| - 4
                    && ((f[4] == 1 && c.decodeState(f[5..4 + n]).Some?) || (f[4] == 2 && c.decodeEntry(f[5..4 + n]).Some?)))
              && (ReadOne(c, f).Got? ==>
                    && ReadOne(c, f).rest == f[4 + n..]
                    && ReadOne(c, f).r ==
                       if f[4] == 1 then StateRecord(c.decodeState(f[5..4 + n]).value)
                       else EntryRecord(c.decodeEntry(f[5..4 + n]).value))
  {
    if |f| >= 4 {
      var n := FromU32(f[..4]);
      if 0 < n <= |f| - 4 {
        assert f[4..4 + n][1..] == f[5..4 + n];
      }
    }
  }

  lemma ReadShrinks(c: Codec, f: seq<byte>)
    ensures var x := ReadOne(c, f); x.Got? ==> |x.rest| < |f|
  {
  }

  /** Replaying the rest of a file. */
  function LoadFrom(c: Codec, f: seq<byte>, st: Storage, pending: seq<Entry>): Loaded
    decreases |f|
  {
    ReadShrinks(c, f);
    match ReadOne(c, f)
    case End => Flush(st, pending)
    case Bad => Failed
    case Got(r, rest) =>
      if r.EntryRecord? then LoadFrom(c, rest, st, pending + [r.entry])
      else match Flush(st, pending)
        case Failed => Failed
        case Loaded(next) => LoadFrom(c, rest, next.(hard := r.hard), [])
  }

  /** Replays a whole file into fresh storage. */
  method LoadWal(c: Codec, f: seq<byte>) returns (r: Loaded)
    ensures r == LoadFrom(c, f, FRESH, [])
  {
    hide Append, FromU32, Flush;
    var st, pending, pos := FRESH, [], 0;
    assert f[0..] == f;
    while true
      invariant 0 <= pos <= |f|
      invariant LoadFrom(c, f, FRESH, []) == LoadFrom(c, f[pos..], st, pending)
      decreases |f| - pos
    {
      if |f| - pos < 4 {
        return Flush(st, pending);
      }
      var n := FromU32(f[pos..pos + 4]);
      assert f[pos..][..4] == f[pos..pos + 4];
      if n == 0 || |f| - pos - 4 < n {
        return Failed;
      }
      var body := f[pos + 4..pos + 4 + n];
      assert f[pos..][4..4 + n] == body && f[pos..][4 + n..] == f[pos + 4 + n..];
      pos := pos + 4 + n;
      if body[0] == KIND_HARD_STATE {
        match c.decodeState(body[1..]) {
          case None => return Failed;
          case Some(h) =>
            match Flush(st, pending) {
              case Failed => return Failed;
              case Loaded(next) => st, pending := next.(hard := h), [];
            }
        }
      } else if body[0] == KIND_ENTRY {
        match c.decodeEntry(body[1..]) {
          case None => return Failed;
          case Some(e) => pending := pending + [e];
        }
      } else {
        return Failed;
      }
    }
  }

  /** What replay makes of records, without the bytes between. */
  function RunRecords(recs: seq<Record>, st: Storage, pending: seq<Entry>): Loaded {
    if recs == [] then Flush(st, pending)
    else match recs[0]
      case StateRecord(h) =>
        (match Flush(st, pending)
         case Failed => Failed
         case Loaded(next) => RunRecords(recs[1..], next.(hard := h), []))
      case EntryRecord(e) => RunRecords(recs[1..], st, pending + [e])
  }

  /** One whole record at the head of the file. */
  lemma ReadWhole(c: Codec, r: Record, rest: seq<byte>)
    requires c.Faithful() && Fits(c, r)
    ensures ReadOne(c, FrameOf(c, r) + rest) == Got(r, rest)
  {
    hide U32, FromU32;
    var f := FrameOf(c, r) + rest;
    var n := 1 + |Body(c, r)|;
    U32RoundTrip(n);
    assert f[..4] == U32(n) && f[4..4 + n] == [Kind(r)] + Body(c, r) && f[4 + n..] == rest;
    assert ([Kind(r)] + Body(c, r))[1..] == Body(c, r);
  }

  /** The beginning of a record: it looks like the end of the file, or cannot be read. */
  lemma ReadTorn(c: Codec, r: Record, k: nat)
    requires Fits(c, r) && k < |FrameOf(c, r)|
    ensures ReadOne(c, FrameOf(c, r)[..k]) == if k < 4 then End else Bad
  {
    hide U32, FromU32;
    if k >= 4 {
      var n := 1 + |Body(c, r)|;
      U32RoundTrip(n);
      assert FrameOf(c, r)[..k][..4] == U32(n);
    }
  }

  /** How many of the records lie whole within the first k bytes. */
  function Whole(c: Codec, recs: seq<Record>, k: nat): nat {
    if recs == [] || k < |FrameOf(c, recs[0])| then 0
    else 1 + Whole(c, recs[1..], k - |FrameOf(c, recs[0])|)
  }

  /**
   * A file cut at any byte: its whole records are replayed and nothing else,
   * unless four bytes or more of one more record are there: then replay fails.
   */
  lemma {:induction false} LoadPrefix(c: Codec, recs: seq<Record>, k: nat, st: Storage, pending: seq<Entry>)
    requires c.Faithful() && AllFit(c, recs) && k <= |Bytes(c, recs)|
    ensures Whole(c, recs, k) <= |recs| && |Bytes(c, recs[..Whole(c, recs, k)])| <= k
    ensures var j := Whole(c, recs, k);
            LoadFrom(c, Bytes(c, recs)[..k], st, pending) ==
            if k - |Bytes(c, recs[..j])| < 4 then RunRecords(recs[..j], st, pending) else Failed
    decreases |recs|
  {
    hide FrameOf, ReadOne, Flush, LoadFrom;
    var f := Bytes(c, recs)[..k];
    LoadStep(c, f, st, pending);
    if recs == [] {
      ReadNothing(c);
      assert f == [];
    } else {
      var frame, rest := FrameOf(c, recs[0]), Bytes(c, recs[1..]);
      var l := |frame|;
      if k < l {
        assert f == frame[..k];
        ReadTorn(c, recs[0], k);
        assert recs[..0] == [];
      } else {
        assert f == frame + rest[..k - l];
        ReadWhole(c, recs[0], rest[..k - l]);
        if recs[0].EntryRecord? {
          LoadPrefix(c, recs[1..], k - l, st, pending + [recs[0].entry]);
        } else {
          var next := Flush(st, pending);
          LoadPrefix(c, recs[1..], k - l, if next.Failed? then st else next.st.(hard := recs[0].hard), []);
        }
        PrefixStep(c, recs, Whole(c, recs[1..], k - l));
      }
    }
  }

  /** One round of the replay loop. */
  lemma LoadStep(c: Codec, f: seq<byte>, st: Storage, pending: seq<Entry>)
    ensures ReadOne(c, f).End? ==> LoadFrom(c, f, st, pending) == Flush(st, pending)
    ensures ReadOne(c, f).Bad? ==> LoadFrom(c, f, st, pending) == Failed
    ensures var x := ReadOne(c, f); x.Got? && x.r.EntryRecord? ==>
              LoadFrom(c, f, st, pending) == LoadFrom(c, x.rest, st, pending + [x.r.entry])
    ensures var x, y := ReadOne(c, f), Flush(st, pending); x.Got? && x.r.StateRecord? ==>
              LoadFrom(c, f, st, pending) ==
              if y.Failed? then Failed else LoadFrom(c, x.rest, y.st.(hard := x.r.hard), [])
  {
  }

  lemma ReadNothing(c: Codec)
    ensures ReadOne(c, []) == End
  {
  }

  lemma PrefixStep(c: Codec, recs: seq<Record>, j: nat)
    requires recs != [] && j <= |recs| - 1
    ensures recs[..j + 1][1..] == recs[1..][..j] && recs[..j + 1] != [] && recs[..j + 1][0] == recs[0]
    ensures Bytes(c, recs[..j + 1]) == FrameOf(c, recs[0]) + Bytes(c, recs[1..][..j])
  {
    assert recs[..j + 1][1..] == recs[1..][..j];
  }

  /** Loading a whole log gives what its records say. */
  lemma LoadAll(c: Codec, recs: seq<Record>)
    requires c.Faithful() && AllFit(c, recs)
    ensures LoadFrom(c, Bytes(c, recs), FRESH, []) == RunRecords(recs, FRESH, [])
  {
    WholeAll(c, recs);
    LoadPrefix(c, recs, |Bytes(c, recs)|, FRESH, []);
    assert Bytes(c, recs)[..|Bytes(c, recs)|] == Bytes(c, recs);
    assert recs[..|recs|] == recs;
  }

  lemma {:induction false} WholeAll(c: Codec, recs: seq<Record>)
    ensures Whole(c, recs, |Bytes(c, recs)|) == |recs|
  {
    if recs != [] {
      WholeAll(c, recs[1..]);
    }
  }

  // ----- Replay against applying the items directly -----

  /** Applying one item: its entries, and its hard state if it has one. */
  function ApplyItem(st: Storage, it: Item): Loaded {
    match Append(st, it.entries)
    case None => Failed
    case Some(next) =>
      Loaded(if HasState(it) then next.(hard := it.hard.value) else next)
  }

  function ApplyItems(st: Storage, items: seq<Item>): Loaded
    decreases |items|
  {
    if items == [] then Loaded(st)
    else match ApplyItem(st, items[0])
      case Failed => Failed
      case Loaded(next) => ApplyItems(next, items[1..])
  }

  predicate Contiguous(es: seq<Entry>) {
    forall i :: 0 <= i < |es| ==> es[i].index == es[0].index + i
  }

  /** Between hard states, entries go on where the entries before left off. */
  predicate RunsContiguous(pending: seq<Entry>, items: seq<Item>)
    decreases |items|
  {
    && Contiguous(pending)
    && (items != [] ==>
          RunsContiguous((if HasState(items[0]) then [] else pending) + items[0].entries, items[1..]))
  }

  predicate Indexed(es: seq<Entry>) {
    forall e :: e in es ==> e.index >= 1
  }

  /** Appending two pieces at once or one after the other. */
  lemma AppendPieces(st: Storage, a: seq<Entry>, b: seq<Entry>)
    requires st.first >= 1 && Contiguous(a) && Contiguous(b)
    requires a != [] && b != [] && a[0].index >= st.first && Append(st, a).Some?
    ensures Append(Append(st, a).value, b) == Append(st, a + b) <==> Contiguous(a + b)
  {
    var mid := Append(st, a).value;
    var i, j := a[0].index - st.first, b[0].index - st.first;
    assert (a + b)[0] == a[0];
    assert mid.log == st.log[..i] + a;
    if j == i + |a| {
      assert mid.log[..j] == mid.log;
      assert (st.log[..i] + a) + b == st.log[..i] + (a + b);
      forall k | 0 <= k < |a + b| ensures (a + b)[k].index == a[0].index + k {
      }
    } else {
      assert (a + b)[|a|] == b[0];
      if 0 <= j < i + |a| {
        assert Append(st, a + b).value.log == st.log[..i] + (a + b);
        assert |Append(mid, b).value.log| == j + |b|;
      }
    }
  }

  lemma {:induction false} RunEntries(es: seq<Entry>, rest: seq<Record>, st: Storage, pending: seq<Entry>)
    ensures RunRecords(EntryRecords(es) + rest, st, pending) == RunRecords(rest, st, pending + es)
    decreases |es|
  {
    var recs := EntryRecords(es) + rest;
    if es == [] {
      assert recs == rest && pending + es == pending;
    } else {
      assert recs[1..] == EntryRecords(es[1..]) + rest;
      assert recs[0] == EntryRecord(es[0]);
      RunEntries(es[1..], rest, st, pending + [es[0]]);
      assert pending + [es[0]] + es[1..] == pending + es;
    }
  }

  /** Pending entries flushed early or together with those that follow. */
  lemma FlushPieces(st: Storage, pending: seq<Entry>, es: seq<Entry>)
    requires st.first == 1 && Indexed(pending) && Indexed(es) && Contiguous(pending + es)
    ensures Flush(st, pending + es) ==
            if Flush(st, pending).Failed? then Failed else Flush(Flush(st, pending).st, es)
  {
    if pending == [] {
      assert pending + es == es;
    } else if es == [] {
      assert pending + es == pending;
    } else {
      ContiguousParts(pending, es);
      assert (pending + es)[0] == pending[0];
      if Append(st, pending).Some? {
        AppendPieces(st, pending, es);
      }
    }
  }

  lemma ContiguousParts(a: seq<Entry>, b: seq<Entry>)
    requires Contiguous(a + b)
    ensures Contiguous(a) && Contiguous(b)
  {
    forall i | 0 <= i < |a| ensures a[i].index == a[0].index + i {
      assert (a + b)[i] == a[i] && (a + b)[0] == a[0];
    }
    forall i | 0 <= i < |b| ensures b[i].index == b[0].index + i {
      assert (a + b)[|a| + i] == b[i] && (a + b)[|a|] == b[0];
    }
  }

  lemma AppendKeepsState(st: Storage, es: seq<Entry>, h: HardState)
    ensures Append(st.(hard := h), es) ==
            match Append(st, es) case None => None case Some(next) => Some(next.(hard := h))
  {
  }

  /** Applying the item to storage that has taken in what was pending. */
  lemma ItemStep(st: Storage, pending: seq<Entry>, it: Item, rest: seq<Record>)
    requires st.first == 1 && Indexed(pending) && Indexed(it.entries)
    requires !HasState(it) ==> Contiguous(pending + it.entries)
    ensures var now := Flush(st, pending);
            var before := if HasState(it) then [] else pending;
            var base := if !HasState(it) || now.Failed? then st else now.st.(hard := it.hard.value);
            && RunRecords(ItemRecords(it) + rest, st, pending) ==
                 (if HasState(it) && now.Failed? then Failed else RunRecords(rest, base, before + it.entries))
            && (if now.Failed? then Failed else ApplyItem(now.st, it)) ==
                 (if HasState(it) && now.Failed? then Failed else Flush(base, before + it.entries))
  {
    hide Append, Contiguous;
    var now := Flush(st, pending);
    if HasState(it) {
      if now.Loaded? { AppendKeepsState(now.st, it.entries, it.hard.value); }
      var recs := ItemRecords(it) + rest;
      assert recs[0] == StateRecord(it.hard.value) && recs[1..] == EntryRecords(it.entries) + rest;
      if now.Loaded? {
        RunEntries(it.entries, rest, now.st.(hard := it.hard.value), []);
        assert [] + it.entries == it.entries;
      }
    } else {
      assert ItemRecords(it) + rest == EntryRecords(it.entries) + rest;
      RunEntries(it.entries, rest, st, pending);
      FlushPieces(st, pending, it.entries);
    }
  }

  ghost predicate AllIndexed(items: seq<Item>) {
    forall it :: it in items ==> Indexed(it.entries)
  }

  lemma {:induction false} RunItems(items: seq<Item>, st: Storage, pending: seq<Entry>)
    requires st.first == 1 && Indexed(pending) && AllIndexed(items) && RunsContiguous(pending, items)
    ensures RunRecords(Records(items), st, pending) ==
            if Flush(st, pending).Failed? then Failed else ApplyItems(Flush(st, pending).st, items)
    decreases |items|
  {
    hide Flush, ApplyItem, ItemRecords;
    if items != [] {
      var it := items[0];
      var before := if HasState(it) then [] else pending;
      var now := Flush(st, pending);
      RunsHead(pending, items);
      ItemStep(st, pending, it, Records(items[1..]));
      if HasState(it) && now.Failed? {
      } else {
        var base := if HasState(it) then now.st.(hard := it.hard.value) else st;
        FlushFirst(st, pending);
        RunItems(items[1..], base, before + it.entries);
      }
    }
  }

  lemma RunsHead(pending: seq<Entry>, items: seq<Item>)
    requires RunsContiguous(pending, items) && items != []
    ensures !HasState(items[0]) ==> Contiguous(pending + items[0].entries)
  {
  }

  lemma FlushFirst(st: Storage, pending: seq<Entry>)
    ensures Flush(st, pending).Loaded? ==> Flush(st, pending).st.first == st.first
  {
  }

  /**
   * Round trip: loading the file that a sequence of appends wrote gives the log
   * and hard state that applying the same items in order gives.
   */
  lemma ReplayIsApply(c: Codec, items: seq<Item>)
    requires c.Faithful() && AllFit(c, Records(items)) && AllIndexed(items) && RunsContiguous([], items)
    ensures LoadFrom(c, Bytes(c, Records(items)), FRESH, []) == ApplyItems(FRESH, items)
  {
    LoadAll(c, Records(items));
    RunItems(items, FRESH, []);
  }

  ghost predicate AllContiguous(items: seq<Item>) {
    forall it :: it in items ==> Contiguous(it.entries)
  }

  lemma {:induction false} RunsPrefix(pending: seq<Entry>, items: seq<Item>, n: nat)
    requires RunsContiguous(pending, items) && n <= |items|
    ensures RunsContiguous(pending, items[..n])
    decreases |items|
  {
    if n > 0 {
      RunsPrefix((if HasState(items[0]) then [] else pending) + items[0].entries, items[1..], n - 1);
      assert items[..n][1..] == items[1..][..n - 1];
    }
  }

  /** Where entries do not go on where those before left off, replay goes wrong. */
  lemma {:induction false} RunsBreak(st: Storage, pending: seq<Entry>, items: seq<Item>) returns (n: nat)
    requires st.first == 1 && Indexed(pending) && Contiguous(pending) && AllIndexed(items) && AllContiguous(items)
    requires Flush(st, pending).Loaded? && ApplyItems(Flush(st, pending).st, items).Loaded?
    requires !RunsContiguous(pending, items)
    ensures n <= |items|
    ensures RunRecords(Records(items[..n]), st, pending) != ApplyItems(Flush(st, pending).st, items[..n])
    decreases |items|
  {
    hide ItemRecords, Append;
    var it, now := items[0], Flush(st, pending).st;
    FlushFirst(st, pending);
    if !HasState(it) && !Contiguous(pending + it.entries) {
      n := 1;
      assert items[..1] == [it] && [it][1..] == [];
      BreakHere(st, pending, it);
    } else {
      var base := if HasState(it) then now.(hard := it.hard.value) else st;
      var before := (if HasState(it) then [] else pending) + it.entries;
      assert HasState(it) ==> before == it.entries;
      ItemStep(st, pending, it, []);
      var m := RunsBreak(base, before, items[1..]);
      n := m + 1;
      assert items[..n][1..] == items[1..][..m] && items[..n][0] == it;
      ItemStep(st, pending, it, Records(items[1..][..m]));
    }
  }

  lemma BreakHere(st: Storage, pending: seq<Entry>, it: Item)
    requires st.first == 1 && Indexed(pending) && Indexed(it.entries) && Contiguous(pending) && Contiguous(it.entries)
    requires !HasState(it) && !Contiguous(pending + it.entries) && Flush(st, pending).Loaded?
    requires ApplyItem(Flush(st, pending).st, it).Loaded?
    ensures RunRecords(Records([it]), st, pending) != ApplyItem(Flush(st, pending).st, it)
  {
    hide Contiguous;
    assert pending + [] == pending && [] + it.entries == it.entries;
    AppendPieces(st, pending, it.entries);
    assert [it][1..] == [];
    assert Records([it]) == EntryRecords(it.entries) + [];
    RunEntries(it.entries, [], st, pending);
  }

  /**
   * Exactly when replay does what it is for: at every point of the log loading
   * gives what applying gave, if and only if entries between hard states go on
   * where those before left off.
   */
  lemma ReplayExact(c: Codec, items: seq<Item>)
    requires c.Faithful() && AllFit(c, Records(items)) && AllIndexed(items) && AllContiguous(items)
    requires ApplyItems(FRESH, items).Loaded?
    ensures RunsContiguous([], items) <==>
            forall n :: 0 <= n <= |items| ==>
              LoadFrom(c, Bytes(c, Records(items[..n])), FRESH, []) == ApplyItems(FRESH, items[..n])
  {
    hide LoadFrom, Bytes, RunsContiguous, ApplyItems, Records, AllFit;
    forall n | 0 <= n <= |items| ensures AllFit(c, Records(items[..n])) && AllIndexed(items[..n]) {
      RecordsJoin(items[..n], items[n..]);
      assert items == items[..n] + items[n..];
      FitParts(c, Records(items[..n]), Records(items[n..]));
    }
    if RunsContiguous([], items) {
      forall n | 0 <= n <= |items|
        ensures LoadFrom(c, Bytes(c, Records(items[..n])), FRESH, []) == ApplyItems(FRESH, items[..n])
      {
        RunsPrefix([], items, n);
        ReplayIsApply(c, items[..n]);
      }
    } else {
      var n := RunsBreak(FRESH, [], items);
      LoadAll(c, Records(items[..n]));
    }
  }

  lemma FitParts(c: Codec, a: seq<Record>, b: seq<Record>)
    requires AllFit(c, a + b)
    ensures AllFit(c, a)
  {
    forall r | r in a ensures Fits(c, r) {
      assert r in a + b;
    }
  }

  /** Two items, the second of which rewrites the last index of the first. */
  function Overlap(a: Entry, b: Entry, b': Entry): seq<Item> {
    [Item(None, [a, b]), Item(None, [b'])]
  }

  lemma OverlapRecords(a: Entry, b: Entry, b': Entry)
    ensures Records(Overlap(a, b, b')) == EntryRecords([a, b, b']) + []
  {
    var items := Overlap(a, b, b');
    assert items[1..] == [Item(None, [b'])] && items[1..][1..] == [];
    assert Records(items[1..]) == EntryRecords([b']) + [];
    assert EntryRecords([a, b]) + EntryRecords([b']) == EntryRecords([a, b, b']);
  }

  lemma OverlapApplied(a: Entry, b: Entry, b': Entry)
    requires a.index == 1 && b.index == 2 && b'.index == 2
    ensures ApplyItems(FRESH, Overlap(a, b, b')) == Loaded(Storage(1, [a, b'], EMPTY_STATE))
  {
    var items := Overlap(a, b, b');
    var mid := Storage(1, [a, b], EMPTY_STATE);
    assert FRESH.log[..0] + [a, b] == [a, b] && mid.log[..1] + [b'] == [a, b'];
    assert ApplyItem(FRESH, items[0]) == Loaded(mid);
    assert ApplyItem(mid, items[1]) == Loaded(Storage(1, [a, b'], EMPTY_STATE));
    assert items[1..] == [items[1]] && items[1..][1..] == [];
    assert ApplyItems(mid, items[1..]) == Loaded(Storage(1, [a, b'], EMPTY_STATE));
  }

  /**
   * Without that condition it fails: an item that rewrites an index, with no
   * hard state before it, is applied one way and replayed another. The input is
   * one for these functions; raft never hands it to the log, because it rewrites
   * an index only after a change of term, which is in a hard state.
   */
  lemma OverlapReplaysWrong(c: Codec, a: Entry, b: Entry, b': Entry)
    requires c.Faithful() && a.index == 1 && b.index == 2 && b'.index == 2
    requires AllFit(c, Records(Overlap(a, b, b')))
    ensures ApplyItems(FRESH, Overlap(a, b, b')) == Loaded(Storage(1, [a, b'], EMPTY_STATE))
    ensures LoadFrom(c, Bytes(c, Records(Overlap(a, b, b'))), FRESH, []) ==
            Loaded(Storage(1, [a, b, b'], EMPTY_STATE))
  {
    hide Records, ApplyItems, LoadFrom, Bytes, AllFit;
    OverlapApplied(a, b, b');
    LoadAll(c, Records(Overlap(a, b, b')));
    OverlapRecords(a, b, b');
    RunEntries([a, b, b'], [], FRESH, []);
    assert [] + [a, b, b'] == [a, b, b'] && FRESH.log[..0] + [a, b, b'] == [a, b, b'];
  }

  /** Group commit: one write of two batches is two writes. */
  lemma BatchesJoin(c: Codec, a: seq<Item>, b: seq<Item>)
    ensures Bytes(c, Records(a + b)) == Bytes(c, Records(a)) + Bytes(c, Records(b))
  {
    RecordsJoin(a, b);
    BytesJoin(c, Records(a), Records(b));
  }
}

/**
 * The wire format between replicas of the efficient EPaxos: a code byte and then
 * the fields, little-endian, with command lists counted by a varint.
 */
module Wire {
  import opened Types
  import Wal

  type byte = Wal.byte

  type i32 = x: int | -0x8000_0000 <= x < 0x8000_0000
  type i64 = x: int | -0x8000_0000_0000_0000 <= x < 0x8000_0000_0000_0000
  type u64 = x: int | 0 <= x < 0x1_0000_0000_0000_0000

  type Deps = s: seq<i32> | |s| == 9 witness [0, 0, 0, 0, 0, 0, 0, 0, 0]

  datatype Cmd = Cmd(op: byte, k: i64, v: i64)

  datatype Msg =
    | Beacon(timestamp: u64)
    | BeaconReply(timestamp: u64)
    | Prepare(leaderId: i32, replica: i32, instance: i32, ballot: i32)
    | PrepareReply(acceptorId: i32, replica: i32, instance: i32, ok: byte, ballot: i32, status: byte,
                   command: seq<Cmd>, seqNum: i32, deps: Deps)
    | PreAccept(leaderId: i32, replica: i32, instance: i32, ballot: i32, command: seq<Cmd>, seqNum: i32, deps: Deps)
    | PreAcceptReply(replica: i32, instance: i32, ok: byte, ballot: i32, seqNum: i32, deps: Deps, committedDeps: Deps)
    | PreAcceptOK(instance: i32)
    | Accept(leaderId: i32, replica: i32, instance: i32, ballot: i32, count: i32, seqNum: i32, deps: Deps)
    | AcceptReply(replica: i32, instance: i32, ok: byte, ballot: i32)
    | Commit(leaderId: i32, replica: i32, instance: i32, command: seq<Cmd>, seqNum: i32, deps: Deps)
    | CommitShort(leaderId: i32, replica: i32, instance: i32, count: i32, seqNum: i32, deps: Deps)
    | TryPreAccept(leaderId: i32, replica: i32, instance: i32, ballot: i32, command: seq<Cmd>, seqNum: i32, deps: Deps)
    | TryPreAcceptReply(acceptorId: i32, replica: i32, instance: i32, ok: byte, ballot: i32,
                        conflictReplica: i32, conflictInstance: i32, conflictStatus: byte)

  /** What a read gives: a value and the bytes after it, or an error. */
  datatype Parsed<+T> = Failed | Got(value: T, rest: seq<byte>)

  // ----- Fixed-width integers -----

  function Pow(k: nat): nat {
    if k == 0 then 1 else 256 * Pow(k - 1)
  }

  function PutLE(k: nat, u: nat): (b: seq<byte>)
    ensures |b| == k
  {
    if k == 0 then [] else [(u % 256) as byte] + PutLE(k - 1, u / 256)
  }

  function GetLE(b: seq<byte>): nat {
    if b == [] then 0 else b[0] as nat + 256 * GetLE(b[1..])
  }

  lemma {:induction false} GetPut(k: nat, u: nat)
    requires u < Pow(k)
    ensures GetLE(PutLE(k, u)) == u
  {
    if k > 0 {
      GetPut(k - 1, u / 256);
      assert PutLE(k, u)[1..] == PutLE(k - 1, u / 256);
    }
  }

  lemma {:induction false} GetBelow(b: seq<byte>)
    ensures GetLE(b) < Pow(|b|)
  {
    if b != [] {
      GetBelow(b[1..]);
    }
  }

  lemma PowValues()
    ensures Pow(4) == 0x1_0000_0000 && Pow(8) == 0x1_0000_0000_0000_0000
  {
    assert Pow(2) == 0x1_0000;
    assert Pow(4) == 256 * Pow(3) && Pow(3) == 256 * Pow(2);
    assert Pow(6) == 256 * Pow(5) && Pow(5) == 256 * Pow(4);
    assert Pow(8) == 256 * Pow(7) && Pow(7) == 256 * Pow(6);
  }

  /** Conversion to the unsigned type of k bytes and back. */
  function Unsigned(k: nat, x: int): nat {
    if x < 0 && x + Pow(k) >= 0 then x + Pow(k) else if x < 0 then 0 else x
  }

  function Signed(k: nat, u: nat): int {
    if 2 * u < Pow(k) then u else u - Pow(k)
  }

  function PutInt(x: i32): seq<byte> {
    PutLE(4, Unsigned(4, x))
  }

  function GetInt(b: seq<byte>): i32
    requires |b| == 4
  {
    PowValues();
    GetBelow(b);
    Signed(4, GetLE(b))
  }

  lemma IntRoundTrip(x: i32)
    ensures GetInt(PutInt(x)) == x
  {
    PowValues();
    GetPut(4, Unsigned(4, x));
  }

  /** Four bytes, the least significant first, in two's complement. */
  lemma IntBytes(x: i32)
    ensures var b := PutInt(x);
            && |b| == 4
            && b[0] as int + 256 * b[1] as int + 65536 * b[2] as int + 16777216 * b[3] as int ==
               if x < 0 then x + 4294967296 else x
  {
    PowValues();
    var b, u := PutInt(x), Unsigned(4, x);
    GetPut(4, u);
    LEBytes(b);
  }

  lemma LEBytes(b: seq<byte>)
    requires |b| == 4
    ensures GetLE(b) == b[0] as nat + 256 * b[1] as nat + 65536 * b[2] as nat + 16777216 * b[3] as nat
  {
    assert b[1..][1..] == b[2..] && b[2..][1..] == b[3..] && b[3..][1..] == [];
    assert GetLE(b[3..]) == b[3] as nat + 256 * GetLE([]);
    assert GetLE(b[2..]) == b[2] as nat + 256 * GetLE(b[3..]);
    assert GetLE(b[1..]) == b[1] as nat + 256 * GetLE(b[2..]);
  }

  function PutLong(x: i64): seq<byte> {
    PutLE(8, Unsigned(8, x))
  }

  function GetLong(b: seq<byte>): i64
    requires |b| == 8
  {
    PowValues();
    GetBelow(b);
    Signed(8, GetLE(b))
  }

  lemma LongRoundTrip(x: i64)
    ensures GetLong(PutLong(x)) == x
  {
    PowValues();
    GetPut(8, Unsigned(8, x));
  }

  /** Eight bytes in the same way. */
  lemma LongBytes(x: i64)
    ensures var b := PutLong(x);
            && |b| == 8
            && b[0] as int + 256 * b[1] as int + 65536 * b[2] as int + 16777216 * b[3] as int
               + 4294967296 * (b[4] as int + 256 * b[5] as int + 65536 * b[6] as int + 16777216 * b[7] as int) ==
               if x < 0 then x + 18446744073709551616 else x
  {
    PowValues();
    var b := PutLong(x);
    GetPut(8, Unsigned(8, x));
    LEBytes(b[..4]);
    LEBytes(b[4..]);
    LESplit(b[..4], b[4..]);
    assert b == b[..4] + b[4..];
  }

  lemma {:induction false} LESplit(a: seq<byte>, b: seq<byte>)
    ensures GetLE(a + b) == GetLE(a) + Pow(|a|) * GetLE(b)
  {
    if a == [] {
      assert a + b == b;
    } else {
      LESplit(a[1..], b);
      assert (a + b)[1..] == a[1..] + b;
      Times256(Pow(|a| - 1), GetLE(b));
    }
  }

  lemma Times256(x: nat, y: nat)
    ensures 256 * (x * y) == (256 * x) * y
  {
  }

  // ----- Varints -----

  const MAX_VARINT: nat := 10

  function PutUvarint(x: nat): seq<byte> {
    if x < 128 then [x as byte] else [(x % 128 + 128) as byte] + PutUvarint(x / 128)
  }

  /** Reads from the i-th byte on; more than 64 bits are an overflow. */
  function GetUvarint(b: seq<byte>, i: nat): (r: Parsed<nat>)
    ensures r.Got? ==> |r.rest| <= |b|
    decreases |b|
  {
    if i >= MAX_VARINT || b == [] then Failed
    else if b[0] < 128 then
      if i == MAX_VARINT - 1 && b[0] > 1 then Failed else Got(b[0] as nat, b[1..])
    else
      match GetUvarint(b[1..], i + 1)
      case Failed => Failed
      case Got(high, rest) => Got(b[0] as nat - 128 + 128 * high, rest)
  }

  /** What fits when i bytes have been read. */
  function Cap(i: nat): nat
    decreases MAX_VARINT - i
  {
    if i >= MAX_VARINT - 1 then 2 else 128 * Cap(i + 1)
  }

  lemma CapValue()
    ensures Cap(0) == 0x1_0000_0000_0000_0000
  {
    assert Cap(8) == 0x100 && Cap(7) == 128 * Cap(8);
    assert Cap(6) == 128 * Cap(7) && Cap(5) == 128 * Cap(6);
    assert Cap(4) == 128 * Cap(5) && Cap(3) == 128 * Cap(4);
    assert Cap(2) == 128 * Cap(3) && Cap(1) == 128 * Cap(2);
  }

  /** The number that the low seven bits of each byte make up, the lowest first. */
  function SevenBits(b: seq<byte>): nat {
    if b == [] then 0 else b[0] as nat % 128 + 128 * SevenBits(b[1..])
  }

  /** The high bit is on all bytes but the last, and no byte is wasted. */
  lemma {:induction false} UvarintBytes(x: nat)
    ensures var b := PutUvarint(x);
            && SevenBits(b) == x
            && b != [] && (forall k :: 0 <= k < |b| ==> (b[k] >= 128 <==> k < |b| - 1))
            && (|b| > 1 ==> b[|b| - 1] > 0)
    decreases x
  {
    var b := PutUvarint(x);
    if x >= 128 {
      assert b[1..] == PutUvarint(x / 128);
      UvarintBytes(x / 128);
      assert forall k :: 0 < k < |b| ==> b[k] == b[1..][k - 1];
    } else {
      assert b[1..] == [];
    }
  }

  lemma {:induction false} UvarintRoundTrip(x: nat, i: nat, rest: seq<byte>)
    requires i < MAX_VARINT && x < Cap(i)
    ensures GetUvarint(PutUvarint(x) + rest, i) == Got(x, rest)
    decreases x
  {
    var b := PutUvarint(x) + rest;
    if x < 128 {
      assert b[1..] == rest;
    } else {
      assert i < MAX_VARINT - 1;
      var low, high := x % 128, x / 128;
      UvarintRoundTrip(high, i + 1, rest);
      assert PutUvarint(x) == [(low + 128) as byte] + PutUvarint(high);
      assert b[0] == (low + 128) as byte && b[1..] == PutUvarint(high) + rest;
    }
  }

  lemma {:induction false} UvarintCut(x: nat, i: nat, n: nat)
    requires n < |PutUvarint(x)|
    ensures GetUvarint(PutUvarint(x)[..n], i) == Failed
    decreases x
  {
    if x >= 128 && n > 0 {
      UvarintCut(x / 128, i + 1, n - 1);
      assert PutUvarint(x)[..n][1..] == PutUvarint(x / 128)[..n - 1];
    }
  }

  // ----- Fields -----

  datatype Field = Ints(n: nat) | OneByte | Timestamp | Commands

  datatype Value = IntsV(ints: seq<i32>) | ByteV(b: byte) | TimestampV(t: u64) | CommandsV(cmds: seq<Cmd>)

  predicate Matches(f: Field, v: Value) {
    match f
    case Ints(n) => v.IntsV? && |v.ints| == n
    case OneByte => v.ByteV?
    case Timestamp => v.TimestampV?
    case Commands => v.CommandsV?
  }

  /** A list is no longer than an int64 can count. */
  predicate Fits(f: Field, v: Value) {
    Matches(f, v) && (v.CommandsV? ==> |v.cmds| < 0x8000_0000_0000_0000)
  }

  function PutInts(xs: seq<i32>): (b: seq<byte>)
    ensures |b| == 4 * |xs|
  {
    if xs == [] then [] else PutInt(xs[0]) + PutInts(xs[1..])
  }

  function GetInts(n: nat, b: seq<byte>): (xs: seq<i32>)
    requires |b| == 4 * n
    ensures |xs| == n
  {
    if n == 0 then [] else [GetInt(b[..4])] + GetInts(n - 1, b[4..])
  }

  lemma {:induction false} IntsRoundTrip(xs: seq<i32>)
    ensures GetInts(|xs|, PutInts(xs)) == xs
  {
    if xs != [] {
      IntRoundTrip(xs[0]);
      IntsRoundTrip(xs[1..]);
      assert PutInts(xs)[..4] == PutInt(xs[0]) && PutInts(xs)[4..] == PutInts(xs[1..]);
    }
  }

  const COMMAND_SIZE: nat := 17

  function PutCommand(c: Cmd): (b: seq<byte>)
    ensures |b| == COMMAND_SIZE
  {
    [c.op] + PutLong(c.k) + PutLong(c.v)
  }

  function GetCommand(b: seq<byte>): Cmd
    requires |b| == COMMAND_SIZE
  {
    Cmd(b[0], GetLong(b[1..9]), GetLong(b[9..]))
  }

  lemma CommandRoundTrip(c: Cmd)
    ensures GetCommand(PutCommand(c)) == c
  {
    LongRoundTrip(c.k);
    LongRoundTrip(c.v);
    var b := PutCommand(c);
    assert b[1..9] == PutLong(c.k) && b[9..] == PutLong(c.v);
  }

  function PutCommands(cs: seq<Cmd>): seq<byte> {
    if cs == [] then [] else PutCommand(cs[0]) + PutCommands(cs[1..])
  }

  /**
   * Errors from single commands are not looked at, but they are those of a
   * stream that has ended, and the read after the list then fails.
   */
  function GetCommands(n: nat, b: seq<byte>): (r: Parsed<seq<Cmd>>)
    ensures r.Got? ==> |r.rest| <= |b|
  {
    if n == 0 then Got([], b)
    else if |b| < COMMAND_SIZE then Failed
    else
      match GetCommands(n - 1, b[COMMAND_SIZE..])
      case Failed => Failed
      case Got(cs, rest) => Got([GetCommand(b[..COMMAND_SIZE])] + cs, rest)
  }

  lemma {:induction false} CommandsRoundTrip(cs: seq<Cmd>, rest: seq<byte>)
    ensures GetCommands(|cs|, PutCommands(cs) + rest) == Got(cs, rest)
  {
    hide GetCommand, PutCommand;
    var b := PutCommands(cs) + rest;
    if cs == [] {
      assert b == rest;
    } else {
      CommandRoundTrip(cs[0]);
      CommandsRoundTrip(cs[1..], rest);
      assert b[..COMMAND_SIZE] == PutCommand(cs[0]);
      assert b[COMMAND_SIZE..] == PutCommands(cs[1..]) + rest;
      assert [cs[0]] + cs[1..] == cs;
    }
  }

  lemma {:induction false} CommandsCut(cs: seq<Cmd>, n: nat)
    requires n < |PutCommands(cs)|
    ensures GetCommands(|cs|, PutCommands(cs)[..n]) == Failed
  {
    hide GetCommand, PutCommand;
    if cs != [] && n >= COMMAND_SIZE {
      CommandsCut(cs[1..], n - COMMAND_SIZE);
      assert PutCommands(cs)[..n][COMMAND_SIZE..] == PutCommands(cs[1..])[..n - COMMAND_SIZE];
    }
  }

  /** The zigzag code of a length is its double. */
  function Put(v: Value): seq<byte> {
    match v
    case IntsV(ints) => PutInts(ints)
    case ByteV(b) => [b]
    case TimestampV(t) => PutLE(8, t)
    case CommandsV(cmds) => PutUvarint(2 * |cmds|) + PutCommands(cmds)
  }

  /** A negative length is one the program panics on; no writer sends it. */
  function Get(f: Field, b: seq<byte>): (r: Parsed<Value>)
    ensures r.Got? ==> |r.rest| <= |b|
  {
    match f
    case Ints(n) => if |b| < 4 * n then Failed else Got(IntsV(GetInts(n, b[..4 * n])), b[4 * n..])
    case OneByte => if b == [] then Failed else Got(ByteV(b[0]), b[1..])
    case Timestamp => if |b| < 8 then Failed else Got(TimestampV(GetTimestamp(b[..8])), b[8..])
    case Commands =>
      match GetUvarint(b, 0)
      case Failed => Failed
      case Got(ux, after) =>
        if ux % 2 == 1 then Failed
        else match GetCommands(ux / 2, after)
             case Failed => Failed
             case Got(cmds, rest) => Got(CommandsV(cmds), rest)
  }

  function GetTimestamp(b: seq<byte>): u64
    requires |b| == 8
  {
    PowValues();
    GetBelow(b);
    GetLE(b)
  }

  lemma FieldRoundTrip(f: Field, v: Value, rest: seq<byte>)
    requires Fits(f, v)
    ensures Get(f, Put(v) + rest) == Got(v, rest)
  {
    hide GetUvarint, PutUvarint, GetCommands, PutCommands, GetInts, PutInts, PutLE, GetTimestamp;
    var b := Put(v) + rest;
    match v
    case IntsV(ints) =>
      IntsRoundTrip(ints);
      assert b[..4 * |ints|] == PutInts(ints) && b[4 * |ints|..] == rest;
    case ByteV(x) =>
      assert b[1..] == rest;
    case TimestampV(t) =>
      TimestampRoundTrip(t);
      assert b[..8] == PutLE(8, t) && b[8..] == rest;
    case CommandsV(cmds) =>
      CapValue();
      UvarintRoundTrip(2 * |cmds|, 0, PutCommands(cmds) + rest);
      assert b == PutUvarint(2 * |cmds|) + (PutCommands(cmds) + rest);
      CommandsRoundTrip(cmds, rest);
  }

  lemma TimestampRoundTrip(t: u64)
    ensures GetTimestamp(PutLE(8, t)) == t
  {
    PowValues();
    GetPut(8, t);
  }

  lemma FieldCut(f: Field, v: Value, n: nat)
    requires Fits(f, v) && n < |Put(v)|
    ensures Get(f, Put(v)[..n]) == Failed
  {
    if v.CommandsV? {
      var head := PutUvarint(2 * |v.cmds|);
      if n < |head| {
        UvarintCut(2 * |v.cmds|, 0, n);
        assert Put(v)[..n] == head[..n];
      } else {
        CapValue();
        CommandsCut(v.cmds, n - |head|);
        assert Put(v)[..n] == head + PutCommands(v.cmds)[..n - |head|];
        UvarintRoundTrip(2 * |v.cmds|, 0, PutCommands(v.cmds)[..n - |head|]);
      }
    }
  }

  // ----- Sequences of fields -----

  predicate AllFit(fs: seq<Field>, vs: seq<Value>) {
    |fs| == |vs| && forall i :: 0 <= i < |fs| ==> Fits(fs[i], vs[i])
  }

  predicate AllMatch(fs: seq<Field>, vs: seq<Value>) {
    |fs| == |vs| && forall i :: 0 <= i < |fs| ==> Matches(fs[i], vs[i])
  }

  function PutAll(vs: seq<Value>): seq<byte> {
    if vs == [] then [] else Put(vs[0]) + PutAll(vs[1..])
  }

  function GetAll(fs: seq<Field>, b: seq<byte>): (r: Parsed<seq<Value>>)
    ensures r.Got? ==> |r.rest| <= |b|
  {
    if fs == [] then Got([], b)
    else
      match Get(fs[0], b)
      case Failed => Failed
      case Got(v, after) =>
        match GetAll(fs[1..], after)
        case Failed => Failed
        case Got(vs, rest) => Got([v] + vs, rest)
  }

  lemma {:induction false} GetMatches(fs: seq<Field>, b: seq<byte>)
    ensures GetAll(fs, b).Got? ==> AllMatch(fs, GetAll(fs, b).value)
  {
    if fs != [] && Get(fs[0], b).Got? {
      GetMatches(fs[1..], Get(fs[0], b).rest);
    }
  }

  lemma {:induction false} FieldsRoundTrip(fs: seq<Field>, vs: seq<Value>, rest: seq<byte>)
    requires AllFit(fs, vs)
    ensures GetAll(fs, PutAll(vs) + rest) == Got(vs, rest)
  {
    hide Get, Put, Fits;
    if vs == [] {
      assert PutAll(vs) + rest == rest;
    } else {
      FieldRoundTrip(fs[0], vs[0], PutAll(vs[1..]) + rest);
      FieldsRoundTrip(fs[1..], vs[1..], rest);
      assert PutAll(vs) + rest == Put(vs[0]) + (PutAll(vs[1..]) + rest);
      assert [vs[0]] + vs[1..] == vs;
    }
  }

  lemma {:induction false} FieldsCut(fs: seq<Field>, vs: seq<Value>, n: nat)
    requires AllFit(fs, vs) && n < |PutAll(vs)|
    ensures GetAll(fs, PutAll(vs)[..n]) == Failed
  {
    hide Get, Put, Fits;
    var head := Put(vs[0]);
    if n < |head| {
      FieldCut(fs[0], vs[0], n);
      assert PutAll(vs)[..n] == head[..n];
    } else {
      var after := PutAll(vs[1..])[..n - |head|];
      FieldRoundTrip(fs[0], vs[0], after);
      FieldsCut(fs[1..], vs[1..], n - |head|);
      assert PutAll(vs)[..n] == head + after;
    }
  }

  // ----- Messages -----

  const BEACON: byte := 6
  const BEACON_REPLY: byte := 7

  /** Codes after the beacons' are given in the order of registration. */
  function Code(m: Msg): byte {
    match m
    case Beacon(_) => BEACON
    case BeaconReply(_) => BEACON_REPLY
    case Prepare(_, _, _, _) => 8
    case PrepareReply(_, _, _, _, _, _, _, _, _) => 9
    case PreAccept(_, _, _, _, _, _, _) => 10
    case PreAcceptReply(_, _, _, _, _, _, _) => 11
    case PreAcceptOK(_) => 12
    case Accept(_, _, _, _, _, _, _) => 13
    case AcceptReply(_, _, _, _) => 14
    case Commit(_, _, _, _, _, _) => 15
    case CommitShort(_, _, _, _, _, _) => 16
    case TryPreAccept(_, _, _, _, _, _, _) => 17
    case TryPreAcceptReply(_, _, _, _, _, _, _, _) => 18
  }

  predicate Known(code: byte) {
    BEACON <= code <= 18
  }

  /** What the reader of a kind of message expects. */
  function Layout(code: byte): seq<Field>
    requires Known(code)
  {
    match code
    case 6 => [Timestamp]
    case 7 => [Timestamp]
    case 8 => [Ints(4)]
    case 9 => [Ints(3), OneByte, Ints(1), OneByte, Commands, Ints(10)]
    case 10 => [Ints(4), Commands, Ints(10)]
    case 11 => [Ints(2), OneByte, Ints(16)]
    case 12 => [Ints(1)]
    case 13 => [Ints(15)]
    case 14 => [Ints(2), OneByte, Ints(1)]
    case 15 => [Ints(3), Commands, Ints(10)]
    case 16 => [Ints(14)]
    case 17 => [Ints(4), Commands, Ints(10)]
    case 18 => [Ints(3), OneByte, Ints(3), OneByte]
  }

  /**
   * What the writer puts on the wire. In a PreAcceptReply the first four
   * committed dependencies are written over the last four dependencies.
   */
  function Fields(m: Msg): seq<Value> {
    match m
    case Beacon(t) => [TimestampV(t)]
    case BeaconReply(t) => [TimestampV(t)]
    case Prepare(l, r, i, b) => [IntsV([l, r, i, b])]
    case PrepareReply(a, r, i, ok, b, st, cs, s, d) =>
      [IntsV([a, r, i]), ByteV(ok), IntsV([b]), ByteV(st), CommandsV(cs), IntsV([s] + d)]
    case PreAccept(l, r, i, b, cs, s, d) => [IntsV([l, r, i, b]), CommandsV(cs), IntsV([s] + d)]
    case PreAcceptReply(r, i, ok, b, s, d, c) => [IntsV([r, i]), ByteV(ok), IntsV([b, s] + d[..5] + c)]
    case PreAcceptOK(i) => [IntsV([i])]
    case Accept(l, r, i, b, n, s, d) => [IntsV([l, r, i, b, n, s] + d)]
    case AcceptReply(r, i, ok, b) => [IntsV([r, i]), ByteV(ok), IntsV([b])]
    case Commit(l, r, i, cs, s, d) => [IntsV([l, r, i]), CommandsV(cs), IntsV([s] + d)]
    case CommitShort(l, r, i, n, s, d) => [IntsV([l, r, i, n, s] + d)]
    case TryPreAccept(l, r, i, b, cs, s, d) => [IntsV([l, r, i, b]), CommandsV(cs), IntsV([s] + d)]
    case TryPreAcceptReply(a, r, i, ok, b, cr, ci, st) =>
      [IntsV([a, r, i]), ByteV(ok), IntsV([b, cr, ci]), ByteV(st)]
  }

  /** The message that a reader makes of the values it has read. */
  function Build(code: byte, vs: seq<Value>): Msg
    requires Known(code) && AllMatch(Layout(code), vs)
  {
    assert forall i :: 0 <= i < |vs| ==> Matches(Layout(code)[i], vs[i]);
    match code
    case 6 => Beacon(vs[0].t)
    case 7 => BeaconReply(vs[0].t)
    case 8 => var a := vs[0].ints; Prepare(a[0], a[1], a[2], a[3])
    case 9 =>
      var a, z := vs[0].ints, vs[5].ints;
      PrepareReply(a[0], a[1], a[2], vs[1].b, vs[2].ints[0], vs[3].b, vs[4].cmds, z[0], z[1..])
    case 10 => var a, z := vs[0].ints, vs[2].ints; PreAccept(a[0], a[1], a[2], a[3], vs[1].cmds, z[0], z[1..])
    case 11 =>
      var a, z := vs[0].ints, vs[2].ints;
      PreAcceptReply(a[0], a[1], vs[1].b, z[0], z[1], z[2..11], z[7..])
    case 12 => PreAcceptOK(vs[0].ints[0])
    case 13 => var a := vs[0].ints; Accept(a[0], a[1], a[2], a[3], a[4], a[5], a[6..])
    case 14 => var a := vs[0].ints; AcceptReply(a[0], a[1], vs[1].b, vs[2].ints[0])
    case 15 => var a, z := vs[0].ints, vs[2].ints; Commit(a[0], a[1], a[2], vs[1].cmds, z[0], z[1..])
    case 16 => var a := vs[0].ints; CommitShort(a[0], a[1], a[2], a[3], a[4], a[5..])
    case 17 => var a, z := vs[0].ints, vs[2].ints; TryPreAccept(a[0], a[1], a[2], a[3], vs[1].cmds, z[0], z[1..])
    case 18 =>
      var a, z := vs[0].ints, vs[2].ints;
      TryPreAcceptReply(a[0], a[1], a[2], vs[1].b, z[0], z[1], z[2], vs[3].b)
  }

  function Marshal(m: Msg): seq<byte> {
    PutAll(Fields(m))
  }

  function Unmarshal(code: byte, b: seq<byte>): (r: Parsed<Msg>)
    requires Known(code)
    ensures r.Got? ==> |r.rest| <= |b|
  {
    match GetAll(Layout(code), b)
    case Failed => Failed
    case Got(vs, rest) => GetMatches(Layout(code), b); Got(Build(code, vs), rest)
  }

  /** Lists are no longer than an int64 can count. */
  predicate Countable(m: Msg) {
    (m.PrepareReply? || m.PreAccept? || m.Commit? || m.TryPreAccept?) ==> |m.command| < 0x8000_0000_0000_0000
  }

  /** What a message is after it has been sent. */
  function Received(m: Msg): Msg {
    match m
    case PreAcceptReply(r, i, ok, b, s, d, c) => PreAcceptReply(r, i, ok, b, s, d[..5] + c[..4], c)
    case _ => m
  }

  lemma FieldsFit(m: Msg)
    requires Countable(m)
    ensures Known(Code(m)) && AllFit(Layout(Code(m)), Fields(m))
  {
  }

  lemma BuildFields(m: Msg)
    requires AllMatch(Layout(Code(m)), Fields(m))
    ensures Build(Code(m), Fields(m)) == Received(m)
  {
    var vs := Fields(m);
    match m
    case PreAcceptReply(r, i, ok, b, s, d, c) =>
      var z := vs[2].ints;
      assert z == [b, s] + d[..5] + c;
      assert z[2..11] == d[..5] + c[..4] && z[7..] == c;
    case PrepareReply(a, r, i, ok, b, st, cs, s, d) => assert vs[5].ints[1..] == d;
    case PreAccept(l, r, i, b, cs, s, d) => assert vs[2].ints[1..] == d;
    case TryPreAccept(l, r, i, b, cs, s, d) => assert vs[2].ints[1..] == d;
    case Commit(l, r, i, cs, s, d) => assert vs[2].ints[1..] == d;
    case Accept(l, r, i, b, n, s, d) => assert vs[0].ints[6..] == d;
    case CommitShort(l, r, i, n, s, d) => assert vs[0].ints[5..] == d;
    case _ =>
  }

  /** Reading consumes exactly what was written. */
  lemma MessageRoundTrip(m: Msg, rest: seq<byte>)
    requires Countable(m)
    ensures Known(Code(m)) && Unmarshal(Code(m), Marshal(m) + rest) == Got(Received(m), rest)
  {
    hide Layout, Fields, Build, PutAll, GetAll, Received, Countable, Code, Known;
    FieldsFit(m);
    assert AllMatch(Layout(Code(m)), Fields(m));
    FieldsRoundTrip(Layout(Code(m)), Fields(m), rest);
    BuildFields(m);
  }

  /**
   * A message comes through unchanged exactly when the words that overlap are
   * equal: nothing is lost but in a PreAcceptReply, and there only the last four
   * dependencies.
   */
  lemma UnchangedExact(m: Msg, rest: seq<byte>)
    requires Countable(m)
    ensures Known(Code(m))
    ensures Unmarshal(Code(m), Marshal(m) + rest) == Got(m, rest) <==>
            (m.PreAcceptReply? ==> m.deps[5..] == m.committedDeps[..4])
  {
    hide Unmarshal, Marshal, Countable;
    MessageRoundTrip(m, rest);
    if m.PreAcceptReply? {
      var d := m.deps[..5] + m.committedDeps[..4];
      assert d[5..] == m.committedDeps[..4] && m.deps == m.deps[..5] + m.deps[5..];
    }
  }

  /**
   * With three replicas, the answer to the first proposal for a key that an
   * acceptor already knows from the third row: dependencies beyond the rows in
   * use are zero, nothing is committed, and the answer arrives changed.
   */
  lemma FirstReplyChanged(rest: seq<byte>)
    ensures var m := PreAcceptReply(0, 0, 1, 0, 1, [-1, -1, 0, 0, 0, 0, 0, 0, 0], [-1, -1, -1, -1, -1, -1, -1, -1, -1]);
            Known(Code(m)) && Unmarshal(Code(m), Marshal(m) + rest) ==
              Got(PreAcceptReply(0, 0, 1, 0, 1, [-1, -1, 0, 0, 0, -1, -1, -1, -1], m.committedDeps), rest) != Got(m, rest)
  {
    hide Unmarshal, Marshal;
    var m := PreAcceptReply(0, 0, 1, 0, 1, [-1, -1, 0, 0, 0, 0, 0, 0, 0], [-1, -1, -1, -1, -1, -1, -1, -1, -1]);
    MessageRoundTrip(m, rest);
    assert Received(m).deps == [-1, -1, 0, 0, 0, -1, -1, -1, -1];
    assert Received(m).deps[5] != m.deps[5];
  }

  lemma MessageCut(m: Msg, n: nat)
    requires Countable(m) && n < |Marshal(m)|
    ensures Known(Code(m)) && Unmarshal(Code(m), Marshal(m)[..n]) == Failed
  {
    hide Layout, Fields, Build, PutAll, GetAll, Countable, Code, Known;
    FieldsFit(m);
    FieldsCut(Layout(Code(m)), Fields(m), n);
  }

  // ----- Streams -----

  function Framed(m: Msg): seq<byte> {
    [Code(m)] + Marshal(m)
  }

  /** The words of a list of numbers. */
  lemma {:induction false} IntsAt(xs: seq<i32>, k: nat)
    requires k < |xs|
    ensures PutInts(xs)[4 * k..4 * k + 4] == PutInt(xs[k])
  {
    hide PutInt;
    if k > 0 {
      IntsAt(xs[1..], k - 1);
      assert PutInts(xs)[4..] == PutInts(xs[1..]);
      assert PutInts(xs)[4 * k..4 * k + 4] == PutInts(xs[1..])[4 * (k - 1)..4 * (k - 1) + 4];
    }
  }

  /** A list of commands: twice its length as a varint, and then seventeen bytes for each. */
  function Batch(cs: seq<Cmd>): seq<byte> {
    PutUvarint(2 * |cs|) + PutCommands(cs)
  }

  lemma {:induction false} CommandsAt(cs: seq<Cmd>, k: nat)
    requires k < |cs|
    ensures 17 * k + 17 <= |PutCommands(cs)|
    ensures PutCommands(cs)[17 * k..17 * k + 17] == [cs[k].op] + PutLong(cs[k].k) + PutLong(cs[k].v)
  {
    hide PutLong;
    if k > 0 {
      CommandsAt(cs[1..], k - 1);
      assert PutCommands(cs)[17..] == PutCommands(cs[1..]);
      assert PutCommands(cs)[17 * k..17 * k + 17] == PutCommands(cs[1..])[17 * (k - 1)..17 * (k - 1) + 17];
    }
  }

  /** Every kind of message on the wire: its code, and its fields in order. */
  function Parts(m: Msg): seq<seq<byte>> {
    match m
    case Beacon(t) => [[6], PutLE(8, t)]
    case BeaconReply(t) => [[7], PutLE(8, t)]
    case Prepare(l, r, i, b) => [[8], PutInts([l, r, i, b])]
    case PrepareReply(a, r, i, ok, b, st, cs, s, d) =>
      [[9], PutInts([a, r, i]), [ok], PutInts([b]), [st], Batch(cs), PutInts([s] + d)]
    case PreAccept(l, r, i, b, cs, s, d) => [[10], PutInts([l, r, i, b]), Batch(cs), PutInts([s] + d)]
    case PreAcceptReply(r, i, ok, b, s, d, c) =>
      [[11], PutInts([r, i]), [ok], PutInts([b, s, d[0], d[1], d[2], d[3], d[4]] + c)]
    case PreAcceptOK(i) => [[12], PutInts([i])]
    case Accept(l, r, i, b, n, s, d) => [[13], PutInts([l, r, i, b, n, s] + d)]
    case AcceptReply(r, i, ok, b) => [[14], PutInts([r, i]), [ok], PutInts([b])]
    case Commit(l, r, i, cs, s, d) => [[15], PutInts([l, r, i]), Batch(cs), PutInts([s] + d)]
    case CommitShort(l, r, i, n, s, d) => [[16], PutInts([l, r, i, n, s] + d)]
    case TryPreAccept(l, r, i, b, cs, s, d) => [[17], PutInts([l, r, i, b]), Batch(cs), PutInts([s] + d)]
    case TryPreAcceptReply(a, r, i, ok, b, cr, ci, st) =>
      [[18], PutInts([a, r, i]), [ok], PutInts([b, cr, ci]), [st]]
  }

  function Joined(parts: seq<seq<byte>>): seq<byte> {
    if parts == [] then [] else parts[0] + Joined(parts[1..])
  }

  /** A message goes out as its code and its fields, one after the other. */
  lemma FramedExact(m: Msg)
    ensures Framed(m) == Joined(Parts(m))
  {
    hide PutInts, PutUvarint, PutCommands, PutLE;
    if m.PreAcceptReply? {
      var d := m.deps;
      assert [m.ballot, m.seqNum] + d[..5] + m.committedDeps
             == [m.ballot, m.seqNum, d[0], d[1], d[2], d[3], d[4]] + m.committedDeps;
    }
    JoinedAll(Fields(m), Parts(m)[1..]);
  }

  lemma {:induction false} JoinedAll(vs: seq<Value>, parts: seq<seq<byte>>)
    requires |vs| == |parts| && forall i :: 0 <= i < |vs| ==> parts[i] == Put(vs[i])
    ensures PutAll(vs) == Joined(parts)
  {
    hide Put;
    if vs != [] {
      JoinedAll(vs[1..], parts[1..]);
    }
  }

  /** What the sender writes to a peer's connection. */
  function Stream(ms: seq<Msg>): seq<byte> {
    if ms == [] then [] else Framed(ms[0]) + Stream(ms[1..])
  }

  /** The listener's loop; a byte that is no known code is reported and skipped. */
  function Listen(b: seq<byte>): seq<Msg>
    decreases |b|
  {
    if b == [] then []
    else if !Known(b[0]) then Listen(b[1..])
    else
      match Unmarshal(b[0], b[1..])
      case Failed => []
      case Got(m, rest) => [m] + Listen(rest)
  }

  function AllReceived(ms: seq<Msg>): (r: seq<Msg>)
    ensures |r| == |ms| && forall i :: 0 <= i < |ms| ==> r[i] == Received(ms[i])
  {
    seq(|ms|, i requires 0 <= i < |ms| => Received(ms[i]))
  }

  lemma ListenFirst(m: Msg, rest: seq<byte>)
    requires Countable(m)
    ensures Listen(Framed(m) + rest) == [Received(m)] + Listen(rest)
  {
    hide Unmarshal, Marshal, Received, Code, Known, Countable;
    MessageRoundTrip(m, rest);
    assert (Framed(m) + rest)[1..] == Marshal(m) + rest;
  }

  /** The listener finds the messages that were queued for it, in order. */
  lemma {:induction false} StreamRoundTrip(ms: seq<Msg>)
    requires forall m :: m in ms ==> Countable(m)
    ensures Listen(Stream(ms)) == AllReceived(ms)
  {
    hide Received, Framed, Countable;
    if ms != [] {
      ListenFirst(ms[0], Stream(ms[1..]));
      StreamRoundTrip(ms[1..]);
      assert AllReceived(ms) == [Received(ms[0])] + AllReceived(ms[1..]);
    }
  }

  /** When the connection breaks, the listener has the messages that came whole, and nothing of the next one. */
  lemma {:induction false} StreamCut(ms: seq<Msg>, n: nat) returns (k: nat)
    requires (forall m :: m in ms ==> Countable(m)) && n <= |Stream(ms)|
    ensures k <= |ms| && |Stream(ms[..k])| <= n && (k < |ms| ==> n < |Stream(ms[..k + 1])|)
    ensures Listen(Stream(ms)[..n]) == AllReceived(ms[..k])
  {
    hide Received, Framed, Countable, Listen;
    if ms == [] {
      k := 0;
      StreamRoundTrip([]);
      assert Stream(ms)[..n] == Stream([]);
    } else {
      var head := Framed(ms[0]);
      if n < |head| {
        k := 0;
        CutFirst(ms[0], n);
        assert Stream(ms)[..n] == head[..n];
        assert ms[..1] == [ms[0]] && ms[..1][1..] == [];
        assert Stream(ms[..1]) == head + Stream([]);
      } else {
        var j := StreamCut(ms[1..], n - |head|);
        k := j + 1;
        StreamStep(ms, j);
        if k < |ms| { StreamStep(ms, j + 1); }
        ListenFirst(ms[0], Stream(ms[1..])[..n - |head|]);
        assert Stream(ms)[..n] == head + Stream(ms[1..])[..n - |head|];
        assert AllReceived(ms[..k]) == [Received(ms[0])] + AllReceived(ms[1..][..j]);
      }
    }
  }

  lemma StreamStep(ms: seq<Msg>, j: nat)
    requires j < |ms|
    ensures ms[..j + 1][0] == ms[0] && ms[..j + 1][1..] == ms[1..][..j]
    ensures Stream(ms[..j + 1]) == Framed(ms[0]) + Stream(ms[1..][..j])
  {
    hide Framed;
    assert ms[..j + 1][1..] == ms[1..][..j];
  }

  lemma CutFirst(m: Msg, n: nat)
    requires Countable(m) && n < |Framed(m)|
    ensures Listen(Framed(m)[..n]) == []
  {
    if n > 0 {
      MessageCut(m, n - 1);
      assert Framed(m)[..n][1..] == Marshal(m)[..n - 1];
    }
  }

  // ----- The writer of PreAcceptReply, in its buffer -----

  method StoreInt(b: array<byte>, at: nat, x: i32)
    requires at + 4 <= b.Length
    modifies b
    ensures b[..] == old(b[..at]) + PutInt(x) + old(b[at + 4..])
  {
    var u := Unsigned(4, x);
    b[at] := (u % 256) as byte;
    b[at + 1] := (u / 256 % 256) as byte;
    b[at + 2] := (u / 256 / 256 % 256) as byte;
    b[at + 3] := (u / 256 / 256 / 256 % 256) as byte;
    FourBytes(u);
  }

  lemma FourBytes(u: nat)
    ensures PutLE(4, u) == [(u % 256) as byte, (u / 256 % 256) as byte, (u / 256 / 256 % 256) as byte,
                            (u / 256 / 256 / 256 % 256) as byte]
  {
    var v := u / 256 / 256;
    assert PutLE(1, v / 256) == [(v / 256 % 256) as byte] + PutLE(0, v / 256 / 256);
    assert PutLE(2, v) == [(v % 256) as byte] + PutLE(1, v / 256);
    assert PutLE(3, u / 256) == [(u / 256 % 256) as byte] + PutLE(2, v);
  }

  /** A run of stores, one word after the other. */
  method StoreInts(b: array<byte>, at: nat, xs: seq<i32>)
    requires at + 4 * |xs| <= b.Length
    modifies b
    ensures b[..] == old(b[..at]) + PutInts(xs) + old(b[at + 4 * |xs|..])
  {
    ghost var was := b[..];
    assert was == was[..at] + PutInts(xs[..0]) + was[at..];
    for k := 0 to |xs|
      invariant b[..] == was[..at] + PutInts(xs[..k]) + was[at + 4 * k..]
    {
      ghost var before := b[..];
      StoreInt(b, at + 4 * k, xs[k]);
      PutIntsMore(xs, k);
      OneMoreWord(was, at, PutInts(xs[..k]), PutInt(xs[k]), before, b[..]);
    }
    assert xs[..|xs|] == xs;
  }

  /** The words stored so far, and one more. */
  lemma OneMoreWord(was: seq<byte>, at: nat, stored: seq<byte>, word: seq<byte>, before: seq<byte>, after: seq<byte>)
    requires at + |stored| + 4 <= |was| && |word| == 4
    requires before == was[..at] + stored + was[at + |stored|..]
    requires after == before[..at + |stored|] + word + before[at + |stored| + 4..]
    ensures after == was[..at] + (stored + word) + was[at + |stored| + 4..]
  {
    assert before[..at + |stored|] == was[..at] + stored;
    assert before[at + |stored| + 4..] == was[at + |stored| + 4..];
    Associative(was[..at], stored, word);
  }

  lemma {:induction false} PutIntsJoin(a: seq<i32>, b: seq<i32>)
    ensures PutInts(a + b) == PutInts(a) + PutInts(b)
  {
    hide PutInt;
    if a == [] {
      assert a + b == b;
    } else {
      PutIntsJoin(a[1..], b);
      assert (a + b)[1..] == a[1..] + b && (a + b)[0] == a[0];
      Associative(PutInt(a[0]), PutInts(a[1..]), PutInts(b));
    }
  }

  lemma PutIntsMore(xs: seq<i32>, k: nat)
    requires k < |xs|
    ensures PutInts(xs[..k + 1]) == PutInts(xs[..k]) + PutInt(xs[k])
  {
    hide PutInt;
    PutIntsJoin(xs[..k], [xs[k]]);
    assert xs[..k + 1] == xs[..k] + [xs[k]] && [xs[k]][1..] == [];
    assert PutInts([xs[k]]) == PutInt(xs[k]) + [];
  }

  /** The two runs of stores overlap in sixteen bytes; the second one wins. */
  method MarshalPreAcceptReply(m: Msg) returns (wire: seq<byte>)
    requires m.PreAcceptReply?
    ensures wire == Marshal(m)
  {
    hide PutInts, Marshal, PutInt;
    var b := new byte[73];
    StoreInts(b, 0, [m.replica, m.instance]);
    b[8] := m.ok;
    StoreInts(b, 9, [m.ballot, m.seqNum]);
    ghost var head := b[..17];
    assert head == PutInts([m.replica, m.instance]) + [m.ok] + PutInts([m.ballot, m.seqNum]);
    StoreInts(b, 17, m.deps);
    ghost var both := b[..];
    assert both[..17] == head && both[17..53] == PutInts(m.deps);
    StoreInts(b, 37, m.committedDeps);
    wire := b[..];
    OverlapBytes(m, both);
  }

  lemma OverlapBytes(m: Msg, both: seq<byte>)
    requires m.PreAcceptReply? && |both| == 73 && both[17..53] == PutInts(m.deps)
    requires both[..17] == PutInts([m.replica, m.instance]) + [m.ok] + PutInts([m.ballot, m.seqNum])
    ensures both[..37] + PutInts(m.committedDeps) + both[73..] == Marshal(m)
  {
    hide PutInts, PutInt, Marshal;
    var front := m.deps[..5];
    assert m.deps == front + m.deps[5..];
    PutIntsJoin(front, m.deps[5..]);
    assert both[17..37] == both[17..53][..20] == PutInts(front);
    PutIntsJoin([m.ballot, m.seqNum], front);
    PutIntsJoin([m.ballot, m.seqNum] + front, m.committedDeps);
    assert both[..37] == both[..17] + both[17..37];
    ReplyBytes(m);
  }

  lemma ReplyBytes(m: Msg)
    requires m.PreAcceptReply?
    ensures Marshal(m) == PutInts([m.replica, m.instance]) + [m.ok]
                          + PutInts([m.ballot, m.seqNum] + m.deps[..5] + m.committedDeps)
  {
    hide PutInts, PutInt;
    var vs := Fields(m);
    assert vs[1..][1..] == [vs[2]] && [vs[2]][1..] == [];
    assert PutAll([vs[2]]) == Put(vs[2]) + [];
    assert PutAll(vs[1..]) == Put(vs[1]) + PutAll([vs[2]]);
    Associative(Put(vs[0]), Put(vs[1]), Put(vs[2]));
  }
}

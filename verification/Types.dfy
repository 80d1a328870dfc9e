/**
 * Identifiers, commands and the interference relation shared by the whole
 * EPaxos model.
 */
module Types {

  datatype Option<+T> = None | Some(value: T)

  /** Joining three sequences either way gives the same. */
  lemma Associative<T>(a: seq<T>, b: seq<T>, c: seq<T>)
    ensures a + b + c == a + (b + c)
  {
  }

  type ReplicaID = nat
  type InstanceNum = nat
  type SeqNum = nat

  /** A slot in the row of instances that one replica leads. */
  datatype InstanceID = InstanceID(replica: ReplicaID, num: InstanceNum)

  /** Positions in the ordered key space. */
  type Key = int

  /**
   * A single key, or the half-open range of keys [key, endKey).
   */
  datatype Span = Point(key: Key) | Range(key: Key, endKey: Key)
  {
    /** The end key must order strictly after the key. */
    predicate WellFormed() {
      Range? ==> key < endKey
    }

    function End(): Key {
      if Point? then key + 1 else endKey
    }

    predicate Contains(k: Key) {
      key <= k < End()
    }

    function Keys(): set<Key> {
      set k: Key | key <= k < End() && Contains(k)
    }

    /** The four-way comparison of end points. */
    predicate Overlaps(o: Span) {
      if Point? && o.Point? then key == o.key
      else if Point? then o.key <= key < o.endKey
      else if o.Point? then key <= o.key < endKey
      else endKey > o.key && key < o.endKey
    }
  }

  /** Operations of the benchmark's key/value state machine. */
  datatype Operation = NONE | PUT | GET | DELETE | RLOCK | WLOCK

  datatype KvCommand = KvCommand(op: Operation, k: int, v: int)

  /** A consensus command: the keys it touches, whether it writes, its payload. */
  datatype Command = Command(id: nat, span: Span, writing: bool, data: Option<KvCommand>)
  {
    predicate Interferes(o: Command) {
      (writing || o.writing) && span.Overlaps(o.span)
    }
  }

  /** Sequence number and dependencies: what the replicas agree on for a command. */
  datatype Attrs = Attrs(seqNum: SeqNum, deps: set<InstanceID>)

  function Max(a: nat, b: nat): nat {
    if a > b then a else b
  }

  /** Overlapping end points mean a shared key, for spans a client may send. */
  lemma OverlapsIffSharedKey(s: Span, o: Span)
    requires s.WellFormed() && o.WellFormed()
    ensures s.Overlaps(o) <==> exists k :: k in s.Keys() && k in o.Keys()
  {
    if s.Overlaps(o) {
      var k := if s.key > o.key then s.key else o.key;
      assert s.Contains(k) && o.Contains(k);
      assert k in s.Keys() && k in o.Keys();
    }
  }

  lemma InterferesSymmetric(a: Command, b: Command)
    ensures a.Interferes(b) <==> b.Interferes(a)
  {
  }

  /** k is the single key of s, or lies in its half-open range. */
  predicate InSpan(s: Span, k: Key) {
    match s
    case Point(key) => k == key
    case Range(key, endKey) => key <= k < endKey
  }

  /** One of them writes, and some key lies in both spans. */
  lemma InterferesExact(a: Command, b: Command)
    requires a.span.WellFormed() && b.span.WellFormed()
    ensures a.Interferes(b) <==>
            && (a.writing || b.writing)
            && exists k :: InSpan(a.span, k) && InSpan(b.span, k)
  {
    if a.span.Overlaps(b.span) {
      var k := if a.span.key > b.span.key then a.span.key else b.span.key;
      assert InSpan(a.span, k) && InSpan(b.span, k);
    }
  }
}

/**
 * The adapter's outbox: the loop that receives Ready appends messages under a
 * mutex and leaves a token in a one-slot channel; one sender goroutine takes the
 * whole queue at a time and sends each peer its part.
 */
module Outbox {
  import opened Types
  import opened State
  import C = Cluster

  /** The messages addressed to p, in order. */
  function To(ms: seq<Message>, p: ReplicaID): seq<Message> {
    if ms == [] then []
    else To(ms[..|ms| - 1], p) + if ms[|ms| - 1].to == p then [ms[|ms| - 1]] else []
  }

  lemma {:induction false} ToJoin(a: seq<Message>, b: seq<Message>, p: ReplicaID)
    ensures To(a + b, p) == To(a, p) + To(b, p)
  {
    if b == [] {
      assert a + b == a;
    } else {
      var l := |b| - 1;
      ToJoin(a, b[..l], p);
      assert (a + b)[..|a + b| - 1] == a + b[..l] && (a + b)[|a + b| - 1] == b[l];
      Associative(To(a, p), To(b[..l], p), if b[l].to == p then [b[l]] else []);
    }
  }

  lemma {:induction false} ToNobody(ms: seq<Message>, p: ReplicaID)
    ensures To(ms, p) == [] <==> forall m :: m in ms ==> m.to != p
  {
    if ms != [] {
      ToNobody(ms[..|ms| - 1], p);
      assert ms == ms[..|ms| - 1] + [ms[|ms| - 1]];
    }
  }

  /** How many of the first i messages are addressed to p. */
  function CountTo(ms: seq<Message>, p: ReplicaID, i: nat): nat
    requires i <= |ms|
  {
    if i == 0 then 0 else CountTo(ms, p, i - 1) + if ms[i - 1].to == p then 1 else 0
  }

  /** list holds the messages addressed to p, each where those before it put it. */
  ghost predicate Picks(list: seq<Message>, ms: seq<Message>, p: ReplicaID) {
    && |list| == CountTo(ms, p, |ms|)
    && forall i: nat :: i < |ms| && ms[i].to == p ==> CountTo(ms, p, i) < |list| && list[CountTo(ms, p, i)] == ms[i]
  }

  lemma {:induction false} CountToOf(a: seq<Message>, b: seq<Message>, p: ReplicaID, i: nat)
    requires i <= |a| && a <= b
    ensures CountTo(a, p, i) == CountTo(b, p, i)
  {
    if i > 0 {
      CountToOf(a, b, p, i - 1);
    }
  }

  lemma {:induction false} ToPicks(ms: seq<Message>, p: ReplicaID)
    ensures Picks(To(ms, p), ms, p)
  {
    if ms != [] {
      var l := |ms| - 1;
      ToPicks(ms[..l], p);
      CountToOf(ms[..l], ms, p, l);
      forall i: nat | i < |ms| && ms[i].to == p
        ensures CountTo(ms, p, i) < |To(ms, p)| && To(ms, p)[CountTo(ms, p, i)] == ms[i]
      {
        if i < l {
          CountToOf(ms[..l], ms, p, i);
          assert ms[..l][i] == ms[i];
        }
      }
    }
  }

  /** The batch by peer: each other addressee's messages, all of them and in order. */
  ghost predicate Parts(self: ReplicaID, batch: seq<Message>, byPeer: map<ReplicaID, seq<Message>>) {
    && (forall p :: p in byPeer <==> p != self && exists i :: 0 <= i < |batch| && batch[i].to == p)
    && (forall p :: p in byPeer ==> Picks(byPeer[p], batch, p))
  }

  lemma GroupedParts(self: ReplicaID, batch: seq<Message>)
    ensures Parts(self, batch, Grouped(self, batch))
  {
    hide To, Picks;
    var byPeer := Grouped(self, batch);
    forall p ensures p in byPeer <==> p != self && exists i :: 0 <= i < |batch| && batch[i].to == p {
    }
    forall p | p in byPeer ensures Picks(byPeer[p], batch, p) {
      ToPicks(batch, p);
    }
  }

  /** What the sender goroutine is about: blocked on the channel, in its inner loop, or sending. */
  datatype Sender = Waiting | Draining | Sending(byPeer: map<ReplicaID, seq<Message>>)

  /**
   * Fields of the server, where its two goroutines are, and three records: what
   * was enqueued, what each peer was sent, and the peers a send has failed to.
   */
  datatype Queue = Queue(
    outbox: seq<Message>,
    woken: bool,
    signalling: bool,
    sender: Sender,
    enqueued: seq<Message>,
    sent: map<ReplicaID, seq<Message>>,
    failed: set<ReplicaID>)

  const EMPTY: Queue := Queue([], false, false, Waiting, [], map[], {})

  function SentTo(q: Queue, p: ReplicaID): seq<Message> {
    if p in q.sent then q.sent[p] else []
  }

  function InHand(q: Queue, p: ReplicaID): seq<Message> {
    if q.sender.Sending? && p in q.sender.byPeer then q.sender.byPeer[p] else []
  }

  // ----- Atomic steps -----

  function AppendStep(q: Queue, ms: seq<Message>): Queue {
    if ms == [] then q else q.(outbox := q.outbox + ms, enqueued := q.enqueued + ms, signalling := true)
  }

  function SignalStep(q: Queue): Queue {
    q.(woken := true, signalling := false)
  }

  function WakeStep(q: Queue): Queue {
    q.(woken := false, sender := Draining)
  }

  /** The messages of a batch by peer, without those to the replica itself. */
  function Grouped(self: ReplicaID, batch: seq<Message>): map<ReplicaID, seq<Message>> {
    map p | p in Peers(self, batch) :: To(batch, p)
  }

  function Peers(self: ReplicaID, batch: seq<Message>): set<ReplicaID> {
    set m | m in batch && m.to != self :: m.to
  }

  function TakeStep(q: Queue, self: ReplicaID): Queue {
    if q.outbox == [] then q.(sender := Waiting)
    else q.(outbox := [], sender := Sending(Grouped(self, q.outbox)))
  }

  /** A stream to p, which takes the first n messages; it may also fail to close after all of them. */
  function SendStep(q: Queue, p: ReplicaID, n: nat, closed: bool): Queue
    requires q.sender.Sending? && p in q.sender.byPeer && n <= |q.sender.byPeer[p]|
  {
    var list := q.sender.byPeer[p];
    q.(sent := q.sent[p := SentTo(q, p) + list[..n]], sender := Sending(q.sender.byPeer - {p}),
       failed := if n < |list| || !closed then q.failed + {p} else q.failed)
  }

  function DoneStep(q: Queue): Queue {
    q.(sender := Draining)
  }

  datatype Action = Append(ms: seq<Message>) | Signal | Wake | Take | Send(p: ReplicaID, n: nat, closed: bool) | Done

  /** There is one enqueuer, so it has signalled before it appends again. */
  predicate Enabled(q: Queue, a: Action) {
    match a
    case Append(_) => !q.signalling
    case Signal => q.signalling
    case Wake => q.sender.Waiting? && q.woken
    case Take => q.sender.Draining?
    case Send(p, n, _) => q.sender.Sending? && p in q.sender.byPeer && n <= |q.sender.byPeer[p]|
    case Done => q.sender.Sending? && q.sender.byPeer == map[]
  }

  function Next(self: ReplicaID, q: Queue, a: Action): Queue
    requires Enabled(q, a)
  {
    match a
    case Append(ms) => AppendStep(q, ms)
    case Signal => SignalStep(q)
    case Wake => WakeStep(q)
    case Take => TakeStep(q, self)
    case Send(p, n, closed) => SendStep(q, p, n, closed)
    case Done => DoneStep(q)
  }

  /** The state after the actions, if each was enabled in its turn. */
  function After(self: ReplicaID, q: Queue, run: seq<Action>): Option<Queue> {
    if run == [] then Some(q)
    else
      var before := After(self, q, run[..|run| - 1]);
      if before.Some? && Enabled(before.value, run[|run| - 1]) then Some(Next(self, before.value, run[|run| - 1]))
      else None
  }

  // ----- Invariants -----

  predicate NoLostWakeup(q: Queue) {
    q.outbox != [] ==> q.woken || q.signalling || !q.sender.Waiting?
  }

  /** Every message to p, unless a send to p failed, is sent, in hand or queued, in order and once. */
  predicate Conserved(self: ReplicaID, q: Queue, p: ReplicaID) {
    p != self && p !in q.failed ==>
      SentTo(q, p) + InHand(q, p) + To(q.outbox, p) == To(q.enqueued, p)
  }

  /** b is a with some messages left out. */
  predicate Subsequence(b: seq<Message>, a: seq<Message>) {
    b == [] || (a != [] &&
      ((b[|b| - 1] == a[|a| - 1] && Subsequence(b[..|b| - 1], a[..|a| - 1])) || Subsequence(b, a[..|a| - 1])))
  }

  /** Failed sends leave gaps, but never reorder, repeat or misdirect. */
  predicate Ordered(q: Queue, p: ReplicaID) {
    Subsequence(SentTo(q, p) + InHand(q, p) + To(q.outbox, p), To(q.enqueued, p))
  }

  predicate NothingToSelf(self: ReplicaID, q: Queue) {
    self !in q.sent && (q.sender.Sending? ==> self !in q.sender.byPeer)
  }

  ghost predicate OutboxOk(self: ReplicaID, q: Queue) {
    && NoLostWakeup(q)
    && NothingToSelf(self, q)
    && (forall p :: Conserved(self, q, p))
    && (forall p :: p != self ==> Ordered(q, p))
  }

  lemma {:induction false} SubsequenceSelf(a: seq<Message>)
    ensures Subsequence(a, a)
  {
    if a != [] {
      SubsequenceSelf(a[..|a| - 1]);
    }
  }

  lemma {:induction false} SubsequenceJoin(b: seq<Message>, a: seq<Message>, c: seq<Message>)
    requires Subsequence(b, a)
    ensures Subsequence(b + c, a + c)
  {
    if c == [] {
      assert b + c == b && a + c == a;
    } else {
      var l := |c| - 1;
      SubsequenceJoin(b, a, c[..l]);
      assert (b + c)[..|b + c| - 1] == b + c[..l] && (a + c)[..|a + c| - 1] == a + c[..l];
    }
  }

  lemma {:induction false} SubsequenceTrans(c: seq<Message>, b: seq<Message>, a: seq<Message>)
    requires Subsequence(c, b) && Subsequence(b, a)
    ensures Subsequence(c, a)
    decreases |a|
  {
    if c != [] {
      var older := a[..|a| - 1];
      if Subsequence(b, older) {
        SubsequenceTrans(c, b, older);
      } else if Subsequence(c, b[..|b| - 1]) {
        SubsequenceTrans(c, b[..|b| - 1], older);
      } else {
        SubsequenceTrans(c[..|c| - 1], b[..|b| - 1], older);
      }
    }
  }

  lemma {:induction false} SubsequencePrefix(a: seq<Message>, n: nat)
    requires n <= |a|
    ensures Subsequence(a[..n], a)
    decreases |a|
  {
    if n == |a| {
      assert a[..n] == a;
      SubsequenceSelf(a);
    } else {
      assert a[..|a| - 1][..n] == a[..n];
      SubsequencePrefix(a[..|a| - 1], n);
    }
  }

  /** Dropping the end of the middle part. */
  lemma SubsequenceDrop(x: seq<Message>, y: seq<Message>, z: seq<Message>, n: nat, a: seq<Message>)
    requires n <= |y| && Subsequence(x + y + z, a)
    ensures Subsequence(x + y[..n] + z, a)
  {
    assert (x + y)[..|x| + n] == x + y[..n];
    SubsequencePrefix(x + y, |x| + n);
    SubsequenceJoin(x + y[..n], x + y, z);
    SubsequenceTrans(x + y[..n] + z, x + y + z, a);
  }

  // ----- Every step keeps the invariants -----

  lemma AppendKeeps(self: ReplicaID, q: Queue, ms: seq<Message>, p: ReplicaID)
    requires p != self && Conserved(self, q, p) && Ordered(q, p)
    ensures Conserved(self, AppendStep(q, ms), p) && Ordered(AppendStep(q, ms), p)
  {
    hide Subsequence, To;
    ToJoin(q.outbox, ms, p);
    ToJoin(q.enqueued, ms, p);
    var held := SentTo(q, p) + InHand(q, p);
    assert held + (To(q.outbox, p) + To(ms, p)) == held + To(q.outbox, p) + To(ms, p);
    SubsequenceJoin(held + To(q.outbox, p), To(q.enqueued, p), To(ms, p));
  }

  lemma TakeKeeps(self: ReplicaID, q: Queue, p: ReplicaID)
    requires q.sender.Draining? && p != self && Conserved(self, q, p) && Ordered(q, p)
    ensures Conserved(self, TakeStep(q, self), p) && Ordered(TakeStep(q, self), p)
  {
    hide Subsequence;
    var r := TakeStep(q, self);
    if q.outbox != [] {
      ToNobody(q.outbox, p);
      assert InHand(r, p) == To(q.outbox, p);
      assert SentTo(q, p) + [] + To(q.outbox, p) == SentTo(q, p) + To(q.outbox, p) + [];
    }
  }

  lemma SendKeeps(self: ReplicaID, q: Queue, to: ReplicaID, n: nat, closed: bool, p: ReplicaID)
    requires Enabled(q, Send(to, n, closed)) && p != self && Conserved(self, q, p) && Ordered(q, p)
    ensures Conserved(self, SendStep(q, to, n, closed), p) && Ordered(SendStep(q, to, n, closed), p)
  {
    hide Subsequence, To;
    var r := SendStep(q, to, n, closed);
    if p == to {
      var list := q.sender.byPeer[p];
      SubsequenceDrop(SentTo(q, p), list, To(q.outbox, p), n, To(q.enqueued, p));
      assert SentTo(r, p) + InHand(r, p) == SentTo(q, p) + list[..n];
      assert n == |list| ==> list[..n] == list;
    }
  }

  lemma StepKeeps(self: ReplicaID, q: Queue, a: Action)
    requires OutboxOk(self, q) && Enabled(q, a)
    ensures OutboxOk(self, Next(self, q, a))
  {
    hide Conserved, Ordered, Subsequence, To;
    forall p | p != self ensures Conserved(self, Next(self, q, a), p) && Ordered(Next(self, q, a), p) {
      StepKeepsPeer(self, q, a, p);
    }
    assert Conserved(self, Next(self, q, a), self) by { NotForSelf(self, Next(self, q, a)); }
  }

  lemma NotForSelf(self: ReplicaID, q: Queue)
    ensures Conserved(self, q, self)
  {
  }

  lemma StepKeepsPeer(self: ReplicaID, q: Queue, a: Action, p: ReplicaID)
    requires Enabled(q, a) && p != self && Conserved(self, q, p) && Ordered(q, p)
    ensures Conserved(self, Next(self, q, a), p) && Ordered(Next(self, q, a), p)
  {
    hide Subsequence, To;
    match a
    case Append(ms) => AppendKeeps(self, q, ms, p);
    case Take => TakeKeeps(self, q, p);
    case Send(to, n, closed) => SendKeeps(self, q, to, n, closed, p);
    case _ =>
  }

  /** In every run. */
  lemma {:induction false} OutboxSafe(self: ReplicaID, run: seq<Action>)
    requires After(self, EMPTY, run).Some?
    ensures OutboxOk(self, After(self, EMPTY, run).value)
  {
    if run != [] {
      var older := run[..|run| - 1];
      OutboxSafe(self, older);
      StepKeeps(self, After(self, EMPTY, older).value, run[|run| - 1]);
    }
  }

  /** A send to p in the run was cut short, or its stream failed to close. */
  ghost predicate SendFailed(self: ReplicaID, run: seq<Action>, p: ReplicaID) {
    exists i :: 0 <= i < |run| && FailsAt(self, run, p, i)
  }

  predicate FailsAt(self: ReplicaID, run: seq<Action>, p: ReplicaID, i: nat)
    requires i < |run|
  {
    && run[i].Send? && run[i].p == p
    && After(self, EMPTY, run[..i]).Some?
    && (run[i].n < |InHand(After(self, EMPTY, run[..i]).value, p)| || !run[i].closed)
  }

  lemma StepFails(self: ReplicaID, q: Queue, a: Action, p: ReplicaID)
    requires Enabled(q, a)
    ensures p in Next(self, q, a).failed <==>
            p in q.failed || (a.Send? && a.p == p && (a.n < |InHand(q, p)| || !a.closed))
  {
  }

  lemma FailedMore(self: ReplicaID, run: seq<Action>, p: ReplicaID)
    requires run != []
    ensures SendFailed(self, run, p) <==> SendFailed(self, run[..|run| - 1], p) || FailsAt(self, run, p, |run| - 1)
  {
    hide After;
    var l := |run| - 1;
    forall i: nat | i < l ensures FailsAt(self, run[..l], p, i) == FailsAt(self, run, p, i) {
      assert run[..l][i] == run[i] && run[..l][..i] == run[..i];
    }
  }

  /** The peers that messages may be missing to are those of failed sends, and no others. */
  lemma {:induction false} FailedExact(self: ReplicaID, run: seq<Action>, p: ReplicaID)
    requires After(self, EMPTY, run).Some?
    ensures p in After(self, EMPTY, run).value.failed <==> SendFailed(self, run, p)
  {
    hide SendFailed, Next;
    if run != [] {
      var l := |run| - 1;
      FailedExact(self, run[..l], p);
      FailedMore(self, run, p);
      StepFails(self, After(self, EMPTY, run[..l]).value, run[l], p);
    } else {
      assert !SendFailed(self, [], p) by { NoneFailed(self, p); }
    }
  }

  lemma NoneFailed(self: ReplicaID, p: ReplicaID)
    ensures !SendFailed(self, [], p)
  {
  }

  /** All that has been handed to the outbox, in order. */
  function Handed(run: seq<Action>): seq<Message> {
    if run == [] then []
    else Handed(run[..|run| - 1]) + if run[|run| - 1].Append? then run[|run| - 1].ms else []
  }

  lemma {:induction false} EnqueuedExact(self: ReplicaID, run: seq<Action>)
    requires After(self, EMPTY, run).Some?
    ensures After(self, EMPTY, run).value.enqueued == Handed(run)
  {
    if run != [] {
      EnqueuedExact(self, run[..|run| - 1]);
    }
  }

  // ----- Progress -----

  predicate Internal(a: Action) {
    !a.Append?
  }

  /** The peers of a batch are no more than its messages. */
  lemma {:induction false} FewPeers(self: ReplicaID, batch: seq<Message>)
    ensures |Peers(self, batch)| <= |batch|
  {
    if batch != [] {
      var l := |batch| - 1;
      FewPeers(self, batch[..l]);
      assert batch == batch[..l] + [batch[l]];
      assert Peers(self, batch) <= Peers(self, batch[..l]) + {batch[l].to};
      SmallerSet(Peers(self, batch), Peers(self, batch[..l]) + {batch[l].to});
    }
  }

  lemma SmallerSet<T>(a: set<T>, b: set<T>)
    requires a <= b
    ensures |a| <= |b|
  {
    assert b == a + (b - a);
  }

  /** What is left to do when nobody enqueues. */
  function Work(q: Queue): nat {
    (if q.signalling then 5 else 0) + (if q.woken then 3 else 0)
    + (if q.outbox == [] then 0 else |q.outbox| + 2)
    + (match q.sender
       case Waiting => 0
       case Draining => 2
       case Sending(byPeer) => 3 + |byPeer|)
  }

  lemma WorkShrinks(self: ReplicaID, q: Queue, a: Action)
    requires Enabled(q, a) && Internal(a)
    ensures Work(Next(self, q, a)) < Work(q)
  {
    match a
    case Take =>
      FewPeers(self, q.outbox);
      assert Grouped(self, q.outbox).Keys == Peers(self, q.outbox);
    case Send(p, _, _) =>
      assert (q.sender.byPeer - {p}).Keys == q.sender.byPeer.Keys - {p};
    case _ =>
  }

  /** Neither goroutine can move until something is enqueued. */
  predicate Idle(q: Queue) {
    q.sender.Waiting? && !q.woken && !q.signalling
  }

  lemma IdleIffStuck(q: Queue)
    ensures Idle(q) <==> forall a :: Internal(a) ==> !Enabled(q, a)
  {
    if !Idle(q) {
      if q.signalling {
        assert Enabled(q, Signal);
      } else if q.sender.Waiting? {
        assert Enabled(q, Wake);
      } else if q.sender.Draining? {
        assert Enabled(q, Take);
      } else if q.sender.byPeer == map[] {
        assert Enabled(q, Done);
      } else {
        var p :| p in q.sender.byPeer;
        assert Enabled(q, Send(p, 0, true));
      }
    }
  }

  /**
   * Without further requests the outbox comes to rest after at most Work steps,
   * whichever goroutine moves when, and then each peer that no send failed to
   * has been sent exactly the messages enqueued for it, in order.
   */
  lemma {:induction false} Drains(self: ReplicaID, run: seq<Action>, more: seq<Action>)
    requires After(self, EMPTY, run).Some?
    requires After(self, After(self, EMPTY, run).value, more).Some?
    requires forall a :: a in more ==> Internal(a)
    ensures var q, r := After(self, EMPTY, run).value, After(self, After(self, EMPTY, run).value, more).value;
            && |more| + Work(r) <= Work(q)
            && r.enqueued == q.enqueued
            && (Idle(r) ==> r.outbox == [] && forall p :: p != self && p !in r.failed ==>
                  SentTo(r, p) == To(r.enqueued, p))
  {
    var q := After(self, EMPTY, run).value;
    DrainsFrom(self, q, more);
    var r := After(self, q, more).value;
    RunsJoin(self, run, more);
    OutboxSafe(self, run + more);
    if Idle(r) {
      forall p | p != self && p !in r.failed ensures SentTo(r, p) == To(r.enqueued, p) {
        assert Conserved(self, r, p);
        assert SentTo(r, p) + [] + [] == SentTo(r, p);
      }
    }
  }

  lemma {:induction false} DrainsFrom(self: ReplicaID, q: Queue, more: seq<Action>)
    requires After(self, q, more).Some?
    requires forall a :: a in more ==> Internal(a)
    ensures |more| + Work(After(self, q, more).value) <= Work(q)
    ensures After(self, q, more).value.enqueued == q.enqueued
  {
    if more != [] {
      var older := more[..|more| - 1];
      DrainsFrom(self, q, older);
      WorkShrinks(self, After(self, q, older).value, more[|more| - 1]);
    }
  }

  lemma {:induction false} RunsJoin(self: ReplicaID, run: seq<Action>, more: seq<Action>)
    requires After(self, EMPTY, run).Some?
    requires After(self, After(self, EMPTY, run).value, more).Some?
    ensures After(self, EMPTY, run + more) == After(self, After(self, EMPTY, run).value, more)
  {
    if more == [] {
      assert run + more == run;
    } else {
      var l := |more| - 1;
      RunsJoin(self, run, more[..l]);
      assert (run + more)[..|run + more| - 1] == run + more[..l];
    }
  }

  // ----- The links that the protocol's model reads -----

  lemma ToOne(m: Message)
    ensures To([m], m.to) == [m]
  {
    assert [m][..0] == [];
  }

  /** Reading a link position by position goes through the messages to y in the order the outbox sends them. */
  lemma LinkIsSent(c: C.Cluster, x: ReplicaID, y: ReplicaID, k: nat)
    requires x in c.nodes && C.NextOnLink(c, x, y, k)
    ensures To(c.nodes[x].msgs[..k + 1], y) == To(c.nodes[x].msgs[..C.Pos(c, x, y)], y) + [c.nodes[x].msgs[k]]
  {
    hide To;
    var ms, p := c.nodes[x].msgs, C.Pos(c, x, y);
    ToNobody(ms[p..k], y);
    ToJoin(ms[..p], ms[p..k], y);
    assert ms[..k] == ms[..p] + ms[p..k];
    assert ms[..k + 1] == ms[..k] + [ms[k]];
    ToJoin(ms[..k], [ms[k]], y);
    ToOne(ms[k]);
  }

  // ----- The code -----

  class Server {
    const id: ReplicaID
    var outbox: seq<Message>
    var outWake: bool
    var signalling: bool
    var sender: Sender
    var sent: map<ReplicaID, seq<Message>>
    ghost var enqueued: seq<Message>
    ghost var failed: set<ReplicaID>

    ghost function View(): Queue
      reads this
    {
      Queue(outbox, outWake, signalling, sender, enqueued, sent, failed)
    }

    constructor (id: ReplicaID)
      ensures this.id == id && View() == EMPTY
    {
      this.id, outbox, outWake, signalling, sender := id, [], false, false, Waiting;
      sent, enqueued, failed := map[], [], {};
    }

    /** The first half of enqueue: under the mutex. */
    method Enqueue(msgs: seq<Message>)
      requires Enabled(View(), Append(msgs))
      modifies this
      ensures View() == Next(id, old(View()), Append(msgs))
      ensures outbox == old(outbox) + msgs && enqueued == old(enqueued) + msgs && (signalling <==> msgs != [])
    {
      if |msgs| == 0 {
        return;
      }
      outbox := outbox + msgs;
      enqueued := enqueued + msgs;
      signalling := true;
    }

    /** The second half: leave a token if there is room for one. */
    method LeaveToken()
      requires Enabled(View(), Signal)
      modifies this
      ensures View() == Next(id, old(View()), Signal)
      ensures outWake && !signalling && outbox == old(outbox)
    {
      if !outWake {
        outWake := true;
      }
      signalling := false;
    }

    /** The sender receives the token. */
    method ReceiveToken()
      requires Enabled(View(), Wake)
      modifies this
      ensures View() == Next(id, old(View()), Wake)
      ensures !outWake && sender == Draining && outbox == old(outbox)
    {
      outWake := false;
      sender := Draining;
    }

    /** One turn of the sender's inner loop: takes the queue, or goes back to wait. */
    method TakeBatch()
      requires Enabled(View(), Take)
      modifies this
      ensures View() == Next(id, old(View()), Take)
      ensures outbox == [] && outWake == old(outWake)
      ensures if old(outbox) == [] then sender == Waiting
              else sender.Sending? && Parts(id, old(outbox), sender.byPeer)
    {
      hide Parts;
      if |outbox| == 0 {
        sender := Waiting;
        return;
      }
      var batch := outbox;
      outbox := [];
      var byPeer := GroupByPeer(batch);
      sender := Sending(byPeer);
    }

    /** The first loop of sendBatch. */
    method GroupByPeer(msgs: seq<Message>) returns (byPeer: map<ReplicaID, seq<Message>>)
      ensures byPeer == Grouped(id, msgs)
      ensures Parts(id, msgs, byPeer)
    {
      hide Parts;
      GroupedParts(id, msgs);
      byPeer := map[];
      for k := 0 to |msgs|
        invariant byPeer == Grouped(id, msgs[..k])
      {
        var m := msgs[k];
        GroupMore(id, msgs[..k], m);
        assert msgs[..k + 1] == msgs[..k] + [m];
        if m.to != id {
          byPeer := byPeer[m.to := (if m.to in byPeer then byPeer[m.to] else []) + [m]];
        }
      }
      assert msgs[..|msgs|] == msgs;
    }

    /** One turn of its second loop: a stream to p, which takes the first n messages and is then closed. */
    method SendTo(p: ReplicaID, n: nat, closed: bool) returns (ok: bool)
      requires Enabled(View(), Send(p, n, closed))
      modifies this
      ensures View() == Next(id, old(View()), Send(p, n, closed))
      ensures ok <==> n == |old(InHand(View(), p))| && closed
      ensures var list, was := old(InHand(View(), p)), old(SentTo(View(), p));
              && sent == old(sent)[p := was + list[..n]]
              && failed == (if n == |list| && closed then old(failed) else old(failed) + {p})
              && sender.Sending? && sender.byPeer == old(sender).byPeer - {p}
    {
      var msgs := sender.byPeer[p];
      ghost var before := SentTo(View(), p);
      if p !in sent {
        sent := sent[p := []];
      }
      ok := n == |msgs| && closed;
      assert before + msgs[..0] == before;
      for i := 0 to n
        invariant p in sent && sent == old(sent)[p := before + msgs[..i]]
        invariant outbox == old(outbox) && outWake == old(outWake) && signalling == old(signalling)
        invariant sender == old(sender) && enqueued == old(enqueued) && failed == old(failed)
      {
        sent := sent[p := sent[p] + [msgs[i]]];
        assert before + msgs[..i] + [msgs[i]] == before + msgs[..i + 1];
      }
      if !ok {
        failed := failed + {p};
      }
      sender := Sending(sender.byPeer - {p});
    }

    /** sendBatch returns to the inner loop. */
    method BatchSent()
      requires Enabled(View(), Done)
      modifies this
      ensures View() == Next(id, old(View()), Done)
    {
      sender := Draining;
    }
  }

  lemma GroupMore(self: ReplicaID, batch: seq<Message>, m: Message)
    ensures Grouped(self, batch + [m]) ==
            if m.to == self then Grouped(self, batch)
            else Grouped(self, batch)[m.to := (if m.to in Grouped(self, batch) then Grouped(self, batch)[m.to] else []) + [m]]
  {
    var more := batch + [m];
    PeersMore(self, batch, m);
    forall p ensures To(more, p) == To(batch, p) + if m.to == p then [m] else [] {
      assert more[..|more| - 1] == batch;
    }
    ToNobody(batch, m.to);
    var was, now := Grouped(self, batch), Grouped(self, more);
    var expected := if m.to == self then was else was[m.to := (if m.to in was then was[m.to] else []) + [m]];
    assert now.Keys == expected.Keys;
    forall p | p in now ensures now[p] == expected[p] {
      assert now[p] == To(more, p);
    }
  }

  lemma PeersMore(self: ReplicaID, batch: seq<Message>, m: Message)
    ensures Peers(self, batch + [m]) == Peers(self, batch) + if m.to == self then {} else {m.to}
  {
    var more := batch + [m];
    assert forall x :: x in more <==> x in batch || x == m;
    forall p ensures p in Peers(self, more) <==> p in Peers(self, batch) + if m.to == self then {} else {m.to} {
      if p == m.to && p != self { assert m in more; }
    }
  }
}

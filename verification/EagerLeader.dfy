/**
 * What the leader of an instance of the efficient EPaxos makes of the answers it
 * gets: merge, count, and commit on the fast path or ask for acceptance. Ballots
 * stay initial.
 */
module EagerLeader {
  import opened Types
  import opened EagerExecution
  import opened EagerIndex

  /** An acceptor agrees with what it was asked, or sends its own attributes and what is committed there. */
  datatype Answer = Okay | Updated(attrs: Attributes, committed: seq<int>)

  datatype Decision = Wait | SendAccept | SendCommit

  /** The values of a leader's bookkeeping. */
  datatype Book = Book(preAcceptOKs: nat, acceptOKs: nat, allEqual: bool,
                       originalDeps: seq<int>, committedDeps: seq<int>)

  function NewBook(deps: seq<int>): Book {
    Book(0, 0, true, deps, seq(|deps|, _ => -1))
  }

  class LeaderBookkeeping {
    var preAcceptOKs: nat
    var acceptOKs: nat
    var allEqual: bool
    var committedDeps: seq<int>
    const originalDeps: seq<int>

    ghost function Value(): Book
      reads this
    {
      Book(preAcceptOKs, acceptOKs, allEqual, originalDeps, committedDeps)
    }

    ghost predicate Shaped(n: nat)
      reads this
    {
      |originalDeps| == n && |committedDeps| == n
    }

    constructor (deps: seq<int>)
      ensures Value() == NewBook(deps) && Shaped(|deps|)
    {
      preAcceptOKs, acceptOKs, allEqual, originalDeps := 0, 0, true, deps;
      committedDeps := seq(|deps|, _ => -1);
    }

    /** One row's share of the loop: the most that anybody is known to have committed. */
    method NoteCommitted(more: seq<int>, upTo: seq<int>)
      requires Shaped(|more|) && |upTo| == |more|
      modifies this`committedDeps
      ensures Shaped(|more|) && committedDeps == Highest(old(committedDeps), more, upTo)
    {
      for q := 0 to |more|
        invariant Shaped(|more|)
        invariant forall p: nat :: p < |more| ==>
                    committedDeps[p] == if p < q then Highest(old(committedDeps), more, upTo)[p] else old(committedDeps)[p]
      {
        if committedDeps[q] < more[q] {
          committedDeps := committedDeps[q := more[q]];
        }
        if committedDeps[q] < upTo[q] {
          committedDeps := committedDeps[q := upTo[q]];
        }
      }
    }

    /** Whether every dependency is known to be committed somewhere. */
    method AllCommitted(deps: seq<int>) returns (r: bool)
      requires Shaped(|deps|)
      ensures r <==> Covers(committedDeps, deps)
    {
      for q := 0 to |deps|
        invariant forall p: nat :: p < q ==> deps[p] <= committedDeps[p]
      {
        if committedDeps[q] < deps[q] {
          return false;
        }
      }
      return true;
    }
  }

  predicate Covers(committed: seq<int>, deps: seq<int>) {
    |deps| == |committed| && forall q: nat :: q < |deps| ==> deps[q] <= committed[q]
  }

  function Highest(a: seq<int>, b: seq<int>, c: seq<int>): seq<int>
    requires |a| == |b| == |c|
  {
    seq(|a|, q requires 0 <= q < |a| => Larger(Larger(a[q], b[q]), c[q]))
  }

  // ----- Counting on values -----

  /** Where the leader stands with an instance: its attributes and its bookkeeping. */
  datatype Standing = Standing(attrs: Attributes, book: Book)
  {
    predicate Shaped(n: nat) {
      |attrs.deps| == n && |book.originalDeps| == n && |book.committedDeps| == n
    }
  }

  predicate AnswerShaped(a: Answer, n: nat) {
    a.Updated? ==> |a.attrs.deps| == n && |a.committed| == n
  }

  /** With more than three replicas, or thriftily, the first answer is not compared with anything. */
  predicate Compared(n: nat, thrifty: bool, k: nat) {
    (n <= 3 && !thrifty) || k > 0
  }

  /** One more answer, when upTo is the leader's committed frontier. */
  function Count(self: ReplicaID, n: nat, thrifty: bool, s: Standing, a: Answer, upTo: seq<int>): (t: Standing)
    requires s.Shaped(n) && AnswerShaped(a, n) && |upTo| == n
    ensures t.Shaped(n) && t.book.preAcceptOKs == s.book.preAcceptOKs + 1
  {
    var book := s.book.(preAcceptOKs := s.book.preAcceptOKs + 1);
    match a
    case Okay =>
      Standing(s.attrs, book.(committedDeps := Highest(book.committedDeps, book.originalDeps, upTo)))
    case Updated(attrs, committed) =>
      var equal := Compared(n, thrifty, s.book.preAcceptOKs) ==> SameOff(self, s.attrs, attrs);
      Standing(Merge(self, s.attrs, attrs),
               book.(allEqual := book.allEqual && equal,
                     committedDeps := Highest(book.committedDeps, committed, upTo)))
  }

  /** What the leader does once it has counted: half of the replicas are enough. */
  function Outcome(n: nat, s: Standing): Phase
  {
    if s.book.preAcceptOKs < n / 2 then PREACCEPTED
    else if s.book.allEqual && Covers(s.book.committedDeps, s.attrs.deps) then COMMITTED
    else ACCEPTED
  }

  function DecisionOf(p: Phase): Decision {
    if p == COMMITTED then SendCommit else if p == ACCEPTED then SendAccept else Wait
  }

  /** In each row the greatest of three. */
  ghost predicate Greatest(r: seq<int>, a: seq<int>, b: seq<int>, c: seq<int>) {
    && |r| == |a| == |b| == |c|
    && forall q: nat :: q < |r| ==> a[q] <= r[q] && b[q] <= r[q] && c[q] <= r[q] && (r[q] == a[q] || r[q] == b[q] || r[q] == c[q])
  }

  /** The greater of each of a and b, but a's own row. */
  ghost predicate Joins(self: ReplicaID, r: Attributes, a: Attributes, b: Attributes) {
    && |r.deps| == |a.deps| == |b.deps|
    && a.seqNum <= r.seqNum && b.seqNum <= r.seqNum && (r.seqNum == a.seqNum || r.seqNum == b.seqNum)
    && forall q: nat :: q < |r.deps| ==>
         if q == self then r.deps[q] == a.deps[q]
         else a.deps[q] <= r.deps[q] && b.deps[q] <= r.deps[q] && (r.deps[q] == a.deps[q] || r.deps[q] == b.deps[q])
  }

  /** One answer has been counted from s to t, said without how. */
  ghost predicate Counts(self: ReplicaID, n: nat, thrifty: bool, s: Standing, a: Answer, upTo: seq<int>, t: Standing) {
    && t.book.preAcceptOKs == s.book.preAcceptOKs + 1 && t.book.acceptOKs == s.book.acceptOKs
    && t.book.originalDeps == s.book.originalDeps
    && match a
       case Okay =>
         && t.attrs == s.attrs && t.book.allEqual == s.book.allEqual
         && Greatest(t.book.committedDeps, s.book.committedDeps, s.book.originalDeps, upTo)
       case Updated(attrs, committed) =>
         && Joins(self, t.attrs, s.attrs, attrs)
         && Greatest(t.book.committedDeps, s.book.committedDeps, committed, upTo)
         && (t.book.allEqual <==>
               s.book.allEqual
               && ((n <= 3 && !thrifty) || s.book.preAcceptOKs > 0 ==>
                     attrs.seqNum == s.attrs.seqNum
                     && forall q: nat :: q < |attrs.deps| && q < |s.attrs.deps| && q != self ==>
                          attrs.deps[q] == s.attrs.deps[q]))
  }

  /** Where the leader goes with t: nowhere before it and the answerers are a majority. */
  ghost predicate Goes(n: nat, t: Standing, next: Phase) {
    if 2 * (t.book.preAcceptOKs + 1) <= n then next == PREACCEPTED
    else if && t.book.allEqual
            && forall q: nat :: q < |t.attrs.deps| && q < |t.book.committedDeps| ==>
                 t.attrs.deps[q] <= t.book.committedDeps[q]
    then next == COMMITTED
    else next == ACCEPTED
  }

  lemma CountCounts(self: ReplicaID, n: nat, thrifty: bool, s: Standing, a: Answer, upTo: seq<int>)
    requires s.Shaped(n) && AnswerShaped(a, n) && |upTo| == n
    ensures Counts(self, n, thrifty, s, a, upTo, Count(self, n, thrifty, s, a, upTo))
  {
  }

  lemma OutcomeGoes(n: nat, t: Standing)
    requires t.Shaped(n)
    ensures Goes(n, t, Outcome(n, t))
  {
  }

  // ----- The handlers -----

  ghost function StandingOf(r: Replica, lb: LeaderBookkeeping, i: nat): Standing
    requires InstanceID(r.id, i) in r.space
    reads r, lb
  {
    var inst := r.space[InstanceID(r.id, i)];
    Standing(Attributes(inst.seqNum, inst.deps), lb.Value())
  }

  /** The leader's own instance i and the bookkeeping that belongs to it. */
  ghost predicate Leads(r: Replica, lb: LeaderBookkeeping, i: nat)
    reads r, lb
  {
    r.Shaped() && r.IndexOk() && InstanceID(r.id, i) in r.space && lb.Shaped(r.n)
  }

  twostate predicate Unmoved(r: Replica, lb: LeaderBookkeeping)
    reads r, lb
  {
    r.View() == old(r.View()) && lb.Value() == old(lb.Value())
  }

  /** The instance stands at s after the step, and has gone where that leads. */
  twostate predicate Arrives(r: Replica, lb: LeaderBookkeeping, i: nat, s: Standing, next: Phase)
    requires r.id < |old(r.View()).crtInstance|
    reads r, lb
  {
    && InstanceID(r.id, i) in r.space
    && StandingOf(r, lb, i) == s
    && r.space[InstanceID(r.id, i)].status == next
    && Stepped(r.id, old(r.View()), Decide(i, next), r.View())
  }

  /** The answer is counted, and what it leads to is done and announced. */
  twostate predicate MovesBy(r: Replica, lb: LeaderBookkeeping, thrifty: bool, i: nat, a: Answer, d: Decision)
    requires old(InstanceID(r.id, i) in r.space)
    reads r, lb
  {
    && InstanceID(r.id, i) in r.space
    && var t, next := StandingOf(r, lb, i), r.space[InstanceID(r.id, i)].status;
       && Counts(r.id, r.n, thrifty, old(StandingOf(r, lb, i)), a, old(r.committedUpTo), t)
       && Goes(r.n, t, next)
       && (d == SendCommit <==> next == COMMITTED) && (d == SendAccept <==> next == ACCEPTED)
  }

  /** The part that both kinds of answer have in common. */
  method Conclude(r: Replica, lb: LeaderBookkeeping, i: nat, merged: Attributes) returns (d: Decision)
    requires Leads(r, lb, i) && r.space[InstanceID(r.id, i)].status == PREACCEPTED && |merged.deps| == r.n
    modifies r
    ensures Leads(r, lb, i) && (old(r.FrontierOk()) ==> r.FrontierOk())
    ensures var s := Standing(merged, lb.Value());
            Arrives(r, lb, i, s, Outcome(r.n, s)) && d == DecisionOf(Outcome(r.n, s))
  {
    hide Stepped, Covers;
    var allCommitted := lb.AllCommitted(merged.deps);
    if lb.preAcceptOKs >= r.n / 2 && lb.allEqual && allCommitted {
      r.DecideOwn(i, merged, COMMITTED);
      d := SendCommit;
    } else if lb.preAcceptOKs >= r.n / 2 {
      r.DecideOwn(i, merged, ACCEPTED);
      d := SendAccept;
    } else {
      r.DecideOwn(i, merged, PREACCEPTED);
      d := Wait;
    }
  }

  method HandlePreAcceptReply(r: Replica, lb: LeaderBookkeeping, thrifty: bool, i: nat, reply: Attributes,
                              committed: seq<int>)
    returns (d: Decision)
    requires Leads(r, lb, i) && |reply.deps| == r.n && |committed| == r.n
    modifies r, lb
    ensures Leads(r, lb, i) && (old(r.FrontierOk()) ==> r.FrontierOk())
    ensures if old(r.space[InstanceID(r.id, i)].status) != PREACCEPTED then Unmoved(r, lb) && d == Wait
            else
              var s := Count(r.id, r.n, thrifty, old(StandingOf(r, lb, i)), Updated(reply, committed), old(r.committedUpTo));
              Arrives(r, lb, i, s, Outcome(r.n, s)) && d == DecisionOf(Outcome(r.n, s))
    ensures old(r.space[InstanceID(r.id, i)].status) == PREACCEPTED ==>
              MovesBy(r, lb, thrifty, i, Updated(reply, committed), d)
  {
    hide Stepped, Highest, Covers, SameOff, Merge, Counts, Goes;
    ghost var s := StandingOf(r, lb, i);
    CountCounts(r.id, r.n, thrifty, s, Updated(reply, committed), r.committedUpTo);
    OutcomeGoes(r.n, Count(r.id, r.n, thrifty, s, Updated(reply, committed), r.committedUpTo));
    var inst := r.space[InstanceID(r.id, i)];
    if inst.status != PREACCEPTED {
      return Wait;
    }
    lb.preAcceptOKs := lb.preAcceptOKs + 1;
    var merged, equal := r.MergeAttributes(Attributes(inst.seqNum, inst.deps), reply);
    if (r.n <= 3 && !thrifty) || lb.preAcceptOKs > 1 {
      lb.allEqual := lb.allEqual && equal;
    }
    lb.NoteCommitted(committed, r.committedUpTo);
    d := Conclude(r, lb, i, merged);
  }

  method HandlePreAcceptOK(r: Replica, lb: LeaderBookkeeping, thrifty: bool, i: nat) returns (d: Decision)
    requires Leads(r, lb, i)
    modifies r, lb
    ensures Leads(r, lb, i) && (old(r.FrontierOk()) ==> r.FrontierOk())
    ensures if old(r.space[InstanceID(r.id, i)].status) != PREACCEPTED then Unmoved(r, lb) && d == Wait
            else
              var s := Count(r.id, r.n, thrifty, old(StandingOf(r, lb, i)), Okay, old(r.committedUpTo));
              Arrives(r, lb, i, s, Outcome(r.n, s)) && d == DecisionOf(Outcome(r.n, s))
    ensures old(r.space[InstanceID(r.id, i)].status) == PREACCEPTED ==> MovesBy(r, lb, thrifty, i, Okay, d)
  {
    hide Stepped, Highest, Covers, Counts, Goes;
    ghost var s := StandingOf(r, lb, i);
    CountCounts(r.id, r.n, thrifty, s, Okay, r.committedUpTo);
    OutcomeGoes(r.n, Count(r.id, r.n, thrifty, s, Okay, r.committedUpTo));
    var inst := r.space[InstanceID(r.id, i)];
    if inst.status != PREACCEPTED {
      return Wait;
    }
    lb.preAcceptOKs := lb.preAcceptOKs + 1;
    lb.NoteCommitted(lb.originalDeps, r.committedUpTo);
    d := Conclude(r, lb, i, Attributes(inst.seqNum, inst.deps));
  }

  /** With the leader, a majority has accepted. */
  method HandleAcceptReply(r: Replica, lb: LeaderBookkeeping, i: nat) returns (d: Decision)
    requires Leads(r, lb, i)
    modifies r, lb
    ensures Leads(r, lb, i) && (old(r.FrontierOk()) ==> r.FrontierOk())
    ensures if old(r.space[InstanceID(r.id, i)].status) != ACCEPTED then Unmoved(r, lb) && d == Wait
            else
              var s := old(StandingOf(r, lb, i));
              var t := s.(book := s.book.(acceptOKs := s.book.acceptOKs + 1));
              var next := if 2 * (t.book.acceptOKs + 1) > r.n then COMMITTED else ACCEPTED;
              Arrives(r, lb, i, t, next) && d == if next == COMMITTED then SendCommit else Wait
  {
    hide Stepped;
    var inst := r.space[InstanceID(r.id, i)];
    if inst.status != ACCEPTED {
      return Wait;
    }
    lb.acceptOKs := lb.acceptOKs + 1;
    if lb.acceptOKs + 1 > r.n / 2 {
      r.DecideOwn(i, Attributes(inst.seqNum, inst.deps), COMMITTED);
      d := SendCommit;
    } else {
      Stays(r.id, r.View(), i);
      d := Wait;
    }
  }

  lemma Stays(id: ReplicaID, t: Tables, i: nat)
    requires t.Shaped(id, |t.crtInstance|) && InstanceID(id, i) in t.space
    requires t.space[InstanceID(id, i)].status in {PREACCEPTED, ACCEPTED}
    ensures Stepped(id, t, Decide(i, t.space[InstanceID(id, i)].status), t)
  {
    var x := InstanceID(id, i);
    assert t.space == t.space[x := t.space[x]];
  }

  // ----- What the fast path rests on -----

  /** Answers in the order in which they are counted, and the leader's frontier at each. */
  predicate Sequence(n: nat, answers: seq<Answer>, upTos: seq<seq<int>>) {
    |answers| == |upTos| && forall k :: 0 <= k < |answers| ==> AnswerShaped(answers[k], n) && |upTos[k]| == n
  }

  function Begun(attrs: Attributes): Standing {
    Standing(attrs, NewBook(attrs.deps))
  }

  function CountAll(self: ReplicaID, n: nat, thrifty: bool, attrs: Attributes, answers: seq<Answer>,
                    upTos: seq<seq<int>>): (s: Standing)
    requires |attrs.deps| == n && Sequence(n, answers, upTos)
    ensures s.Shaped(n) && s.book.preAcceptOKs == |answers| && s.book.originalDeps == attrs.deps
  {
    if answers == [] then Begun(attrs)
    else
      var l := |answers| - 1;
      Count(self, n, thrifty, CountAll(self, n, thrifty, attrs, answers[..l], upTos[..l]), answers[l], upTos[l])
  }

  /** The merged attributes when answer k comes. */
  function At(self: ReplicaID, n: nat, thrifty: bool, attrs: Attributes, answers: seq<Answer>,
              upTos: seq<seq<int>>, k: nat): Attributes
    requires |attrs.deps| == n && Sequence(n, answers, upTos) && k <= |answers|
  {
    CountAll(self, n, thrifty, attrs, answers[..k], upTos[..k]).attrs
  }

  /** All attributes sent in answers that are compared are those merged so far. */
  ghost predicate NothingNew(self: ReplicaID, n: nat, thrifty: bool, attrs: Attributes, answers: seq<Answer>,
                             upTos: seq<seq<int>>)
    requires |attrs.deps| == n && Sequence(n, answers, upTos)
  {
    forall k: nat :: k < |answers| && ((n <= 3 && !thrifty) || k > 0) && answers[k].Updated? ==>
      SameOff(self, At(self, n, thrifty, attrs, answers, upTos, k), answers[k].attrs)
  }

  /** By answer k, or by the leader's own frontier then, everything in row q up to d is committed somewhere. */
  predicate Vouches(original: seq<int>, a: Answer, upTo: seq<int>, q: nat, d: int)
    requires q < |original| == |upTo| && AnswerShaped(a, |original|)
  {
    d <= upTo[q] || if a.Okay? then d <= original[q] else d <= a.committed[q]
  }

  ghost predicate Vouched(attrs: Attributes, answers: seq<Answer>, upTos: seq<seq<int>>, deps: seq<int>)
    requires Sequence(|attrs.deps|, answers, upTos) && |deps| == |attrs.deps|
  {
    forall q: nat :: q < |deps| ==>
      deps[q] <= -1 || exists k :: 0 <= k < |answers| && Vouches(attrs.deps, answers[k], upTos[k], q, deps[q])
  }

  lemma {:induction false} EqualExact(self: ReplicaID, n: nat, thrifty: bool, attrs: Attributes,
                                      answers: seq<Answer>, upTos: seq<seq<int>>)
    requires |attrs.deps| == n && Sequence(n, answers, upTos)
    ensures CountAll(self, n, thrifty, attrs, answers, upTos).book.allEqual <==>
            NothingNew(self, n, thrifty, attrs, answers, upTos)
  {
    hide Highest, SameOff, Merge, NothingNew;
    if answers != [] {
      var l := |answers| - 1;
      EqualExact(self, n, thrifty, attrs, answers[..l], upTos[..l]);
      OneMore(self, n, thrifty, attrs, answers, upTos);
    } else {
      NothingYet(self, n, thrifty, attrs);
    }
  }

  lemma NothingYet(self: ReplicaID, n: nat, thrifty: bool, attrs: Attributes)
    requires |attrs.deps| == n
    ensures NothingNew(self, n, thrifty, attrs, [], [])
  {
  }

  lemma OneMore(self: ReplicaID, n: nat, thrifty: bool, attrs: Attributes, answers: seq<Answer>, upTos: seq<seq<int>>)
    requires |attrs.deps| == n && Sequence(n, answers, upTos) && answers != []
    ensures var l := |answers| - 1;
            NothingNew(self, n, thrifty, attrs, answers, upTos) <==>
            NothingNew(self, n, thrifty, attrs, answers[..l], upTos[..l])
            && (Compared(n, thrifty, l) && answers[l].Updated? ==>
                  SameOff(self, CountAll(self, n, thrifty, attrs, answers[..l], upTos[..l]).attrs, answers[l].attrs))
  {
    hide CountAll, SameOff;
    var l := |answers| - 1;
    forall k: nat | k <= l
      ensures At(self, n, thrifty, attrs, answers, upTos, k) == At(self, n, thrifty, attrs, answers[..l], upTos[..l], k)
    {
      assert answers[..l][..k] == answers[..k] && upTos[..l][..k] == upTos[..k];
    }
    assert answers[..l][..l] == answers[..l] && upTos[..l][..l] == upTos[..l];
  }

  lemma {:induction false} CommittedExact(self: ReplicaID, n: nat, thrifty: bool, attrs: Attributes,
                                          answers: seq<Answer>, upTos: seq<seq<int>>, q: nat, d: int)
    requires |attrs.deps| == n && Sequence(n, answers, upTos) && q < n
    ensures d <= CountAll(self, n, thrifty, attrs, answers, upTos).book.committedDeps[q] <==>
            d <= -1 || exists k :: 0 <= k < |answers| && Vouches(attrs.deps, answers[k], upTos[k], q, d)
  {
    hide Count, Vouches;
    if answers != [] {
      var l := |answers| - 1;
      CommittedExact(self, n, thrifty, attrs, answers[..l], upTos[..l], q, d);
      var s := CountAll(self, n, thrifty, attrs, answers[..l], upTos[..l]);
      OneMoreVouches(self, n, thrifty, s, answers[l], upTos[l], q, d);
      forall k: nat | k < l ensures answers[..l][k] == answers[k] && upTos[..l][k] == upTos[k] {
      }
    }
  }

  lemma OneMoreVouches(self: ReplicaID, n: nat, thrifty: bool, s: Standing, a: Answer, upTo: seq<int>, q: nat, d: int)
    requires s.Shaped(n) && AnswerShaped(a, n) && |upTo| == n && q < n
    ensures d <= Count(self, n, thrifty, s, a, upTo).book.committedDeps[q] <==>
            d <= s.book.committedDeps[q] || Vouches(s.book.originalDeps, a, upTo, q, d)
  {
    hide SameOff, Merge;
  }

  /**
   * After any number of answers: the leader waits if and only if it and those
   * counted are no majority. When they are, it commits at once if and only if no
   * compared answer sent anything new, and every dependency is committed at the
   * leader or at somebody who answered; otherwise it asks for acceptance.
   */
  lemma FastExact(self: ReplicaID, n: nat, thrifty: bool, attrs: Attributes, answers: seq<Answer>,
                  upTos: seq<seq<int>>)
    requires |attrs.deps| == n && Sequence(n, answers, upTos)
    ensures var s := CountAll(self, n, thrifty, attrs, answers, upTos);
            && (Outcome(n, s) == PREACCEPTED <==> 2 * (|answers| + 1) <= n)
            && (Outcome(n, s) == COMMITTED <==>
                  && 2 * (|answers| + 1) > n
                  && NothingNew(self, n, thrifty, attrs, answers, upTos)
                  && Vouched(attrs, answers, upTos, s.attrs.deps))
            && Outcome(n, s) in {PREACCEPTED, COMMITTED, ACCEPTED}
  {
    hide NothingNew, CountAll, Vouches;
    var s := CountAll(self, n, thrifty, attrs, answers, upTos);
    EqualExact(self, n, thrifty, attrs, answers, upTos);
    forall q: nat | q < n
      ensures s.attrs.deps[q] <= s.book.committedDeps[q] <==>
                s.attrs.deps[q] <= -1
                || exists k :: 0 <= k < |answers| && Vouches(attrs.deps, answers[k], upTos[k], q, s.attrs.deps[q])
    {
      CommittedExact(self, n, thrifty, attrs, answers, upTos, q, s.attrs.deps[q]);
    }
  }

  /** What the leader has come to after the answers: once it has moved on it counts no more. */
  function Course(self: ReplicaID, n: nat, thrifty: bool, attrs: Attributes, answers: seq<Answer>,
                  upTos: seq<seq<int>>): (c: (Standing, Phase))
    requires |attrs.deps| == n && Sequence(n, answers, upTos)
    ensures c.0.Shaped(n)
  {
    if answers == [] then (Begun(attrs), PREACCEPTED)
    else
      var l := |answers| - 1;
      var c := Course(self, n, thrifty, attrs, answers[..l], upTos[..l]);
      if c.1 != PREACCEPTED then c
      else
        var t := Count(self, n, thrifty, c.0, answers[l], upTos[l]);
        (t, Outcome(n, t))
  }

  /**
   * However many answers come, the leader counts the first of them up to the one
   * that makes it and the answerers a majority, and that one decides.
   */
  lemma {:induction false} CourseExact(self: ReplicaID, n: nat, thrifty: bool, attrs: Attributes,
                                       answers: seq<Answer>, upTos: seq<seq<int>>)
    requires |attrs.deps| == n && Sequence(n, answers, upTos)
    ensures var c := Course(self, n, thrifty, attrs, answers, upTos);
            var m := c.0.book.preAcceptOKs;
            && m <= |answers| && c.0 == CountAll(self, n, thrifty, attrs, answers[..m], upTos[..m])
            && (c.1 == PREACCEPTED ==> m == |answers| && (m == 0 || 2 * (m + 1) <= n))
            && (c.1 != PREACCEPTED ==> m > 0 && 2 * (m + 1) > n && (m == 1 || 2 * m <= n))
            && (c.1 == COMMITTED <==>
                  && m > 0 && 2 * (m + 1) > n
                  && NothingNew(self, n, thrifty, attrs, answers[..m], upTos[..m])
                  && Vouched(attrs, answers[..m], upTos[..m], c.0.attrs.deps))
  {
    hide NothingNew, Vouched, Outcome, Count;
    assert answers[..|answers|] == answers && upTos[..|answers|] == upTos;
    if answers != [] {
      var l := |answers| - 1;
      CourseExact(self, n, thrifty, attrs, answers[..l], upTos[..l]);
      var m := Course(self, n, thrifty, attrs, answers[..l], upTos[..l]).0.book.preAcceptOKs;
      assert answers[..l][..m] == answers[..m] && upTos[..l][..m] == upTos[..m];
      FastExact(self, n, thrifty, attrs, answers, upTos);
    }
  }

  /** Merging what is the same changes nothing. */
  lemma MergeSame(self: ReplicaID, a: Attributes, b: Attributes)
    requires SameOff(self, a, b)
    ensures Merge(self, a, b) == a
  {
    assert Merge(self, a, b).deps == a.deps;
  }

  /** Once nothing new comes, the merged attributes stay as they are. */
  lemma {:induction false} Settles(self: ReplicaID, n: nat, thrifty: bool, attrs: Attributes,
                                   answers: seq<Answer>, upTos: seq<seq<int>>, k: nat)
    requires |attrs.deps| == n && Sequence(n, answers, upTos) && NothingNew(self, n, thrifty, attrs, answers, upTos)
    requires k <= |answers| && Compared(n, thrifty, k)
    ensures At(self, n, thrifty, attrs, answers, upTos, k) == CountAll(self, n, thrifty, attrs, answers, upTos).attrs
    decreases |answers| - k
  {
    hide Highest, SameOff, Merge;
    if k == |answers| {
      assert answers[..k] == answers && upTos[..k] == upTos;
    } else {
      Settles(self, n, thrifty, attrs, answers, upTos, k + 1);
      assert answers[..k + 1][..k] == answers[..k] && upTos[..k + 1][..k] == upTos[..k];
      if answers[k].Updated? {
        MergeSame(self, At(self, n, thrifty, attrs, answers, upTos, k), answers[k].attrs);
      }
    }
  }

  /** The attributes that the sender of the answer holds. */
  function Held(attrs: Attributes, a: Answer): Attributes {
    if a.Okay? then attrs else a.attrs
  }

  /** All whose answers are compared hold what the leader ends up with. */
  ghost predicate Agreed(self: ReplicaID, n: nat, thrifty: bool, attrs: Attributes, answers: seq<Answer>,
                         final: Attributes)
  {
    forall k: nat :: k < |answers| && ((n <= 3 && !thrifty) || k > 0) ==> SameOff(self, final, Held(attrs, answers[k]))
  }

  /** An agreement is counted after a first answer that has changed the attributes it agrees to. */
  ghost predicate Mixed(self: ReplicaID, n: nat, thrifty: bool, attrs: Attributes, answers: seq<Answer>) {
    && answers != [] && answers[0].Updated? && !SameOff(self, attrs, Merge(self, attrs, answers[0].attrs))
    && exists k: nat :: k < |answers| && ((n <= 3 && !thrifty) || k > 0) && answers[k].Okay?
  }

  /**
   * When the leader commits at once, those whose answers it compared hold the
   * committed attributes if and only if the answers are not mixed.
   */
  lemma FastAgrees(self: ReplicaID, n: nat, thrifty: bool, attrs: Attributes, answers: seq<Answer>,
                   upTos: seq<seq<int>>)
    requires |attrs.deps| == n && Sequence(n, answers, upTos)
    requires Outcome(n, CountAll(self, n, thrifty, attrs, answers, upTos)) == COMMITTED
    ensures Agreed(self, n, thrifty, attrs, answers, CountAll(self, n, thrifty, attrs, answers, upTos).attrs) <==>
            !Mixed(self, n, thrifty, attrs, answers)
  {
    hide CountAll, SameOff, Merge, Vouched, NothingNew;
    var final := CountAll(self, n, thrifty, attrs, answers, upTos).attrs;
    FastExact(self, n, thrifty, attrs, answers, upTos);
    forall k: nat | k < |answers| && Compared(n, thrifty, k) && answers[k].Updated?
      ensures SameOff(self, final, answers[k].attrs)
    {
      Settles(self, n, thrifty, attrs, answers, upTos, k);
      NewAt(self, n, thrifty, attrs, answers, upTos, k);
    }
    if answers != [] {
      AfterFirst(self, n, thrifty, attrs, answers, upTos);
    }
  }

  lemma NewAt(self: ReplicaID, n: nat, thrifty: bool, attrs: Attributes, answers: seq<Answer>,
              upTos: seq<seq<int>>, k: nat)
    requires |attrs.deps| == n && Sequence(n, answers, upTos) && NothingNew(self, n, thrifty, attrs, answers, upTos)
    requires k < |answers| && Compared(n, thrifty, k) && answers[k].Updated?
    ensures SameOff(self, At(self, n, thrifty, attrs, answers, upTos, k), answers[k].attrs)
  {
  }

  lemma AfterFirst(self: ReplicaID, n: nat, thrifty: bool, attrs: Attributes, answers: seq<Answer>,
                   upTos: seq<seq<int>>)
    requires |attrs.deps| == n && Sequence(n, answers, upTos) && answers != []
    requires NothingNew(self, n, thrifty, attrs, answers, upTos)
    ensures var final := CountAll(self, n, thrifty, attrs, answers, upTos).attrs;
            && SameOff(self, final, attrs) == SameOff(self, attrs, final)
            && final == if answers[0].Okay? then attrs else Merge(self, attrs, answers[0].attrs)
    ensures SameOff(self, attrs, attrs)
  {
    hide Highest, Merge, NothingNew;
    Settles(self, n, thrifty, attrs, answers, upTos, 1);
    assert answers[..1][..0] == [] && upTos[..1][..0] == [];
    assert CountAll(self, n, thrifty, attrs, [], []) == Begun(attrs);
    assert At(self, n, thrifty, attrs, answers, upTos, 1)
           == Count(self, n, thrifty, Begun(attrs), answers[..1][0], upTos[..1][0]).attrs;
  }

  /** The attributes the leader sends on depend only on which attributes were sent to it, not on their order. */
  lemma {:induction false} MergesAll(self: ReplicaID, n: nat, thrifty: bool, attrs: Attributes,
                                     answers: seq<Answer>, upTos: seq<seq<int>>)
    requires |attrs.deps| == n && Sequence(n, answers, upTos)
    ensures CountAll(self, n, thrifty, attrs, answers, upTos).attrs == MergeAll(self, attrs, Sent(answers))
  {
    hide Highest, Merge;
    if answers != [] {
      var l := |answers| - 1;
      MergesAll(self, n, thrifty, attrs, answers[..l], upTos[..l]);
      if answers[l].Updated? {
        assert Sent(answers)[..|Sent(answers)| - 1] == Sent(answers[..l]);
      } else {
        assert Sent(answers) == Sent(answers[..l]);
      }
    }
  }

  function Sent(answers: seq<Answer>): seq<Attributes> {
    if answers == [] then []
    else
      var l := |answers| - 1;
      Sent(answers[..l]) + if answers[l].Updated? then [answers[l].attrs] else []
  }

  // ----- An input on which the answers are mixed -----

  const NONE := [-1, -1, -1, -1, -1]
  const EARLY := [KvCommand(PUT, 1, 1)]
  const LATE := [KvCommand(PUT, 1, 2)]

  lemma NothingKnown(space: Space)
    ensures NewDep(map[], LATE, -1) == -1
    ensures forall s, deps :: |deps| == 5 && LeastSeq(space, map[], LATE, 0, deps, s, deps) ==> s == 0
  {
  }

  /** A replica that has heard of one instance of replica 2, and that it is committed. */
  method Informed() returns (one: Replica)
    ensures fresh(one) && one.id == 1 && one.n == 5 && one.Shaped() && one.IndexOk() && one.FrontierOk()
    ensures one.space.Keys == {InstanceID(2, 0)} && one.committedUpTo == [-1, -1, 0, -1, -1]
    ensures one.conflicts == [map[], map[], map[1 := 0], map[], map[]]
  {
    hide LeastSeq, IndexRow, NewDep, Answered, Raised;
    one := new Replica(1, 5);
    var r := one.HandlePreAccept(2, 0, EARLY, 0, NONE);
    OneKey();
    one.HandleCommitShort(2, 0, 0, NONE);
    assert one.space.Keys == {InstanceID(2, 0)};
    FirstCommitted(one.space, one.committedUpTo);
  }

  lemma FirstCommitted(space: Space, upTo: seq<int>)
    requires space.Keys == {InstanceID(2, 0)} && Done(space, 2, 0) && |upTo| == 5
    requires forall q: nat :: q < 5 ==> Frontier(space, q, upTo[q])
    ensures upTo == [-1, -1, 0, -1, -1]
  {
    forall q: nat | q < 5 ensures upTo[q] == if q == 2 then 0 else -1 {
      assert Frontier(space, q, upTo[q]) && (upTo[q] >= 1 ==> Done(space, q, 1)) && (upTo[q] >= 0 ==> Done(space, q, 0));
    }
  }

  lemma OneKey()
    ensures Raised(map[], KeysOf(EARLY), 0) == map[1 := 0]
  {
    assert EARLY[0] in EARLY;
    assert KeysOf(EARLY) == {1};
  }

  /** A leader that has proposed an instance and knows of nothing else. */
  method Proposal() returns (leader: Replica, lb: LeaderBookkeeping)
    ensures fresh(leader) && fresh(lb) && leader.id == 0 && leader.n == 5 && Leads(leader, lb, 0)
    ensures leader.space[InstanceID(0, 0)].status == PREACCEPTED && leader.committedUpTo == NONE
    ensures StandingOf(leader, lb, 0) == Begun(Attributes(0, NONE))
  {
    hide LeastSeq, IndexRow, NewDep, Frontier;
    leader := new Replica(0, 5);
    NothingKnown(leader.space);
    var i, seqNum, deps := leader.StartPhase1(LATE);
    assert deps == NONE == seq(5, _ => -1);
    lb := new LeaderBookkeeping(deps);
  }

  /** The same request at a replica that knows nothing, and at one that is informed. */
  method Ask(r: Replica, informed: bool) returns (reply: Reply)
    requires r.n == 5 && 0 != r.id && r.Shaped() && r.IndexOk() && InstanceID(0, 0) !in r.space
    requires r.conflicts == [map[], map[], if informed then map[1 := 0] else map[], map[], map[]]
    requires !informed ==> r.maxSeqPerKey == map[] && r.committedUpTo == NONE
    modifies r
    ensures InstanceID(0, 0) in r.space && r.space[InstanceID(0, 0)].deps == [-1, -1, if informed then 0 else -1, -1, -1]
    ensures !informed ==> r.space[InstanceID(0, 0)].status == PREACCEPTED_EQ && reply == PreAcceptOK
    ensures informed ==> reply == PreAcceptReply(r.space[InstanceID(0, 0)].seqNum, [-1, -1, 0, -1, -1], old(r.committedUpTo))
  {
    hide LeastSeq, IndexRow, NewDep, Stepped, Frontier, AllDone;
    NothingKnown(r.space);
    OneKnown();
    reply := r.HandlePreAccept(0, 0, LATE, 0, NONE);
    assert r.space[InstanceID(0, 0)].deps == [-1, -1, if informed then 0 else -1, -1, -1];
  }

  lemma TwoAnswers(seqNum: int)
    ensures var s := Count(0, 5, false, Begun(Attributes(0, NONE)),
                           Updated(Attributes(seqNum, [-1, -1, 0, -1, -1]), [-1, -1, 0, -1, -1]), NONE);
            && Outcome(5, s) == PREACCEPTED
            && Outcome(5, Count(0, 5, false, s, Okay, NONE)) == COMMITTED
            && Count(0, 5, false, s, Okay, NONE).attrs.deps == [-1, -1, 0, -1, -1]
  {
    var s := Count(0, 5, false, Begun(Attributes(0, NONE)),
                   Updated(Attributes(seqNum, [-1, -1, 0, -1, -1]), [-1, -1, 0, -1, -1]), NONE);
    assert s.attrs.deps == [-1, -1, 0, -1, -1] == s.book.committedDeps;
  }

  /** The leader counts the informed replica first. */
  method CountBoth(leader: Replica, lb: LeaderBookkeeping, seqNum: int)
    requires leader.id == 0 && leader.n == 5 && Leads(leader, lb, 0) && leader.committedUpTo == NONE
    requires leader.space[InstanceID(0, 0)].status == PREACCEPTED
    requires StandingOf(leader, lb, 0) == Begun(Attributes(0, NONE))
    modifies leader, lb
    ensures Leads(leader, lb, 0)
    ensures leader.space[InstanceID(0, 0)].status == COMMITTED
    ensures leader.space[InstanceID(0, 0)].deps == [-1, -1, 0, -1, -1]
  {
    hide IndexRow, Frontier, Count, Outcome, Advances;
    TwoAnswers(seqNum);
    var d := HandlePreAcceptReply(leader, lb, false, 0, Attributes(seqNum, [-1, -1, 0, -1, -1]), [-1, -1, 0, -1, -1]);
    d := HandlePreAcceptOK(leader, lb, false, 0);
  }

  /**
   * A mixed pair of answers. Replica 1 knows an instance that replica 3 and the
   * leader do not; it answers first, and the agreement of replica 3, to attributes
   * without that instance, is then counted towards the fast path of attributes
   * with it.
   */
  method MixedAnswers() returns (leader: Replica, one: Replica, three: Replica)
    ensures fresh(leader) && fresh(one) && fresh(three)
    ensures leader.id == 0 && one.id == 1 && three.id == 3 && leader.n == one.n == three.n == 5
    ensures var x := InstanceID(0, 0);
            && x in leader.space && leader.space[x].status == COMMITTED && leader.space[x].deps == [-1, -1, 0, -1, -1]
            && x in one.space && one.space[x].deps == [-1, -1, 0, -1, -1]
            && x in three.space && three.space[x].deps == NONE && three.space[x].status == PREACCEPTED_EQ
  {
    hide IndexRow, Frontier;
    var lb;
    leader, lb := Proposal();
    one := Informed();
    three := new Replica(3, 5);
    var first := Ask(one, true);
    var second := Ask(three, false);
    CountBoth(leader, lb, first.seqNum);
  }

  lemma OneKnown()
    ensures NewDep(map[1 := 0], LATE, -1) == 0
  {
  }
}

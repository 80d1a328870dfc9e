/**
 * All replicas of the efficient EPaxos with the messages between them. Each
 * message is handled at most once, in any order, and any peer may be left out of
 * a broadcast. Attributes are not part of it, so that whether a leader takes the
 * fast or the slow path is open.
 */
module EagerSystem {
  import opened Types
  import opened EagerExecution
  import opened EagerIndex
  import EagerLeader

  /** What has been said about one instance and not been heard yet, and what its leader has counted. */
  datatype Talk = Talk(
    cmds: seq<KvCommand>,
    seqNum: int,
    preAccepts: multiset<ReplicaID>,
    answers: nat,
    preAcceptOKs: nat,
    accepts: multiset<ReplicaID>,
    acks: nat,
    acceptOKs: nat,
    commits: multiset<ReplicaID>,
    shorts: multiset<ReplicaID>)

  datatype System = System(n: nat, thrifty: bool, tables: seq<Tables>, talks: map<InstanceID, Talk>)

  datatype Move =
    | Start(r: ReplicaID, cmds: seq<KvCommand>, to: multiset<ReplicaID>)
    | HearPreAccept(r: ReplicaID, x: InstanceID)
    | HearAnswer(x: InstanceID, next: Phase, to: multiset<ReplicaID>, short: multiset<ReplicaID>)
    | HearAccept(r: ReplicaID, x: InstanceID)
    | HearAck(x: InstanceID, next: Phase, to: multiset<ReplicaID>, short: multiset<ReplicaID>)
    | HearCommit(r: ReplicaID, x: InstanceID, seqNum: int)
    | HearCommitShort(r: ReplicaID, x: InstanceID)
    | Run(r: ReplicaID, x: InstanceID)

  ghost predicate Init(s: System) {
    s.n >= 1 && s.tables == seq(s.n, _ => Fresh(s.n)) && s.talks == map[]
  }

  /** Only r does something, and what it does is e. */
  ghost predicate Does(s: System, r: ReplicaID, e: Event, s': System) {
    && r < s.n == |s.tables| && r < |s.tables[r].crtInstance|
    && s'.n == s.n && s'.thrifty == s.thrifty
    && |s'.tables| == s.n && s'.tables == s.tables[r := s'.tables[r]]
    && Possible(r, s.n, e) && Stepped(r, s.tables[r], e, s'.tables[r])
  }

  predicate SameTables(s: System, s': System) {
    s'.n == s.n && s'.thrifty == s.thrifty && s'.tables == s.tables
  }

  predicate Says(s: System, x: InstanceID, t: Talk, s': System) {
    s'.talks == s.talks[x := t]
  }

  predicate Peers(s: System, r: ReplicaID, to: multiset<ReplicaID>) {
    forall p :: p in to ==> p < s.n && p != r
  }

  /** How x stands at r. */
  predicate Has(s: System, r: ReplicaID, x: InstanceID, statuses: set<Phase>) {
    r < |s.tables| && x in s.tables[r].space && s.tables[r].space[x].status in statuses
  }

  /** r has the commands of x. */
  predicate Known(s: System, r: ReplicaID, x: InstanceID) {
    r < |s.tables| && x in s.tables[r].space && s.tables[r].space[x].cmds.Some?
  }

  /** What goes out with a commit; full commits are for those whom a thrifty leader may not have asked. */
  predicate CommitsTo(s: System, r: ReplicaID, to: multiset<ReplicaID>, short: multiset<ReplicaID>) {
    Peers(s, r, to) && Peers(s, r, short) && (to == multiset{} || s.thrifty)
  }

  ghost predicate Step(s: System, m: Move, s': System) {
    match m
    case Start(r, cmds, to) =>
      && Does(s, r, Propose(cmds), s') && cmds != [] && Peers(s, r, to)
      && (s.thrifty ==> |to| <= s.n / 2)
      && var x := InstanceID(r, s.tables[r].crtInstance[r]);
         Says(s, x, Talk(cmds, s'.tables[r].space[x].seqNum, to, 0, 0, multiset{}, 0, 0, multiset{}, multiset{}), s')
    case HearPreAccept(r, x) =>
      && x in s.talks && var t := s.talks[x];
         && r in t.preAccepts
         && Does(s, r, PreAccept(x, t.cmds, t.seqNum), s')
         && var more := if Has(s, r, x, {COMMITTED, ACCEPTED}) then 0 else 1;
            Says(s, x, t.(preAccepts := t.preAccepts - multiset{r}, answers := t.answers + more), s')
    case HearAnswer(x, next, to, short) =>
      && x in s.talks && s.talks[x].answers > 0
      && var t := s.talks[x].(answers := s.talks[x].answers - 1);
         if !Has(s, x.replica, x, {PREACCEPTED}) then SameTables(s, s') && Says(s, x, t, s')
         else
           var u := t.(preAcceptOKs := t.preAcceptOKs + 1);
           && next in (if u.preAcceptOKs >= s.n / 2 then {COMMITTED, ACCEPTED} else {PREACCEPTED})
           && Does(s, x.replica, Decide(x.num, next), s') && CommitsOrAccepts(s, x, u, next, to, short, s')
    case HearAccept(r, x) =>
      && x in s.talks && var t := s.talks[x];
         && r in t.accepts
         && Does(s, r, Accept(x), s')
         && var more := if Has(s, r, x, {COMMITTED, EXECUTED}) then 0 else 1;
            Says(s, x, t.(accepts := t.accepts - multiset{r}, acks := t.acks + more), s')
    case HearAck(x, next, to, short) =>
      && x in s.talks && s.talks[x].acks > 0
      && var t := s.talks[x].(acks := s.talks[x].acks - 1);
         if !Has(s, x.replica, x, {ACCEPTED}) then SameTables(s, s') && Says(s, x, t, s')
         else
           var u := t.(acceptOKs := t.acceptOKs + 1);
           && next == (if u.acceptOKs + 1 > s.n / 2 then COMMITTED else ACCEPTED)
           && Does(s, x.replica, Decide(x.num, next), s')
           && if next == COMMITTED then CommitsOrAccepts(s, x, u, next, to, short, s') else Says(s, x, u, s')
    case HearCommit(r, x, seqNum) =>
      && x in s.talks && var t := s.talks[x];
         && r in t.commits
         && Does(s, r, Commit(x, t.cmds, seqNum), s')
         && Says(s, x, t.(commits := t.commits - multiset{r}), s')
    case HearCommitShort(r, x) =>
      && x in s.talks && var t := s.talks[x];
         && r in t.shorts
         && Does(s, r, CommitShort(x), s')
         && Says(s, x, t.(shorts := t.shorts - multiset{r}), s')
    case Run(r, x) =>
      Known(s, r, x) && Does(s, r, Execute(x), s') && s'.talks == s.talks
  }

  /** The leader's broadcast after it has moved on, or nothing while it waits. */
  predicate CommitsOrAccepts(s: System, x: InstanceID, u: Talk, next: Phase, to: multiset<ReplicaID>,
                             short: multiset<ReplicaID>, s': System)
  {
    if next == COMMITTED then
      CommitsTo(s, x.replica, to, short) && Says(s, x, u.(commits := u.commits + to, shorts := u.shorts + short), s')
    else if next == ACCEPTED then
      Peers(s, x.replica, to) && Says(s, x, u.(accepts := u.accepts + to), s')
    else Says(s, x, u, s')
  }

  /** No peer is sent the same request to pre-accept twice. */
  predicate Steady(m: Move) {
    m.Start? ==> forall p :: p in m.to ==> m.to[p] == 1
  }

  ghost predicate IsRun(run: seq<System>, moves: seq<Move>) {
    && |run| == |moves| + 1 && Init(run[0])
    && forall i :: 0 <= i < |moves| ==> Step(run[i], moves[i], run[i + 1])
  }

  // ----- What every run keeps -----

  /** The commands of x as its leader proposed them, if r has them. */
  predicate ToldRight(s: System, r: ReplicaID, x: InstanceID) {
    r < |s.tables| && x in s.tables[r].space && s.tables[r].space[x].cmds.Some? ==>
      x in s.talks && s.tables[r].space[x].cmds.value == s.talks[x].cmds
  }

  /** Shape, conflict table and commands at one replica. */
  ghost predicate TableOk(s: System, r: ReplicaID) {
    && r < |s.tables| && s.tables[r].Shaped(r, s.n) && s.tables[r].IndexOk()
    && forall x :: x in s.tables[r].space ==> ToldRight(s, r, x)
  }

  predicate TalkOk(s: System, x: InstanceID)
    requires x in s.talks
  {
    var t := s.talks[x];
    && x.replica < s.n == |s.tables| && x in s.tables[x.replica].space && t.cmds != []
    && Addressed(s, x, t)
  }

  predicate Addressed(s: System, x: InstanceID, t: Talk) {
    && Peers(s, x.replica, t.preAccepts) && Peers(s, x.replica, t.accepts)
    && Peers(s, x.replica, t.commits) && Peers(s, x.replica, t.shorts)
  }

  ghost predicate Inv(s: System) {
    && |s.tables| == s.n
    && (forall r :: 0 <= r < s.n ==> TableOk(s, r))
    && (forall x :: x in s.talks ==> TalkOk(s, x))
  }

  lemma InitInv(s: System)
    requires Init(s)
    ensures Inv(s)
  {
  }

  lemma StepInv(s: System, m: Move, s': System)
    requires Inv(s) && Step(s, m, s')
    ensures Inv(s')
  {
    hide Inv, Stepped, TalkOk, TalkNext;
    match m
    case Start(r, cmds, to) => StartInv(s, r, cmds, to, s');
    case Run(r, x) =>
      Executing(s, r, x, s');
      Kept(s, r, Execute(x), x, s');
    case HearPreAccept(r, x) =>
      NextTalk(s, m, x, s');
      Kept(s, r, PreAccept(x, s.talks[x].cmds, s.talks[x].seqNum), x, s');
    case HearAnswer(x, next, _, _) =>
      NextTalk(s, m, x, s');
      if Has(s, x.replica, x, {PREACCEPTED}) { Kept(s, x.replica, Decide(x.num, next), x, s'); } else { Told(s, x, s'); }
    case HearAccept(r, x) =>
      NextTalk(s, m, x, s');
      Kept(s, r, Accept(x), x, s');
    case HearAck(x, next, _, _) =>
      NextTalk(s, m, x, s');
      if Has(s, x.replica, x, {ACCEPTED}) { Kept(s, x.replica, Decide(x.num, next), x, s'); } else { Told(s, x, s'); }
    case HearCommit(r, x, seqNum) =>
      NextTalk(s, m, x, s');
      Kept(s, r, Commit(x, s.talks[x].cmds, seqNum), x, s');
    case HearCommitShort(r, x) =>
      NextTalk(s, m, x, s');
      Kept(s, r, CommitShort(x), x, s');
  }

  /** Only addressees are added, and the leader is none of them. */
  lemma NextTalk(s: System, m: Move, x: InstanceID, s': System)
    requires Inv(s) && Step(s, m, s') && !m.Start? && !m.Run? && m.x == x
    ensures x in s.talks && TalkNext(s, x, s')
  {
    hide Inv, Does, Has, Known, Addressed, CommitsTo, Peers, CommitsOrAccepts;
    TalkIn(s, x);
    var t := s.talks[x];
    match m
    case HearAnswer(_, next, to, short) =>
      if Has(s, x.replica, x, {PREACCEPTED}) {
        var u := t.(answers := t.answers - 1, preAcceptOKs := t.preAcceptOKs + 1);
        Fewer(s, x, t, u);
        SentOn(s, x, u, next, to, short, s');
      } else {
        Fewer(s, x, t, s'.talks[x]);
      }
    case HearAck(_, next, to, short) =>
      if Has(s, x.replica, x, {ACCEPTED}) && next == COMMITTED {
        var u := t.(acks := t.acks - 1, acceptOKs := t.acceptOKs + 1);
        Fewer(s, x, t, u);
        SentOn(s, x, u, next, to, short, s');
      } else {
        Fewer(s, x, t, s'.talks[x]);
      }
    case HearPreAccept(_, _) => Fewer(s, x, t, s'.talks[x]);
    case HearAccept(_, _) => Fewer(s, x, t, s'.talks[x]);
    case HearCommit(_, _, _) => Fewer(s, x, t, s'.talks[x]);
    case HearCommitShort(_, _) => Fewer(s, x, t, s'.talks[x]);
  }

  lemma TalkIn(s: System, x: InstanceID)
    requires Inv(s) && x in s.talks
    ensures TalkOk(s, x)
  {
  }

  lemma Fewer(s: System, x: InstanceID, t: Talk, u: Talk)
    requires Addressed(s, x, t)
    requires u.preAccepts <= t.preAccepts && u.accepts <= t.accepts && u.commits <= t.commits && u.shorts <= t.shorts
    ensures Addressed(s, x, u)
  {
  }

  lemma SentOn(s: System, x: InstanceID, u: Talk, next: Phase, to: multiset<ReplicaID>, short: multiset<ReplicaID>,
               s': System)
    requires x in s.talks && Addressed(s, x, u) && CommitsOrAccepts(s, x, u, next, to, short, s')
    requires u.cmds == s.talks[x].cmds
    ensures TalkNext(s, x, s')
  {
  }

  lemma Executing(s: System, r: ReplicaID, x: InstanceID, s': System)
    requires Inv(s) && Known(s, r, x) && s'.talks == s.talks
    ensures x in s.talks && TalkNext(s, x, s')
  {
    assert TableOk(s, r) && ToldRight(s, r, x);
    assert s.talks == s.talks[x := s.talks[x]];
  }

  /** The next talk about x, if it is right about commands and addressees. */
  predicate TalkNext(s: System, x: InstanceID, s': System)
    requires x in s.talks
  {
    && x in s'.talks && s'.talks == s.talks[x := s'.talks[x]]
    && s'.talks[x].cmds == s.talks[x].cmds && Addressed(s, x, s'.talks[x])
  }

  lemma Told(s: System, x: InstanceID, s': System)
    requires Inv(s) && SameTables(s, s') && x in s.talks && TalkNext(s, x, s')
    ensures Inv(s')
  {
    forall r | 0 <= r < s'.n ensures TableOk(s', r) {
      assert TableOk(s, r);
      forall y | y in s'.tables[r].space ensures ToldRight(s', r, y) {
        assert ToldRight(s, r, y);
      }
    }
    assert TalkOk(s, x);
  }

  lemma StartInv(s: System, r: ReplicaID, cmds: seq<KvCommand>, to: multiset<ReplicaID>, s': System)
    requires Inv(s) && Step(s, Start(r, cmds, to), s')
    ensures Inv(s')
  {
    hide TableOk, Stepped;
    var x := InstanceID(r, s.tables[r].crtInstance[r]);
    NewHere(s, r, x);
    Proposed(r, s.tables[r], cmds, s'.tables[r]);
    OnlyThere(r, s.tables[r], Propose(cmds), x, s'.tables[r]);
    forall p | 0 <= p < s.n ensures TableOk(s', p) {
      assert TableOk(s, p);
      if p == r {
        StartTable(s, r, cmds, x, s');
      } else {
        MoreTold(s, p, x, s');
      }
    }
    forall y | y in s'.talks ensures TalkOk(s', y) {
      assert y != x ==> TalkOk(s, y);
    }
  }

  /** A new instance has not been talked about. */
  lemma NewHere(s: System, r: ReplicaID, x: InstanceID)
    requires Inv(s) && r < s.n && x.replica == r
    requires r < |s.tables[r].crtInstance| && x.num == s.tables[r].crtInstance[r]
    ensures x !in s.talks && x !in s.tables[r].space
  {
    assert TableOk(s, r) && (x in s.talks ==> TalkOk(s, x));
  }

  lemma StartTable(s: System, r: ReplicaID, cmds: seq<KvCommand>, x: InstanceID, s': System)
    requires Does(s, r, Propose(cmds), s') && TableOk(s, r) && x == Subject(r, s.tables[r], Propose(cmds))
    requires x !in s.talks && x in s'.talks && s'.talks == s.talks[x := s'.talks[x]] && s'.talks[x].cmds == cmds
    ensures TableOk(s', r)
  {
    hide Tables.IndexOk, Stepped;
    StepIndex(r, s.tables[r], Propose(cmds), s'.tables[r]);
    OnlyThere(r, s.tables[r], Propose(cmds), x, s'.tables[r]);
    Proposed(r, s.tables[r], cmds, s'.tables[r]);
    forall y | y in s'.tables[r].space ensures ToldRight(s', r, y) {
      assert y in s.tables[r].space ==> ToldRight(s, r, y);
    }
  }

  lemma MoreTold(s: System, p: ReplicaID, x: InstanceID, s': System)
    requires p < s.n == s'.n == |s.tables| == |s'.tables| && s'.tables[p] == s.tables[p] && TableOk(s, p)
    requires x !in s.talks && x in s'.talks && s'.talks == s.talks[x := s'.talks[x]]
    ensures TableOk(s', p)
  {
    hide Tables.IndexOk;
    forall y | y in s'.tables[p].space ensures ToldRight(s', p, y) {
      assert ToldRight(s, p, y);
    }
  }

  lemma Proposed(id: ReplicaID, t: Tables, cmds: seq<KvCommand>, t': Tables)
    requires id < |t.crtInstance| && Stepped(id, t, Propose(cmds), t')
    ensures var x := InstanceID(id, t.crtInstance[id]);
            x in t'.space && t'.space[x].cmds == Some(cmds) && t'.space[x].status == PREACCEPTED
  {
    hide Raised, KeysOf;
  }

  /** An event touches the instance it is about, and no other. */
  lemma OnlyThere(id: ReplicaID, t: Tables, e: Event, x: InstanceID, t': Tables)
    requires id < |t.crtInstance| && Stepped(id, t, e, t') && Subject(id, t, e) == x
    ensures t'.space == t.space || (x in t'.space && t'.space == t.space[x := t'.space[x]])
    ensures x in t.space ==> x in t'.space
    ensures x in t.space && t.space[x].cmds.Some? ==> e.PreAccept? || e.Propose? || t'.space[x].cmds == t.space[x].cmds
    ensures x in t'.space && t'.space[x].cmds.Some? && !(e.Propose? || e.PreAccept? || e.Commit?) ==>
              x in t.space && t.space[x].cmds.Some?
    ensures x in t'.space && t'.space[x].cmds.Some? && (e.PreAccept? || e.Commit?) ==>
              t'.space[x].cmds.value == e.cmds || (x in t.space && t'.space[x].cmds == t.space[x].cmds)
  {
    hide Raised, KeysOf, Advances;
  }

  lemma Kept(s: System, r: ReplicaID, e: Event, x: InstanceID, s': System)
    requires Inv(s) && Does(s, r, e, s') && Subject(r, s.tables[r], e) == x && !e.Propose?
    requires x in s.talks && TalkNext(s, x, s') && (e.PreAccept? || e.Commit? ==> e.cmds == s.talks[x].cmds)
    ensures Inv(s')
  {
    hide TableOk, Stepped, Possible;
    forall p | 0 <= p < s.n ensures TableOk(s', p) {
      assert TableOk(s, p);
      if p == r {
        TableKept(s, r, e, x, s');
      } else {
        TableSame(s, p, x, s');
      }
    }
    OnlyThere(r, s.tables[r], e, x, s'.tables[r]);
    forall y | y in s'.talks ensures TalkOk(s', y) {
      assert TalkOk(s, y);
    }
  }

  lemma TableKept(s: System, r: ReplicaID, e: Event, x: InstanceID, s': System)
    requires Does(s, r, e, s') && TableOk(s, r) && Subject(r, s.tables[r], e) == x && !e.Propose?
    requires x in s.talks && TalkNext(s, x, s') && (e.PreAccept? || e.Commit? ==> e.cmds == s.talks[x].cmds)
    ensures TableOk(s', r)
  {
    hide Tables.IndexOk, Stepped, Possible;
    assert x in s.tables[r].space ==> ToldRight(s, r, x);
    StepIndex(r, s.tables[r], e, s'.tables[r]);
    OnlyThere(r, s.tables[r], e, x, s'.tables[r]);
    forall y | y in s'.tables[r].space ensures ToldRight(s', r, y) {
      assert y in s.tables[r].space ==> ToldRight(s, r, y);
    }
  }

  lemma TableSame(s: System, p: ReplicaID, x: InstanceID, s': System)
    requires p < s.n == s'.n == |s.tables| == |s'.tables| && s'.tables[p] == s.tables[p] && TableOk(s, p)
    requires x in s.talks && TalkNext(s, x, s')
    ensures TableOk(s', p)
  {
    hide Tables.IndexOk;
    forall y | y in s'.tables[p].space ensures ToldRight(s', p, y) {
      assert ToldRight(s, p, y);
    }
  }

  /** The instance that an event is about. */
  function Subject(id: ReplicaID, t: Tables, e: Event): InstanceID
    requires id < |t.crtInstance|
  {
    match e
    case Propose(_) => InstanceID(id, t.crtInstance[id])
    case PreAccept(x, _, _) => x
    case Accept(x) => x
    case Commit(x, _, _) => x
    case CommitShort(x) => x
    case Decide(i, _) => InstanceID(id, i)
    case Execute(x) => x
  }

  // ----- What steady runs keep -----

  /** Nobody who has still to hear the request knows the commands, and a thrifty leader waits for all it has asked. */
  ghost predicate AsksOk(s: System, x: InstanceID)
    requires x in s.talks
  {
    var t, waits := s.talks[x], Has(s, x.replica, x, {PREACCEPTED});
    && (forall p :: p in t.preAccepts ==> t.preAccepts[p] == 1 && !Known(s, p, x))
    && (s.thrifty ==> |t.preAccepts| + t.answers + t.preAcceptOKs <= s.n / 2)
    && (s.thrifty && !waits ==> t.preAccepts == multiset{})
    && (t.commits != multiset{} ==> s.thrifty && !waits)
  }

  /** Only what is known executes, and the frontier is the longest committed prefix. */
  ghost predicate RowsOk(s: System, r: ReplicaID)
    requires r < |s.tables|
  {
    && s.tables[r].FrontierOk()
    && forall x :: x in s.tables[r].space && s.tables[r].space[x].status == EXECUTED ==> Known(s, r, x)
  }

  ghost predicate SteadyInv(s: System) {
    && Inv(s)
    && (forall r :: 0 <= r < s.n ==> RowsOk(s, r))
    && (forall x :: x in s.talks ==> AsksOk(s, x))
  }

  lemma InitSteady(s: System)
    requires Init(s)
    ensures SteadyInv(s)
  {
    InitInv(s);
  }

  /** What an event means for who knows x and how it stands. */
  lemma Effects(id: ReplicaID, t: Tables, e: Event, x: InstanceID, t': Tables)
    requires id < |t.crtInstance| && Stepped(id, t, e, t') && Subject(id, t, e) == x
    ensures e.Accept? || e.CommitShort? || e.Decide? || e.Execute? ==>
              ((x in t'.space && t'.space[x].cmds.Some?) <==> (x in t.space && t.space[x].cmds.Some?))
    ensures e.Decide? && x in t.space && t.space[x].status in {PREACCEPTED, ACCEPTED} ==>
              x in t'.space && t'.space[x].status == e.status
    ensures e.Execute? ==> x in t.space && t.space[x].status in {COMMITTED, EXECUTED} && t'.space[x].status == EXECUTED
  {
    hide Raised, KeysOf, Advances;
  }

  /** Only what is known executes. */
  lemma ExecutesKnown(id: ReplicaID, n: nat, t: Tables, e: Event, t': Tables)
    requires id < |t.crtInstance| && Stepped(id, t, e, t') && Possible(id, n, e)
    requires forall x :: x in t.space && t.space[x].status == EXECUTED ==> t.space[x].cmds.Some?
    ensures forall x :: x in t'.space && t'.space[x].status == EXECUTED ==> t'.space[x].cmds.Some?
  {
    hide Raised, KeysOf, Advances;
  }

  lemma RowsKept(s: System, r: ReplicaID, e: Event, s': System, p: ReplicaID)
    requires SteadyInv(s) && Does(s, r, e, s') && !Late(s.tables[r], e) && p < s.n
    ensures RowsOk(s', p)
  {
    hide Stepped, Late, Possible, Tables.FrontierOk, AsksOk;
    assert RowsOk(s, p) && TableOk(s, p);
    if p == r {
      StepFrontier(r, s.tables[r], e, s'.tables[r]);
      ExecutesKnown(r, s.n, s.tables[r], e, s'.tables[r]);
    }
  }

  /** Other instances are as they were. */
  lemma AsksSame(s: System, r: ReplicaID, e: Event, x: InstanceID, s': System, y: InstanceID)
    requires Does(s, r, e, s') && Subject(r, s.tables[r], e) == x && y != x
    requires y in s.talks && y in s'.talks && s'.talks[y] == s.talks[y] && AsksOk(s, y)
    ensures AsksOk(s', y)
  {
    hide Stepped, Possible;
    OnlyThere(r, s.tables[r], e, x, s'.tables[r]);
    assert forall p :: Known(s', p, y) == Known(s, p, y);
  }

  /** A step that is one event about x. */
  lemma StepSteady(s: System, r: ReplicaID, e: Event, x: InstanceID, s': System)
    requires SteadyInv(s) && Inv(s') && Does(s, r, e, s') && Subject(r, s.tables[r], e) == x && !Late(s.tables[r], e)
    requires x in s'.talks && s'.talks == s.talks[x := s'.talks[x]] && AsksOk(s', x)
    ensures SteadyInv(s')
  {
    hide Inv, Does, RowsOk, AsksOk, Late;
    assert s'.n == s.n && |s'.tables| == s.n by { TablesOf(s, r, e, s'); }
    forall p | 0 <= p < s'.n ensures RowsOk(s', p) {
      RowsKept(s, r, e, s', p);
    }
    forall y | y in s'.talks ensures AsksOk(s', y) {
      if y != x {
        AsksSame(s, r, e, x, s', y);
      }
    }
  }

  lemma TablesOf(s: System, r: ReplicaID, e: Event, s': System)
    requires Does(s, r, e, s')
    ensures s'.n == s.n && |s'.tables| == s.n
  {
  }

  lemma StartSteady(s: System, r: ReplicaID, cmds: seq<KvCommand>, to: multiset<ReplicaID>, s': System)
    requires SteadyInv(s) && Inv(s') && Step(s, Start(r, cmds, to), s') && Steady(Start(r, cmds, to))
    ensures SteadyInv(s')
  {
    hide Stepped, TableOk, RowsOk, Possible;
    var x := InstanceID(r, s.tables[r].crtInstance[r]);
    NewHere(s, r, x);
    Proposed(r, s.tables[r], cmds, s'.tables[r]);
    forall p | p in to ensures !Known(s', p, x) {
      assert ToldRight(s, p, x) by { assert TableOk(s, p); TableTold(s, p, x); }
    }
    StepSteady(s, r, Propose(cmds), x, s');
  }

  lemma TableTold(s: System, p: ReplicaID, x: InstanceID)
    requires TableOk(s, p)
    ensures ToldRight(s, p, x)
  {
  }

  lemma Facts(s: System, x: InstanceID)
    requires SteadyInv(s) && x in s.talks
    ensures TalkOk(s, x) && AsksOk(s, x)
  {
  }

  /** Whoever has still to hear the request has not executed the instance. */
  lemma NotLate(s: System, r: ReplicaID, x: InstanceID)
    requires SteadyInv(s) && x in s.talks && r in s.talks[x].preAccepts && r < |s.tables|
    ensures !Late(s.tables[r], PreAccept(x, s.talks[x].cmds, s.talks[x].seqNum))
  {
    assert AsksOk(s, x) && RowsOk(s, r);
  }

  lemma PreAcceptSteady(s: System, r: ReplicaID, x: InstanceID, s': System)
    requires SteadyInv(s) && Inv(s') && Step(s, HearPreAccept(r, x), s')
    ensures SteadyInv(s')
  {
    hide SteadyInv, Inv, Late;
    Facts(s, x);
    NotLate(s, r, x);
    PreAcceptAsks(s, r, x, s');
    StepSteady(s, r, PreAccept(x, s.talks[x].cmds, s.talks[x].seqNum), x, s');
  }

  lemma PreAcceptAsks(s: System, r: ReplicaID, x: InstanceID, s': System)
    requires Step(s, HearPreAccept(r, x), s') && TalkOk(s, x) && AsksOk(s, x)
    ensures AsksOk(s', x)
  {
    hide Stepped, Possible;
    assert |s'.talks[x].preAccepts| == |s.talks[x].preAccepts| - 1;
  }

  lemma AnswerSteady(s: System, x: InstanceID, next: Phase, to: multiset<ReplicaID>, short: multiset<ReplicaID>, s': System)
    requires SteadyInv(s) && Inv(s') && Step(s, HearAnswer(x, next, to, short), s')
    ensures SteadyInv(s')
  {
    hide SteadyInv, Inv, TalkOk, AsksOk;
    Facts(s, x);
    if Has(s, x.replica, x, {PREACCEPTED}) {
      AnswerAsks(s, x, next, to, short, s');
      StepSteady(s, x.replica, Decide(x.num, next), x, s');
    } else {
      LateAnswer(s, x, s');
      NoStep(s, x, s');
    }
  }

  lemma AnswerAsks(s: System, x: InstanceID, next: Phase, to: multiset<ReplicaID>, short: multiset<ReplicaID>, s': System)
    requires Step(s, HearAnswer(x, next, to, short), s') && TalkOk(s, x) && AsksOk(s, x)
    requires Has(s, x.replica, x, {PREACCEPTED})
    ensures AsksOk(s', x)
  {
    hide Stepped, Possible;
    Effects(x.replica, s.tables[x.replica], Decide(x.num, next), x, s'.tables[x.replica]);
    assert s.thrifty && next != PREACCEPTED ==> |s.talks[x].preAccepts| == 0;
  }

  lemma LateAnswer(s: System, x: InstanceID, s': System)
    requires SameTables(s, s') && x in s.talks && x in s'.talks && AsksOk(s, x)
    requires var t, u := s.talks[x], s'.talks[x];
             && u.preAccepts == t.preAccepts && u.commits == t.commits
             && u.answers <= t.answers && u.preAcceptOKs == t.preAcceptOKs
    ensures AsksOk(s', x)
  {
  }

  /** A reply that comes too late is only taken off the link. */
  lemma NoStep(s: System, x: InstanceID, s': System)
    requires SteadyInv(s) && Inv(s') && SameTables(s, s') && x in s'.talks && s'.talks == s.talks[x := s'.talks[x]]
    requires AsksOk(s', x)
    ensures SteadyInv(s')
  {
    hide Inv, Tables.FrontierOk;
    assert |s'.tables| == s'.n by { SizeOf(s'); }
    forall p | 0 <= p < s'.n ensures RowsOk(s', p) {
      assert RowsOk(s, p);
    }
    forall y | y in s'.talks ensures AsksOk(s', y) {
      assert y != x ==> AsksOk(s, y);
    }
  }

  lemma SizeOf(s: System)
    requires Inv(s)
    ensures |s.tables| == s.n
  {
  }

  lemma AckSteady(s: System, x: InstanceID, next: Phase, to: multiset<ReplicaID>, short: multiset<ReplicaID>, s': System)
    requires SteadyInv(s) && Inv(s') && Step(s, HearAck(x, next, to, short), s')
    ensures SteadyInv(s')
  {
    hide SteadyInv, Inv, TalkOk, AsksOk;
    Facts(s, x);
    if Has(s, x.replica, x, {ACCEPTED}) {
      AckAsks(s, x, next, to, short, s');
      StepSteady(s, x.replica, Decide(x.num, next), x, s');
    } else {
      LateAnswer(s, x, s');
      NoStep(s, x, s');
    }
  }

  lemma AckAsks(s: System, x: InstanceID, next: Phase, to: multiset<ReplicaID>, short: multiset<ReplicaID>, s': System)
    requires Step(s, HearAck(x, next, to, short), s') && TalkOk(s, x) && AsksOk(s, x)
    requires Has(s, x.replica, x, {ACCEPTED})
    ensures AsksOk(s', x)
  {
    hide Stepped, Possible;
    Effects(x.replica, s.tables[x.replica], Decide(x.num, next), x, s'.tables[x.replica]);
  }

  lemma AcceptSteady(s: System, r: ReplicaID, x: InstanceID, s': System)
    requires SteadyInv(s) && Inv(s') && Step(s, HearAccept(r, x), s')
    ensures SteadyInv(s')
  {
    hide SteadyInv, Inv;
    Facts(s, x);
    assert AsksOk(s', x) by {
      hide Stepped, Possible;
      Effects(r, s.tables[r], Accept(x), x, s'.tables[r]);
    }
    StepSteady(s, r, Accept(x), x, s');
  }

  lemma CommitSteady(s: System, r: ReplicaID, x: InstanceID, seqNum: int, s': System)
    requires SteadyInv(s) && Inv(s') && Step(s, HearCommit(r, x, seqNum), s')
    ensures SteadyInv(s')
  {
    hide SteadyInv, Inv, Stepped, Possible;
    Facts(s, x);
    StepSteady(s, r, Commit(x, s.talks[x].cmds, seqNum), x, s');
  }

  lemma ShortSteady(s: System, r: ReplicaID, x: InstanceID, s': System)
    requires SteadyInv(s) && Inv(s') && Step(s, HearCommitShort(r, x), s')
    ensures SteadyInv(s')
  {
    hide SteadyInv, Inv, Stepped, Possible;
    Facts(s, x);
    Effects(r, s.tables[r], CommitShort(x), x, s'.tables[r]);
    StepSteady(s, r, CommitShort(x), x, s');
  }

  lemma RunsSteady(s: System, r: ReplicaID, x: InstanceID, s': System)
    requires SteadyInv(s) && Inv(s') && Step(s, Run(r, x), s')
    ensures SteadyInv(s')
  {
    hide SteadyInv, Stepped, Possible, TableOk;
    Steadily(s);
    Executing(s, r, x, s');
    Facts(s, x);
    Effects(r, s.tables[r], Execute(x), x, s'.tables[r]);
    StepSteady(s, r, Execute(x), x, s');
  }

  lemma Steadily(s: System)
    requires SteadyInv(s)
    ensures Inv(s)
  {
  }

  lemma MoveSteady(s: System, m: Move, s': System)
    requires SteadyInv(s) && Step(s, m, s') && Steady(m)
    ensures SteadyInv(s')
  {
    hide Step, Inv, RowsOk, AsksOk;
    StepInv(s, m, s');
    match m
    case Start(r, cmds, to) => StartSteady(s, r, cmds, to, s');
    case HearPreAccept(r, x) => PreAcceptSteady(s, r, x, s');
    case HearAnswer(x, next, to, short) => AnswerSteady(s, x, next, to, short, s');
    case HearAck(x, next, to, short) => AckSteady(s, x, next, to, short, s');
    case HearAccept(r, x) => AcceptSteady(s, r, x, s');
    case HearCommit(r, x, seqNum) => CommitSteady(s, r, x, seqNum, s');
    case HearCommitShort(r, x) => ShortSteady(s, r, x, s');
    case Run(r, x) => RunsSteady(s, r, x, s');
  }

  // ----- Over whole runs -----

  lemma {:induction false} RunInv(run: seq<System>, moves: seq<Move>, i: nat)
    requires IsRun(run, moves) && i < |run|
    ensures Inv(run[i])
  {
    hide Step, Inv;
    if i == 0 {
      InitInv(run[0]);
    } else {
      RunInv(run, moves, i - 1);
      StepInv(run[i - 1], moves[i - 1], run[i]);
    }
  }

  /** In every run, requests sent twice or not, every conflict table is what a scan of the rows would find. */
  lemma TablesRight(run: seq<System>, moves: seq<Move>, i: nat, r: ReplicaID)
    requires IsRun(run, moves) && i < |run| && r < run[i].n
    ensures |run[i].tables| == run[i].n && run[i].tables[r].Shaped(r, run[i].n) && run[i].tables[r].IndexOk()
  {
    hide IsRun, Tables.IndexOk, Tables.Shaped;
    RunInv(run, moves, i);
    assert TableOk(run[i], r);
  }

  lemma {:induction false} RunSteady(run: seq<System>, moves: seq<Move>, i: nat)
    requires IsRun(run, moves) && i < |run| && forall k :: 0 <= k < i ==> Steady(moves[k])
    ensures SteadyInv(run[i])
  {
    hide Step, SteadyInv;
    if i == 0 {
      InitSteady(run[0]);
    } else {
      RunSteady(run, moves, i - 1);
      MoveSteady(run[i - 1], moves[i - 1], run[i]);
    }
  }

  /**
   * As long as nobody is sent a request to pre-accept twice, every committed
   * frontier is the longest committed prefix, whether the leaders are thrifty or
   * not, whomever they prefer, and in whatever order messages are handled.
   */
  lemma FrontiersRight(run: seq<System>, moves: seq<Move>, i: nat, r: ReplicaID)
    requires IsRun(run, moves) && i < |run| && r < run[i].n && forall k :: 0 <= k < i ==> Steady(moves[k])
    ensures |run[i].tables| == run[i].n && run[i].tables[r].FrontierOk()
  {
    hide IsRun, Tables.FrontierOk;
    RunSteady(run, moves, i);
    assert RowsOk(run[i], r);
  }

  /** A thrifty leader goes on only when everybody it asked has read the request. */
  lemma ThriftyWaits(run: seq<System>, moves: seq<Move>, i: nat, x: InstanceID)
    requires IsRun(run, moves) && i < |run| && forall k :: 0 <= k < i ==> Steady(moves[k])
    requires run[i].thrifty && x in run[i].talks && run[i].talks[x].preAccepts != multiset{}
    ensures Has(run[i], x.replica, x, {PREACCEPTED})
  {
    hide IsRun;
    RunSteady(run, moves, i);
    assert AsksOk(run[i], x);
  }

  // ----- What the leader has counted -----

  /**
   * A leader's handler, on its instance's bookkeeping and with any answer, does
   * what the system has it do: the counters agree before and after it.
   */
  lemma HandledIsHeard(s: System, x: InstanceID, at: EagerLeader.Standing, a: EagerLeader.Answer, upTo: seq<int>,
                       t: EagerLeader.Standing, next: Phase, to: multiset<ReplicaID>, short: multiset<ReplicaID>, s': System)
    requires x in s.talks && s.talks[x].answers > 0 && Has(s, x.replica, x, {PREACCEPTED})
    requires at.Shaped(s.n) && EagerLeader.AnswerShaped(a, s.n) && |upTo| == s.n
    requires at.book.preAcceptOKs == s.talks[x].preAcceptOKs
    requires EagerLeader.Counts(x.replica, s.n, s.thrifty, at, a, upTo, t) && EagerLeader.Goes(s.n, t, next)
    requires Does(s, x.replica, Decide(x.num, next), s')
    requires var u := s.talks[x].(answers := s.talks[x].answers - 1, preAcceptOKs := s.talks[x].preAcceptOKs + 1);
             CommitsOrAccepts(s, x, u, next, to, short, s')
    ensures Step(s, HearAnswer(x, next, to, short), s')
    ensures x in s'.talks && s'.talks[x].preAcceptOKs == t.book.preAcceptOKs
  {
    hide Stepped, EagerLeader.Greatest, EagerLeader.Joins;
  }

  /** The leader waits until it and those counted are a majority, and then goes on. */
  predicate Tallied(s: System, x: InstanceID)
    requires x in s.talks
  {
    var t := s.talks[x];
    if Has(s, x.replica, x, {PREACCEPTED})
    then t.acceptOKs == 0 && (t.preAcceptOKs == 0 || 2 * (t.preAcceptOKs + 1) <= s.n)
    else
      && 2 * (t.preAcceptOKs + 1) > s.n
      && (Has(s, x.replica, x, {ACCEPTED}) ==> t.acceptOKs == 0 || 2 * (t.acceptOKs + 1) <= s.n)
  }

  /** What happens elsewhere or to other instances leaves the leader's copy as it is. */
  lemma LeaderSame(s: System, r: ReplicaID, e: Event, x: InstanceID, s': System, y: InstanceID)
    requires Does(s, r, e, s') && Subject(r, s.tables[r], e) == x && (x != y || r != y.replica)
    requires y in s.talks && y in s'.talks
    requires s'.talks[y].preAcceptOKs == s.talks[y].preAcceptOKs && s'.talks[y].acceptOKs == s.talks[y].acceptOKs
    ensures Tallied(s', y) == Tallied(s, y)
  {
    hide Stepped, Possible;
    OnlyThere(r, s.tables[r], e, x, s'.tables[r]);
  }

  lemma StartTallied(s: System, r: ReplicaID, cmds: seq<KvCommand>, to: multiset<ReplicaID>, s': System, y: InstanceID)
    requires Inv(s) && Step(s, Start(r, cmds, to), s') && y in s'.talks && (y in s.talks ==> Tallied(s, y))
    ensures Tallied(s', y)
  {
    hide Inv, Stepped, Possible;
    var x := InstanceID(r, s.tables[r].crtInstance[r]);
    NewHere(s, r, x);
    Proposed(r, s.tables[r], cmds, s'.tables[r]);
    if y != x {
      LeaderSame(s, r, Propose(cmds), x, s', y);
    }
  }

  lemma RunTallied(s: System, r: ReplicaID, x: InstanceID, s': System, y: InstanceID)
    requires Step(s, Run(r, x), s') && y in s.talks && Tallied(s, y)
    ensures Tallied(s', y)
  {
    hide Stepped, Possible;
    if y == x && r == y.replica {
      Effects(r, s.tables[r], Execute(x), x, s'.tables[r]);
    } else {
      LeaderSame(s, r, Execute(x), x, s', y);
    }
  }

  /** The leader itself hears an answer that it waits for. */
  lemma LeaderTallied(s: System, m: Move, x: InstanceID, s': System)
    requires Step(s, m, s') && (m.HearAnswer? || m.HearAck?) && m.x == x && x in s.talks && Tallied(s, x)
    requires Has(s, x.replica, x, if m.HearAnswer? then {PREACCEPTED} else {ACCEPTED})
    ensures x in s'.talks && Tallied(s', x)
  {
    hide Stepped, Possible;
    Effects(x.replica, s.tables[x.replica], Decide(x.num, m.next), x, s'.tables[x.replica]);
  }

  lemma StepTallied(s: System, m: Move, s': System, y: InstanceID)
    requires Inv(s) && Step(s, m, s') && y in s'.talks && (y in s.talks ==> Tallied(s, y))
    ensures Tallied(s', y)
  {
    hide Inv, Does, Tallied, TalkOk;
    match m
    case Start(r, cmds, to) => StartTallied(s, r, cmds, to, s', y);
    case Run(r, x) => RunTallied(s, r, x, s', y);
    case HearPreAccept(r, x) =>
      Led(s, x);
      LeaderSame(s, r, PreAccept(x, s.talks[x].cmds, s.talks[x].seqNum), x, s', y);
    case HearAccept(r, x) =>
      Led(s, x);
      LeaderSame(s, r, Accept(x), x, s', y);
    case HearCommit(r, x, seqNum) =>
      Led(s, x);
      LeaderSame(s, r, Commit(x, s.talks[x].cmds, seqNum), x, s', y);
    case HearCommitShort(r, x) =>
      Led(s, x);
      LeaderSame(s, r, CommitShort(x), x, s', y);
    case HearAnswer(x, next, _, _) =>
      if Has(s, x.replica, x, {PREACCEPTED}) {
        if y == x { LeaderTallied(s, m, x, s'); } else { LeaderSame(s, x.replica, Decide(x.num, next), x, s', y); }
      } else {
        Unheard(s, s', y);
      }
    case HearAck(x, next, _, _) =>
      if Has(s, x.replica, x, {ACCEPTED}) {
        if y == x { LeaderTallied(s, m, x, s'); } else { LeaderSame(s, x.replica, Decide(x.num, next), x, s', y); }
      } else {
        Unheard(s, s', y);
      }
  }

  /** Nobody is sent anything about an instance of its own. */
  lemma Led(s: System, x: InstanceID)
    requires Inv(s) && x in s.talks
    ensures var t, l := s.talks[x], x.replica;
            l !in t.preAccepts && l !in t.accepts && l !in t.commits && l !in t.shorts
  {
    hide TableOk;
    assert TalkOk(s, x);
  }

  lemma Unheard(s: System, s': System, y: InstanceID)
    requires SameTables(s, s') && y in s.talks && y in s'.talks
    requires s'.talks[y].preAcceptOKs == s.talks[y].preAcceptOKs && s'.talks[y].acceptOKs == s.talks[y].acceptOKs
    ensures Tallied(s', y) == Tallied(s, y)
  {
  }

  /**
   * In every run, whoever has gone past pre-acceptance at its leader has a
   * majority of pre-acceptors with the leader, whoever has not has none, and
   * while it waits to be accepted no majority has accepted.
   */
  lemma {:induction false} MajorityExact(run: seq<System>, moves: seq<Move>, i: nat, x: InstanceID)
    requires IsRun(run, moves) && i < |run| && x in run[i].talks
    ensures Tallied(run[i], x)
  {
    hide Step, Tallied, Inv;
    if i > 0 {
      RunInv(run, moves, i - 1);
      if x in run[i - 1].talks {
        MajorityExact(run, moves, i - 1, x);
      }
      StepTallied(run[i - 1], moves[i - 1], run[i], x);
    }
  }

  // ----- A request sent twice -----

  const X := InstanceID(2, 0)
  const BATCH := [KvCommand(PUT, 1, 1)]
  const NONE := [-1, -1, -1]

  /** Replica 0, replica 1, which does nothing yet, and replica 2 as leader of X. */
  function Pair(peer: Tables, leader: Tables, t: Talk): System {
    System(3, false, [peer, Fresh(3), leader], map[X := t])
  }

  /** What has been said about X: requests, answers, counted answers, short commits. */
  function Said(asked: nat, answers: nat, counted: nat, shorts: multiset<ReplicaID>): Talk {
    Talk(BATCH, 0, multiset{}[0 := asked], answers, counted, multiset{}, 0, 0, multiset{}, shorts)
  }

  lemma NothingKnown(space: Space)
    ensures NewDep(map[], BATCH, -1) == -1
    ensures forall s, deps :: |deps| == 3 && LeastSeq(space, map[], BATCH, 0, deps, s, deps) ==> s == 0
  {
  }

  lemma Asks(leader: Tables)
    requires Stepped(2, Fresh(3), Propose(BATCH), leader) && X in leader.space && leader.space[X].seqNum == 0
    ensures var s := System(3, false, [Fresh(3), Fresh(3), Fresh(3)], map[]);
            Init(s) && Step(s, Start(2, BATCH, multiset{}[0 := 2]), Pair(Fresh(3), leader, Said(2, 0, 0, multiset{})))
  {
    hide Stepped;
    assert seq(3, _ => Fresh(3)) == [Fresh(3), Fresh(3), Fresh(3)];
    assert [Fresh(3), Fresh(3), leader] == [Fresh(3), Fresh(3), Fresh(3)][2 := leader];
  }

  lemma Reads(peer: Tables, leader: Tables, asked: nat, counted: nat, shorts: multiset<ReplicaID>, peer': Tables)
    requires |peer.crtInstance| == 3 && Stepped(0, peer, PreAccept(X, BATCH, 0), peer')
    requires X in peer.space ==> peer.space[X].status == EXECUTED
    ensures Step(Pair(peer, leader, Said(asked + 1, 0, counted, shorts)), HearPreAccept(0, X),
                 Pair(peer', leader, Said(asked, 1, counted, shorts)))
  {
    hide Stepped;
    assert multiset{}[0 := asked + 1] - multiset{0} == multiset{}[0 := asked];
    assert [peer', Fresh(3), leader] == [peer, Fresh(3), leader][0 := peer'];
  }

  lemma Decides(peer: Tables, leader: Tables, leader': Tables)
    requires |leader.crtInstance| == 3 && Stepped(2, leader, Decide(0, COMMITTED), leader')
    requires X in leader.space && leader.space[X].status == PREACCEPTED
    ensures Step(Pair(peer, leader, Said(1, 1, 0, multiset{})), HearAnswer(X, COMMITTED, multiset{}, multiset{0, 1}),
                 Pair(peer, leader', Said(1, 0, 1, multiset{0, 1})))
  {
    hide Stepped;
    assert Said(1, 1, 0, multiset{}).shorts + multiset{0, 1} == multiset{0, 1};
    assert Said(1, 1, 0, multiset{}).commits + multiset{} == Said(1, 0, 1, multiset{0, 1}).commits;
    assert [peer, Fresh(3), leader'] == [peer, Fresh(3), leader][2 := leader'];
  }

  lemma Learns(peer: Tables, leader: Tables, peer': Tables)
    requires |peer.crtInstance| == 3 && Stepped(0, peer, CommitShort(X), peer')
    ensures Step(Pair(peer, leader, Said(1, 0, 1, multiset{0, 1})), HearCommitShort(0, X),
                 Pair(peer', leader, Said(1, 0, 1, multiset{1})))
  {
    hide Stepped;
    assert multiset{0, 1} - multiset{0} == multiset{1};
    assert [peer', Fresh(3), leader] == [peer, Fresh(3), leader][0 := peer'];
  }

  lemma Executes(peer: Tables, leader: Tables, peer': Tables)
    requires |peer.crtInstance| == 3 && Stepped(0, peer, Execute(X), peer')
    ensures Step(Pair(peer, leader, Said(1, 0, 1, multiset{1})), Run(0, X), Pair(peer', leader, Said(1, 0, 1, multiset{1})))
  {
    hide Raised, KeysOf, Advances;
    assert [peer', Fresh(3), leader] == [peer, Fresh(3), leader][0 := peer'];
  }

  /** Leader 2 proposes, and counts one agreement. */
  method Lead() returns (ghost proposed: Tables, ghost decided: Tables)
    ensures Stepped(2, Fresh(3), Propose(BATCH), proposed) && Stepped(2, proposed, Decide(0, COMMITTED), decided)
    ensures X in proposed.space && proposed.space[X] == Inst(Some(BATCH), PREACCEPTED, 0, NONE)
    ensures |proposed.crtInstance| == 3
  {
    hide LeastSeq, NewDep, Frontier, IndexRow, Raised, EagerLeader.Count, EagerLeader.Outcome;
    var leader := new Replica(2, 3);
    NothingKnown(leader.space);
    var i, seqNum, deps := leader.StartPhase1(BATCH);
    assert deps == NONE == seq(3, _ => -1);
    assert leader.committedUpTo == NONE;
    proposed := leader.View();
    var lb := new EagerLeader.LeaderBookkeeping(deps);
    Agreement();
    var d := EagerLeader.HandlePreAcceptOK(leader, lb, false, 0);
    decided := leader.View();
  }

  lemma Agreement()
    ensures var s := EagerLeader.Begun(Attributes(0, NONE));
            EagerLeader.Outcome(3, EagerLeader.Count(2, 3, false, s, EagerLeader.Okay, NONE)) == COMMITTED
  {
  }

  lemma KnownNow(t: Tables, t': Tables, reply: Reply)
    requires Answered(t, t', X, BATCH, 0, NONE, reply)
    ensures X in t'.space && t'.space[X].cmds == Some(BATCH)
  {
    hide LeastSeq, NewDep;
  }

  lemma FirstCommitted(t: Tables)
    requires t.FrontierOk() && 2 < |t.committedUpTo| && Done(t.space, 2, 0)
    ensures t.committedUpTo[2] >= 0
  {
    assert Frontier(t.space, 2, t.committedUpTo[2]);
  }

  /** Replica 0 reads the request, the commit and the second request. */
  method Follow() returns (peer: Replica, ghost asked: Tables, ghost told: Tables, ghost executed: Tables)
    ensures fresh(peer) && |asked.crtInstance| == |told.crtInstance| == |executed.crtInstance| == 3
    ensures Stepped(0, Fresh(3), PreAccept(X, BATCH, 0), asked) && Stepped(0, asked, CommitShort(X), told)
    ensures Stepped(0, told, Execute(X), executed) && Stepped(0, executed, PreAccept(X, BATCH, 0), peer.View())
    ensures X in told.space && told.space[X].cmds.Some? && X in executed.space && executed.space[X].status == EXECUTED
    ensures peer.IndexOk() && !peer.FrontierOk()
  {
    hide Stepped, IndexRow, Frontier, AllDone, Answered;
    peer := new Replica(0, 3);
    var reply := peer.HandlePreAccept(2, 0, BATCH, 0, NONE);
    asked := peer.View();
    KnownNow(Fresh(3), asked, reply);
    peer.HandleCommitShort(2, 0, 0, NONE);
    told := peer.View();
    peer.MarkExecuted(2, 0);
    executed := peer.View();
    FirstCommitted(executed);
    reply := peer.HandlePreAccept(2, 0, BATCH, 0, NONE);
  }

  /**
   * Where a frontier goes wrong. Leader 2 meant to ask both its peers, but while
   * the loop ran over them the end of its adapting phase swapped them, so that
   * replica 0 is asked twice and replica 1 not at all. Replica 0 answers, learns
   * of the commit and executes, and then reads the second request.
   */
  method LatePreAccept() returns (peer: Replica, ghost run: seq<System>, ghost moves: seq<Move>)
    ensures fresh(peer) && IsRun(run, moves) && |run| == 7 && run[6].n == 3 && !run[6].thrifty
    ensures |run[6].tables| == 3 && run[6].tables[0] == peer.View() && peer.IndexOk() && !peer.FrontierOk()
  {
    hide Stepped, Step, Init, Said, Frontier, IndexRow;
    ghost var proposed, decided := Lead();
    ghost var asked, told, executed;
    peer, asked, told, executed := Follow();
    Asks(proposed);
    Reads(Fresh(3), proposed, 1, 0, multiset{}, asked);
    Decides(asked, proposed, decided);
    Learns(asked, decided, told);
    Executes(told, decided, executed);
    Reads(executed, decided, 0, 1, multiset{1}, peer.View());
    run := [System(3, false, [Fresh(3), Fresh(3), Fresh(3)], map[]), Pair(Fresh(3), proposed, Said(2, 0, 0, multiset{})),
            Pair(asked, proposed, Said(1, 1, 0, multiset{})), Pair(asked, decided, Said(1, 0, 1, multiset{0, 1})),
            Pair(told, decided, Said(1, 0, 1, multiset{1})), Pair(executed, decided, Said(1, 0, 1, multiset{1})),
            Pair(peer.View(), decided, Said(0, 1, 1, multiset{1}))];
    moves := [Start(2, BATCH, multiset{}[0 := 2]), HearPreAccept(0, X), HearAnswer(X, COMMITTED, multiset{}, multiset{0, 1}),
              HearCommitShort(0, X), Run(0, X), HearPreAccept(0, X)];
  }
}

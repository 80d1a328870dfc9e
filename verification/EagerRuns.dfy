/**
 * Whole runs of one replica of the efficient EPaxos: its conflict table is right
 * throughout, and exactly what can make its committed frontier wrong.
 */
module EagerRuns {
  import opened Types
  import opened EagerExecution
  import opened EagerIndex

  /** ts are the tables before, between and after the events es, handled in this order. */
  ghost predicate IsRun(id: ReplicaID, n: nat, ts: seq<Tables>, es: seq<Event>) {
    && id < n && |ts| == |es| + 1 && ts[0] == Fresh(n)
    && forall k :: 0 <= k < |es| ==>
         |ts[k].crtInstance| == n && Possible(id, n, es[k]) && Stepped(id, ts[k], es[k], ts[k + 1])
  }

  /** Messages about an instance of another row carry the commands its leader gave it. */
  ghost predicate OneBatchEach(what: InstanceID -> seq<KvCommand>, es: seq<Event>) {
    forall k :: 0 <= k < |es| && (es[k].PreAccept? || es[k].Commit?) ==> es[k].cmds == what(es[k].x)
  }

  /** What is known of other rows' commands is what their leaders gave them. */
  ghost predicate Told(id: ReplicaID, what: InstanceID -> seq<KvCommand>, t: Tables) {
    forall x :: x in t.space && x.replica != id && t.space[x].cmds.Some? ==> t.space[x].cmds.value == what(x)
  }

  lemma StepTold(id: ReplicaID, what: InstanceID -> seq<KvCommand>, t: Tables, e: Event, t': Tables)
    requires id < |t.crtInstance| && Told(id, what, t) && Stepped(id, t, e, t') && Possible(id, |t.crtInstance|, e)
    requires e.PreAccept? || e.Commit? ==> e.cmds == what(e.x)
    ensures Agrees(t, e) && Told(id, what, t')
  {
    hide Raised, KeysOf, Advances;
  }

  lemma {:induction false} TableSoFar(id: ReplicaID, n: nat, ts: seq<Tables>, es: seq<Event>,
                                      what: InstanceID -> seq<KvCommand>, k: nat)
    requires IsRun(id, n, ts, es) && OneBatchEach(what, es) && k < |ts|
    ensures ts[k].Shaped(id, n) && ts[k].IndexOk() && Told(id, what, ts[k])
  {
    hide Stepped, Tables.IndexOk, Possible, Agrees;
    if k == 0 {
      FreshOk(id, n);
    } else {
      TableSoFar(id, n, ts, es, what, k - 1);
      StepTold(id, what, ts[k - 1], es[k - 1], ts[k]);
      StepIndex(id, ts[k - 1], es[k - 1], ts[k]);
    }
  }

  lemma FreshOk(id: ReplicaID, n: nat)
    requires id < n
    ensures Fresh(n).Shaped(id, n) && Fresh(n).IndexOk() && Fresh(n).FrontierOk()
  {
  }

  /**
   * Whatever messages are handled, in whatever order and however often, in every
   * state of the run the conflict table is what a scan of the rows would find.
   */
  lemma TableAlways(id: ReplicaID, n: nat, ts: seq<Tables>, es: seq<Event>, what: InstanceID -> seq<KvCommand>)
    requires IsRun(id, n, ts, es) && OneBatchEach(what, es)
    ensures forall k :: 0 <= k < |ts| ==> ts[k].Shaped(id, n) && ts[k].IndexOk()
  {
    hide IsRun, Tables.IndexOk;
    forall k | 0 <= k < |ts| ensures ts[k].Shaped(id, n) && ts[k].IndexOk() {
      TableSoFar(id, n, ts, es, what, k);
    }
  }

  /**
   * The frontier is the longest committed prefix in every state of a run if and
   * only if no PreAccept is handled for an instance at or below it that has
   * executed.
   */
  lemma FrontierExact(id: ReplicaID, n: nat, ts: seq<Tables>, es: seq<Event>, what: InstanceID -> seq<KvCommand>)
    requires IsRun(id, n, ts, es) && OneBatchEach(what, es)
    ensures (forall k :: 0 <= k < |ts| ==> ts[k].FrontierOk()) <==> (forall k :: 0 <= k < |es| ==> !Late(ts[k], es[k]))
  {
    hide Tables.FrontierOk, Late, Stepped, Tables.IndexOk, Possible;
    if forall k :: 0 <= k < |es| ==> !Late(ts[k], es[k]) {
      forall k: nat | k < |ts| ensures ts[k].FrontierOk() {
        FrontierSoFar(id, n, ts, es, what, k);
      }
    } else {
      var k: nat :| k < |es| && Late(ts[k], es[k]);
      TableSoFar(id, n, ts, es, what, k);
      if ts[k].FrontierOk() {
        StepFrontier(id, ts[k], es[k], ts[k + 1]);
      }
    }
  }

  lemma {:induction false} FrontierSoFar(id: ReplicaID, n: nat, ts: seq<Tables>, es: seq<Event>,
                                         what: InstanceID -> seq<KvCommand>, k: nat)
    requires IsRun(id, n, ts, es) && OneBatchEach(what, es) && k < |ts|
    requires forall j :: 0 <= j < k ==> !Late(ts[j], es[j])
    ensures ts[k].FrontierOk()
  {
    hide Tables.FrontierOk, Late, Stepped, Tables.IndexOk, Possible;
    if k == 0 {
      FreshOk(id, n);
    } else {
      FrontierSoFar(id, n, ts, es, what, k - 1);
      TableSoFar(id, n, ts, es, what, k - 1);
      StepFrontier(id, ts[k - 1], es[k - 1], ts[k]);
    }
  }

  // ----- When that never happens -----

  /** Links deliver each request to pre-accept at most once. */
  predicate PreAcceptedOnce(es: seq<Event>) {
    forall j, k :: 0 <= j < k < |es| && es[j].PreAccept? && es[k].PreAccept? ==> es[j].x != es[k].x
  }

  /** No commit that carries the commands comes before the request to pre-accept the same instance. */
  predicate CommandsInOrder(es: seq<Event>) {
    forall j, k :: 0 <= j < k < |es| && es[j].Commit? && es[k].PreAccept? ==> es[j].x != es[k].x
  }

  /** The commands of another row's instance came with a message about it, and only such instances execute. */
  ghost predicate HeardOf(id: ReplicaID, t: Tables, es: seq<Event>) {
    && (forall x {:trigger t.space[x]} :: x in t.space && x.replica != id && t.space[x].cmds.Some? ==>
          exists j :: 0 <= j < |es| && (es[j].PreAccept? || es[j].Commit?) && es[j].x == x)
    && (forall x {:trigger t.space[x]} :: x in t.space && t.space[x].status == EXECUTED ==> t.space[x].cmds.Some?)
  }

  lemma StepHeard(id: ReplicaID, t: Tables, es: seq<Event>, e: Event, t': Tables)
    requires id < |t.crtInstance| && HeardOf(id, t, es) && Stepped(id, t, e, t') && Possible(id, |t.crtInstance|, e)
    ensures HeardOf(id, t', es + [e])
  {
    hide Raised, KeysOf, Advances;
    var all := es + [e];
    forall x | x in t'.space && x.replica != id && t'.space[x].cmds.Some?
      ensures exists j :: 0 <= j < |all| && (all[j].PreAccept? || all[j].Commit?) && all[j].x == x
    {
      if x in t.space && t.space[x].cmds.Some? {
        var j :| 0 <= j < |es| && (es[j].PreAccept? || es[j].Commit?) && es[j].x == x;
        assert all[j] == es[j];
      } else {
        assert all[|es|] == e;
      }
    }
  }

  lemma {:induction false} Heard(id: ReplicaID, n: nat, ts: seq<Tables>, es: seq<Event>, k: nat)
    requires IsRun(id, n, ts, es) && k < |ts|
    ensures HeardOf(id, ts[k], es[..k])
  {
    hide Stepped, HeardOf, Possible;
    if k == 0 {
      assert HeardOf(id, Fresh(n), []) by { NothingHeard(id, n); }
      assert es[..0] == [];
    } else {
      Heard(id, n, ts, es, k - 1);
      StepHeard(id, ts[k - 1], es[..k - 1], es[k - 1], ts[k]);
      assert es[..k] == es[..k - 1] + [es[k - 1]];
    }
  }

  lemma NothingHeard(id: ReplicaID, n: nat)
    ensures HeardOf(id, Fresh(n), [])
  {
  }

  /**
   * With each PreAccept handled at most once, and no full commit before it, the
   * frontier is the longest committed prefix throughout.
   */
  lemma FrontierAlways(id: ReplicaID, n: nat, ts: seq<Tables>, es: seq<Event>, what: InstanceID -> seq<KvCommand>)
    requires IsRun(id, n, ts, es) && OneBatchEach(what, es) && PreAcceptedOnce(es) && CommandsInOrder(es)
    ensures forall k :: 0 <= k < |ts| ==> ts[k].Shaped(id, n) && ts[k].IndexOk() && ts[k].FrontierOk()
  {
    hide Stepped, Tables.FrontierOk, Tables.IndexOk, Tables.Shaped;
    TableAlways(id, n, ts, es, what);
    forall k: nat | k < |es| ensures !Late(ts[k], es[k]) {
      Heard(id, n, ts, es, k);
    }
    FrontierExact(id, n, ts, es, what);
  }
}

/**
 * The state one replica keeps: instances, timers, the executor's pending set
 * and the outbox.
 */
module State {
  import opened Types

  /** None is the status of an instance no message has touched yet. */
  datatype Status = NoStatus | PreAccepted | Accepted | Committed | Executed

  function Rank(s: Status): nat {
    match s
    case NoStatus => 0
    case PreAccepted => 1
    case Accepted => 2
    case Committed => 3
    case Executed => 4
  }

  const SLOW_PATH_TIMEOUT: nat := 2

  /** A timer that counts calls to tick while it is not paused. */
  datatype Timer = Timer(ticksElapsed: nat, paused: bool)

  /** One instance; the last four fields are used by its leader only. */
  datatype Instance = Instance(
    status: Status,
    cmd: Option<Command>,
    seqNum: SeqNum,
    deps: set<InstanceID>,
    preAcceptReplies: nat,
    differentReplies: bool,
    acceptReplies: nat,
    timer: Timer)
  {
    function Attributes(): Attrs {
      Attrs(seqNum, deps)
    }
  }

  const NEW_INSTANCE: Instance :=
    Instance(NoStatus, None, 0, {}, 0, false, 0, Timer(0, true))

  datatype Body =
    | PreAcceptMsg(cmd: Command, attrs: Attrs)
    | PreAcceptOK
    | PreAcceptReply(updated: Attrs)
    | AcceptMsg(attrs: Attrs)
    | AcceptOK
    | CommitMsg(cmd: Command, attrs: Attrs)

  predicate IsReply(b: Body) {
    b.PreAcceptOK? || b.PreAcceptReply? || b.AcceptOK?
  }

  datatype Message = Message(to: ReplicaID, inst: InstanceID, body: Body)

  type Instances = map<InstanceID, Instance>

  /**
   * One replica. The fields up to executed are the program's: timers are the
   * registered timers, pending the ids of the executor's vertices, msgs every
   * message appended to the outbox, executed every command delivered.
   * panicked records that the program gave up. Two history variables follow:
   * the components in the order they executed, and for every instance the
   * attributes this replica first computed for it.
   */
  datatype Node = Node(
    id: ReplicaID,
    nodes: seq<ReplicaID>,
    insts: Instances,
    timers: set<InstanceID>,
    pending: set<InstanceID>,
    msgs: seq<Message>,
    executed: seq<Command>,
    panicked: bool,
    blocks: seq<seq<InstanceID>>,
    pre: map<InstanceID, Attrs>)
}

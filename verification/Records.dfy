/** The records of the store. */
module Records {
  import opened Text
  import opened Json
  import opened Ids
  import opened EventBus

  datatype InboundStatus = InboundPending | InboundProcessed | InboundFailed

  datatype Inbound = Inbound(
    sourceKind: string,
    sourceId: string,
    operatorId: Option<string>,
    payload: Parsed<Json>,
    status: InboundStatus)

  datatype RoutedStatus = RoutedPending | RoutedCompleted

  datatype Routed = Routed(
    ruleId: string,
    session: string,
    agent: string,
    queuePolicy: string,
    priority: int,
    payload: Parsed<Json>,
    dependencies: seq<string>,
    status: RoutedStatus,
    routedAt: int,
    publishedAt: Option<int>)

  datatype TaskStatus = Queued | Running | WaitingDependency | Completed | Failed | Cancelled | Blocked

  datatype Task = Task(
    kind: string,
    sourceSession: Option<string>,
    owner: Option<string>,
    executor: Option<string>,
    job: Option<string>,
    status: TaskStatus,
    run: Option<string>,
    result: Option<seq<string>>,
    attempts: nat,
    startedAt: Option<int>,
    finishedAt: Option<int>,
    error: Option<string>)

  /** The kinds of event that the workers exchange. */
  datatype EventType =
    | MessageReceived | InputRouted | OutputCreated | DeadLettered
    | TaskCreated | DelegateCreated | TaskCompleted | TaskFailed | TaskBlocked | TaskUpdated

  /** The record that an event is about. */
  datatype Ref = InboundRef(update: int) | RoutedRef(routed: int) | RunRef(run: string) | TaskRef(task: TaskKey) | NoRef

  /** An event as it is published; `address` is its subject. */
  datatype Envelope = Envelope(event: EventKey, kind: EventType, ref: Ref, session: string, address: Address, createdAt: int)

  datatype RowStatus = RowPending | RowPublishing | RowPublished

  datatype Row = Row(payload: Envelope, status: RowStatus, attempts: nat, due: int)

  datatype Policy = Policy(
    session: Option<string>,
    agent: Option<string>,
    queuePolicy: Option<string>,
    targets: Option<seq<string>>,
    format: Option<string>)

  datatype Rule = Rule(
    id: string,
    priority: int,
    enabled: bool,
    sourceFilter: Parsed<Json>,
    operatorFilter: Parsed<Json>,
    condition: Parsed<Json>,
    policy: Parsed<Policy>,
    updatedAt: int)

  datatype Target = Target(
    kind: string,
    address: string,
    scope: string,
    owner: Option<string>,
    allowedAgents: Parsed<seq<string>>,
    allowedSessions: Parsed<seq<string>>,
    format: string,
    updatedAt: int)

  /** An output route; the last two delivery fields are its watermark. */
  datatype Route = Route(
    session: string,
    target: string,
    format: string,
    enabled: bool,
    deliveredAt: Option<int>,
    deliveredId: Option<string>,
    createdAt: int,
    updatedAt: int)

  datatype Follower = Follower(
    task: TaskKey,
    target: string,
    enabled: bool,
    deliveredAt: Option<int>,
    error: Option<Trouble>,
    updatedAt: int)

  datatype Session = Session(agent: string)

  datatype Transcript = Transcript(id: string, session: string, run: Option<string>, kind: string, content: string, createdAt: int)

  datatype Run = Run(status: string, error: Option<string>)

  /** Why an output did not reach a target. */
  datatype Trouble = TargetMissing | ListMalformed | SessionRefused | NoSourceSession | AgentRefused | SendFailed

  datatype Delivery = Delivery(trouble: Option<Trouble>, at: int)

  datatype Binding = Binding(
    scope: string,
    owner: Option<int>,
    session: Option<string>,
    agent: Option<string>,
    queueMode: string,
    deliveredAt: Option<int>,
    deliveredId: Option<string>)

  /** What operators and other parts of the program keep: the workers read it, and some write it. */
  datatype World = World(
    rules: map<string, Rule>,
    targets: map<string, Target>,
    bindings: map<int, Binding>,
    activated: set<int>,
    sessions: map<string, Session>,
    transcripts: seq<Transcript>,
    runs: map<string, Run>)

  datatype Db = Db(
    inbound: map<int, Inbound>,
    routed: map<int, Routed>,
    rows: map<RowKey, Row>,
    tasks: map<TaskKey, Task>,
    routes: map<string, Route>,
    followers: map<string, Follower>,
    deliveries: map<string, Delivery>,
    world: World)

  /** A row as every producer first writes it. */
  function NewRow(payload: Envelope, now: int): Row {
    Row(payload, RowPending, 0, now)
  }

  predicate IsTerminal(s: TaskStatus) {
    s.Completed? || s.Failed? || s.Cancelled? || s.Blocked?
  }
}

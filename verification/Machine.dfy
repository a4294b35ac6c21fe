/**
  The event pipeline as one machine. Five workers share a store and a bus that delivers every
  message any number of times. Each worker handles one message at a time; between two of its
  store writes any other worker may run, and at any write it may fail or stop for good.
 */
module Machine {
  import opened Text
  import opened Json
  import opened Ids
  import opened Records
  import opened Routing
  import opened OutputRoutes
  import B = Binding
  import D = Delivery
  import F = Followers
  import E = EventBus
  import T = Transcripts

  /** A message on the bus, and the outbox row it was published from. */
  datatype Message = Message(row: RowKey, payload: Envelope)

  function InputEnvelope(u: int, now: int): Envelope {
    Envelope(InputEvent(u), MessageReceived, InboundRef(u), "", E.Input("telegram"), now)
  }

  function RoutedEnvelope(u: int, session: string, now: int): Envelope {
    Envelope(RoutedEvent(u), InputRouted, RoutedRef(u), "", E.SessionInput(session), now)
  }

  function OutputEnvelope(u: int, session: string, run: string, now: int): Envelope {
    Envelope(OutputEvent(u), OutputCreated, RunRef(run), session, E.SessionOutput(session), now)
  }

  function DeadEnvelope(u: int, now: int): Envelope {
    Envelope(DeadLetterEvent(u), DeadLettered, NoRef, "", E.DeadLetter, now)
  }

  function CreatedEnvelope(token: string, now: int): Envelope {
    Envelope(CreatedEvent(token), TaskCreated, TaskRef(JobTask(token)), "", E.Task(TaskId(JobTask(token))), now)
  }

  function ResultEnvelope(t: TaskKey, kind: EventType, now: int): Envelope {
    Envelope(ResultEvent(t), kind, TaskRef(t), "", E.Task(TaskId(t)), now)
  }

  predicate IsResultKind(kind: EventType) {
    kind.TaskCompleted? || kind.TaskFailed? || kind.TaskBlocked?
  }

  // Workers

  /** The writes that a router call still has before it. */
  datatype RouterTodo = MarkFailed | PostDead | PutRouted(record: Routed) | PostRouted(session: string) | MarkProcessed(routed: bool)

  datatype Router = RouterIdle | RouterBusy(update: int, todo: RouterTodo)

  datatype Stage = Starting | Thinking | Emitting(run: string) | Completing(run: string) | Closing(run: string)

  datatype SessionWorker = SessionIdle | SessionBusy(update: int, record: Routed, stage: Stage)

  datatype Sending = Unsent | SentOk | SentFailed

  datatype Publisher = PublisherIdle | PublisherBusy(queue: seq<Claimed>, sending: Sending)

  datatype Claimed = Claimed(row: RowKey, payload: Envelope, attempts: nat)

  datatype TaskStage = Launching | Executing | Settling(settled: Task, outcome: Option<EventType>) | Posting(kind: EventType)

  datatype Tasker = TaskerIdle | TaskerBusy(task: TaskKey, record: Task, stage: TaskStage)

  // What happened, for the record

  datatype Turn = Turn(update: int, session: string, run: string)

  datatype Choice = Choice(update: int, inbound: Inbound, rule: Rule, decision: Decision)

  datatype Posted = Posted(row: RowKey, payload: Envelope)

  /**
    `choices` are the rules taken; `turns` are the chat turns that succeeded; `turned`, `committed` and `resets` count, for each
    event, its turns, the times it was marked completed, and the times it was made pending.
    `routerLost` and `turnLost` count the calls cut short after a routed event was written and
    before the inbound event was marked, and after a turn and before the event was completed.
   */
  datatype Log = Log(
    choices: seq<Choice>,
    posted: seq<Posted>,
    turns: seq<Turn>,
    turned: multiset<int>,
    committed: multiset<int>,
    resets: multiset<int>,
    routerLost: multiset<int>,
    turnLost: multiset<int>,
    sends: seq<D.Send>,
    notices: seq<F.Notice>)

  /**
    The webhook requests under way that have not found their event, by the event: those that
    have only asked, and those that have recorded it. `missed` counts all that ever missed it.
   */
  datatype Requests = Requests(missed: multiset<int>, asked: multiset<int>, recorded: multiset<int>)

  datatype Machine = Machine(
    db: Db,
    bus: seq<Message>,
    requests: Requests,
    router: Router,
    worker: SessionWorker,
    publisher: Publisher,
    tasker: Tasker,
    log: Log)

  function Start(world: World): Machine {
    Machine(
      Db(map[], map[], map[], map[], map[], map[], map[], world),
      [], Requests(multiset{}, multiset{}, multiset{}), RouterIdle, SessionIdle, PublisherIdle, TaskerIdle,
      Log([], [], [], multiset{}, multiset{}, multiset{}, multiset{}, multiset{}, [], []))
  }

  // Store writes

  function Post(m: Machine, k: RowKey, payload: Envelope, now: int): Machine {
    m.(db := m.db.(rows := m.db.rows[k := NewRow(payload, now)]),
       log := m.log.(posted := m.log.posted + [Posted(k, payload)]))
  }

  function PutTask(m: Machine, t: TaskKey, record: Task): Machine {
    m.(db := m.db.(tasks := m.db.tasks[t := record]))
  }

  function Mark(m: Machine, u: int, status: InboundStatus): Machine {
    if u in m.db.inbound
    then m.(db := m.db.(inbound := m.db.inbound[u := m.db.inbound[u].(status := status)]))
    else m
  }

  // Producers

  /** A webhook request looks its event up; one that finds it does nothing more to the store. */
  function Ask(m: Machine, u: int): Machine {
    if u in m.db.inbound then m
    else m.(requests := m.requests.(missed := m.requests.missed + multiset{u}, asked := m.requests.asked + multiset{u}))
  }

  /** A request that did not find its event stores it; of several such requests the first one's event stays. */
  function Receive(m: Machine, u: int, sourceId: string, operatorId: Option<string>, payload: Json): Machine {
    if m.requests.asked[u] == 0 then m
    else
      var inbound := if u in m.db.inbound then m.db.inbound
                     else m.db.inbound[u := Inbound("telegram", sourceId, operatorId, Parsed(payload), InboundPending)];
      m.(db := m.db.(inbound := inbound),
         requests := m.requests.(asked := m.requests.asked - multiset{u}, recorded := m.requests.recorded + multiset{u}))
  }

  /** It then posts the event, also when another request has stored or posted it. */
  function PostInput(m: Machine, u: int, now: int): Machine {
    if m.requests.recorded[u] == 0 then m
    else Post(m.(requests := m.requests.(recorded := m.requests.recorded - multiset{u})), InputRow(u), InputEnvelope(u, now), now)
  }

  function NewTask(token: string, source: string, owner: string, executor: string): Task {
    Task("agent_task", Some(source), Some(owner), Some(executor), Some("job-agentmsg-" + token), Queued, None, None, 0, None, None, None)
  }

  /** One agent messages another: a task for a new job, then the event that starts it. */
  function CreateTask(m: Machine, token: string, source: string, owner: string, executor: string, posts: bool, now: int): Machine {
    if JobTask(token) in m.db.tasks then m
    else
      var stored := PutTask(m, JobTask(token), NewTask(token, source, owner, executor));
      if posts then Post(stored, CreatedRow(token), CreatedEnvelope(token, now), now) else stored
  }

  // Publisher

  const BATCH := 64

  predicate IsDue(row: Row, now: int) {
    row.status.RowPending? && row.due <= now
  }

  /** The rows one claim takes: due ones, each once, the earliest due, and all of them up to the batch. */
  predicate IsClaim(rows: map<RowKey, Row>, keys: seq<RowKey>, now: int) {
    && |keys| <= BATCH
    && (forall k | k in keys :: k in rows && IsDue(rows[k], now))
    && (forall i, j | 0 <= i < j < |keys| :: keys[i] != keys[j])
    && (forall k | k in rows && IsDue(rows[k], now) && k !in keys ::
          |keys| == BATCH && forall j | j in keys :: rows[j].due <= rows[k].due)
  }

  function ClaimedRow(row: Row): Row {
    row.(status := RowPublishing, attempts := row.attempts + 1)
  }

  function ClaimRows(rows: map<RowKey, Row>, keys: seq<RowKey>): map<RowKey, Row> {
    map k | k in rows :: if k in keys then ClaimedRow(rows[k]) else rows[k]
  }

  function Queue(rows: map<RowKey, Row>, keys: seq<RowKey>): (queue: seq<Claimed>)
    requires forall k | k in keys :: k in rows
    ensures |queue| == |keys|
    ensures forall i | 0 <= i < |keys| :: queue[i] == Claimed(keys[i], rows[keys[i]].payload, rows[keys[i]].attempts + 1)
  {
    if keys == [] then []
    else [Claimed(keys[0], rows[keys[0]].payload, rows[keys[0]].attempts + 1)] + Queue(rows, keys[1..])
  }

  function Claim(m: Machine, keys: seq<RowKey>, now: int): Machine {
    if !m.publisher.PublisherIdle? || keys == [] || !IsClaim(m.db.rows, keys, now) then m
    else
      m.(db := m.db.(rows := ClaimRows(m.db.rows, keys)), publisher := PublisherBusy(Queue(m.db.rows, keys), Unsent))
  }

  /** A publication that fails may still have reached the bus. */
  datatype Publication = Accepted | Rejected | Unacknowledged

  function Publish(m: Machine, outcome: Publication): Machine {
    if !m.publisher.PublisherBusy? || !m.publisher.sending.Unsent? || m.publisher.queue == [] then m
    else
      var head := m.publisher.queue[0];
      var sending := if outcome.Accepted? then SentOk else SentFailed;
      m.(bus := if outcome.Rejected? then m.bus else m.bus + [Message(head.row, head.payload)],
         publisher := m.publisher.(sending := sending))
  }

  function RetryDelay(attempts: nat): nat {
    var bounded := if attempts < 1 then 1 else if attempts > 6 then 6 else attempts;
    var delay := Power2(bounded - 1);
    if delay < 60 then delay else 60
  }

  /** The delay doubles from one second to thirty-two with the attempts, so the cap of a minute is never reached. */
  lemma RetryDelayDoubles(attempts: nat)
    ensures 1 <= RetryDelay(attempts) <= 32
    ensures 1 <= attempts < 6 ==> RetryDelay(attempts + 1) == 2 * RetryDelay(attempts)
    ensures attempts >= 6 ==> RetryDelay(attempts) == 32
  {
    assert Power2(0) == 1 && Power2(1) == 2 && Power2(2) == 4;
    assert Power2(3) == 2 * Power2(2) && Power2(4) == 2 * Power2(3) && Power2(5) == 2 * Power2(4);
  }

  function Power2(n: nat): (p: nat)
    ensures p >= 1
  {
    if n == 0 then 1 else 2 * Power2(n - 1)
  }

  function MarkedRow(row: Row, sending: Sending, attempts: nat, now: int): Row {
    if sending.SentOk? then row.(status := RowPublished)
    else row.(status := RowPending, due := now + RetryDelay(attempts))
  }

  function MarkPublication(m: Machine, now: int): Machine {
    if !m.publisher.PublisherBusy? || m.publisher.sending.Unsent? || m.publisher.queue == [] then m
    else
      var head := m.publisher.queue[0];
      var rest := m.publisher.queue[1..];
      var rows := if head.row in m.db.rows
                  then m.db.rows[head.row := MarkedRow(m.db.rows[head.row], m.publisher.sending, head.attempts, now)]
                  else m.db.rows;
      m.(db := m.db.(rows := rows), publisher := if rest == [] then PublisherIdle else PublisherBusy(rest, Unsent))
  }

  function StopPublisher(m: Machine): Machine {
    m.(publisher := PublisherIdle)
  }

  // Router

  predicate Hears(m: Machine, i: nat, filter: string) {
    i < |m.bus| && E.Matches(filter, E.Subject(m.bus[i].payload.address))
  }

  /** A text, or else a caption, that begins with a slash; a text that is no string hides the caption. */
  predicate IsControlCommand(payload: Parsed<Json>) {
    payload.Parsed? &&
    var text := Get(payload.value, "text");
    var said := if text.Some? then text else Get(payload.value, "caption");
    said.Some? && said.value.Str? && var t := TrimStart(said.value.s); t != "" && t[0] == '/'
  }

  function RoutedRecord(rule: Rule, d: Decision, inbound: Inbound, now: int): Routed {
    Routed(rule.id, d.session, d.agent, d.queuePolicy, d.priority, inbound.payload, [], RoutedPending, now, None)
  }

  /** `command` is what handling a control command comes to, when its update can be rebuilt. */
  datatype RouterInput = RouterInput(
    config: B.Config,
    listing: seq<Rule>,
    created: Option<B.Created>,
    command: Option<bool>,
    budget: nat,
    now: int)

  function Bound(m: Machine, inbound: Inbound, a: RouterInput): B.Tables {
    var t := B.Tables(m.db.world, m.db.routes, a.budget, B.Unbound);
    if inbound.sourceKind == "telegram" then B.Bind(a.config, t, inbound.payload, a.created, inbound.sourceId, a.now) else t
  }

  function WithTables(m: Machine, world: World, routes: map<string, Route>, router: Router): Machine {
    m.(db := m.db.(world := world, routes := routes), router := router)
  }

  /** The output routes of a matched rule; when all are written the routed event is next. */
  ghost function JoinRoutes(m: Machine, u: int, inbound: Inbound, rule: Rule, d: Decision, t: B.Tables, now: int): Machine {
    var p := Materialize(t.world, t.routes, d, now, t.budget);
    if p.outcome.Done?
    then WithTables(m, t.world, p.routes, RouterBusy(u, PutRouted(RoutedRecord(rule, d, inbound, now))))
         .(log := m.log.(choices := m.log.choices + [Choice(u, inbound, rule, d)]))
    else WithTables(m, t.world, p.routes, RouterBusy(u, MarkFailed))
  }

  /** Binding and output routes, up to where the routed event is about to be written. */
  ghost function RouteEvent(m: Machine, u: int, inbound: Inbound, a: RouterInput): Machine {
    var t := Bound(m, inbound, a);
    if t.outcome.BindFailed? then WithTables(m, t.world, t.routes, m.router)
    else if !IsRuleListing(t.world.rules, a.listing) then m
    else
      match ResolveRoute(inbound, a.listing)
      case Unmatched => WithTables(m, t.world, t.routes, RouterBusy(u, PostDead))
      case Invalid => WithTables(m, t.world, t.routes, RouterBusy(u, MarkFailed))
      case Matched(rule, d) => JoinRoutes(m, u, inbound, rule, d, t, a.now)
  }

  ghost function BeginRouter(m: Machine, i: nat, a: RouterInput): Machine {
    if !m.router.RouterIdle? || !Hears(m, i, E.ROUTER_FILTER) then m
    else
      var e := m.bus[i].payload;
      if !e.kind.MessageReceived? || !e.ref.InboundRef? || e.ref.update !in m.db.inbound then m
      else
        var u := e.ref.update;
        var inbound := m.db.inbound[u];
        if inbound.status.InboundProcessed? then m
        else if IsControlCommand(inbound.payload) then
          match a.command
          case None => m
          case Some(handled) => m.(router := RouterBusy(u, if handled then MarkProcessed(false) else MarkFailed))
        else RouteEvent(m, u, inbound, a)
  }

  function StepRouter(m: Machine, now: int): Machine {
    if !m.router.RouterBusy? then m
    else
      var u := m.router.update;
      match m.router.todo
      case MarkFailed => Mark(m, u, InboundFailed).(router := RouterIdle)
      case PostDead => Post(m, DeadLetterRow(u), DeadEnvelope(u, now), now).(router := RouterBusy(u, MarkFailed))
      case PutRouted(record) =>
        m.(db := m.db.(routed := m.db.routed[u := record]),
           router := RouterBusy(u, PostRouted(record.session)),
           log := m.log.(resets := m.log.resets + multiset{u}))
      case PostRouted(session) =>
        Post(m, RoutedRow(u), RoutedEnvelope(u, session, now), now).(router := RouterBusy(u, MarkProcessed(true)))
      case MarkProcessed(_) => Mark(m, u, InboundProcessed).(router := RouterIdle)
  }

  /** The routed event is written and the inbound event is not yet marked. */
  predicate IsRouting(todo: RouterTodo) {
    todo.PostRouted? || (todo.MarkProcessed? && todo.routed)
  }

  function LoseRouting(m: Machine): Log {
    if m.router.RouterBusy? && IsRouting(m.router.todo)
    then m.log.(routerLost := m.log.routerLost + multiset{m.router.update})
    else m.log
  }

  /** A write fails: the event is marked failed, unless it was the marking that failed. */
  function FailRouter(m: Machine): Machine {
    if !m.router.RouterBusy? then m
    else
      var next := if m.router.todo.MarkFailed? || m.router.todo.MarkProcessed? then RouterIdle
                  else RouterBusy(m.router.update, MarkFailed);
      m.(router := next, log := LoseRouting(m))
  }

  function StopRouter(m: Machine): Machine {
    m.(router := RouterIdle, log := LoseRouting(m))
  }

  // Session worker

  function TurnTask(record: Routed, status: TaskStatus, run: Option<string>, now: int): Task {
    var waiting := status.WaitingDependency?;
    Task("session_input", Some(record.session), Some(record.agent), Some(record.agent), None, status, run, None,
         if waiting then 0 else 1, if waiting then None else Some(now), if status.Completed? then Some(now) else None, None)
  }

  function MessageText(record: Routed): Option<string> {
    if record.payload.Malformed? then None
    else
      match GetString(record.payload.value, "text")
      case None => None
      case Some(text) => if IsBlank(text) then None else Some(text)
  }

  function BeginTurn(m: Machine, i: nat): Machine {
    if !m.worker.SessionIdle? || !Hears(m, i, E.SESSION_FILTER) then m
    else
      var e := m.bus[i].payload;
      if !e.kind.InputRouted? || !e.ref.RoutedRef? || e.ref.routed !in m.db.routed then m
      else if m.db.routed[e.ref.routed].status.RoutedCompleted? then m
      else m.(worker := SessionBusy(e.ref.routed, m.db.routed[e.ref.routed], Starting))
  }

  function StepTurn(m: Machine, now: int): Machine {
    if !m.worker.SessionBusy? then m
    else
      var u, record := m.worker.update, m.worker.record;
      match m.worker.stage
      case Starting =>
        if record.dependencies != []
        then PutTask(m, RoutedTask(u), TurnTask(record, WaitingDependency, None, now)).(worker := SessionIdle)
        else PutTask(m, RoutedTask(u), TurnTask(record, Running, None, now)).(worker := SessionBusy(u, record, Thinking))
      case Thinking => m
      case Emitting(run) =>
        Post(m, OutputRow(u), OutputEnvelope(u, record.session, run, now), now).(worker := SessionBusy(u, record, Completing(run)))
      case Completing(run) =>
        m.(db := m.db.(routed := m.db.routed[u := record.(status := RoutedCompleted, publishedAt := Some(now))]),
           worker := SessionBusy(u, record, Closing(run)),
           log := m.log.(committed := m.log.committed + multiset{u}))
      case Closing(run) =>
        PutTask(m, RoutedTask(u), TurnTask(record, Completed, Some(run), now)).(worker := SessionIdle)
  }

  /** The chat turn itself: it yields a run, or fails. */
  function TakeTurn(m: Machine, run: Option<string>): Machine {
    if !m.worker.SessionBusy? || !m.worker.stage.Thinking? then m
    else
      var u, record := m.worker.update, m.worker.record;
      if MessageText(record).None? || run.None? then m.(worker := SessionIdle)
      else
        m.(worker := SessionBusy(u, record, Emitting(run.value)),
           log := m.log.(turns := m.log.turns + [Turn(u, record.session, run.value)],
                         turned := m.log.turned + multiset{u}))
  }

  /** A turn was taken and its event is not yet completed. */
  predicate IsTurning(stage: Stage) {
    stage.Emitting? || stage.Completing?
  }

  function StopTurn(m: Machine): Machine {
    var lost := m.worker.SessionBusy? && IsTurning(m.worker.stage);
    m.(worker := SessionIdle,
       log := if lost then m.log.(turnLost := m.log.turnLost + multiset{m.worker.update}) else m.log)
  }

  // Task worker

  datatype JobStatus = JobCompleted | JobFailed | JobCancelled | JobBlocked | JobOther

  datatype Job = Job(status: JobStatus, run: Option<string>, finishedAt: Option<int>, updatedAt: int, error: Option<string>, lines: seq<string>)

  datatype JobOutcome = JobError(message: string) | JobDone(job: Job)

  function StatusOf(job: Job): TaskStatus {
    match job.status
    case JobCompleted => Completed
    case JobFailed => Failed
    case JobCancelled => Cancelled
    case JobBlocked => Blocked
    case JobOther => Running
  }

  function FinishedAt(job: Job): Option<int> {
    match job.status
    case JobOther => None
    case JobBlocked => Or(job.finishedAt, Some(job.updatedAt))
    case _ => job.finishedAt
  }

  function ErrorOf(job: Job): Option<string> {
    if job.status.JobCompleted? || job.status.JobOther? then None else job.error
  }

  function ResultKind(job: Job): EventType {
    match job.status
    case JobCompleted => TaskCompleted
    case JobFailed => TaskFailed
    case JobCancelled => TaskFailed
    case JobBlocked => TaskBlocked
    case JobOther => TaskUpdated
  }

  function BeginTask(m: Machine, i: nat): Machine {
    if !m.tasker.TaskerIdle? || !Hears(m, i, E.TASK_FILTER) then m
    else
      var e := m.bus[i].payload;
      if !(e.kind.TaskCreated? || e.kind.DelegateCreated?) || !e.ref.TaskRef? || e.ref.task !in m.db.tasks then m
      else
        var record := m.db.tasks[e.ref.task];
        if IsTerminal(record.status) || record.job.None? then m
        else m.(tasker := TaskerBusy(e.ref.task, record, Launching))
  }

  function Launched(record: Task, now: int): Task {
    record.(status := Running, startedAt := Or(record.startedAt, Some(now)), attempts := record.attempts + 1)
  }

  function StepTask(m: Machine, now: int): Machine {
    if !m.tasker.TaskerBusy? then m
    else
      var t, record := m.tasker.task, m.tasker.record;
      match m.tasker.stage
      case Launching => PutTask(m, t, Launched(record, now)).(tasker := TaskerBusy(t, Launched(record, now), Executing))
      case Executing => m
      case Settling(settled, kind) =>
        PutTask(m, t, settled).(tasker := if kind.Some? then TaskerBusy(t, settled, Posting(kind.value)) else TaskerIdle)
      case Posting(kind) => Post(m, ResultRow(t), ResultEnvelope(t, kind, now), now).(tasker := TaskerIdle)
  }

  function SettledTask(record: Task, job: Job): Task {
    record.(status := StatusOf(job), result := Some(job.lines), run := job.run, finishedAt := FinishedAt(job), error := ErrorOf(job))
  }

  function RunJob(m: Machine, outcome: JobOutcome, now: int): Machine {
    if !m.tasker.TaskerBusy? || !m.tasker.stage.Executing? then m
    else
      var t, record := m.tasker.task, m.tasker.record;
      match outcome
      case JobError(message) =>
        m.(tasker := TaskerBusy(t, record, Settling(record.(status := Failed, finishedAt := Some(now), error := Some(message)), None)))
      case JobDone(job) =>
        m.(tasker := TaskerBusy(t, record, Settling(SettledTask(record, job),
                                                    if FinishedAt(job).Some? then Some(ResultKind(job)) else None)))
  }

  function StopTask(m: Machine): Machine {
    m.(tasker := TaskerIdle)
  }

  // Delivery

  /** Why a message does not lead to a delivery. */
  datatype DeliveryError = MissingOutbox | InvalidEnvelope | MissingTranscript

  datatype Delivered<T> = Refused(error: DeliveryError) | Ready(value: T)

  /** The output that an event's row stands for, as far as the store can tell. */
  function OutgoingOf(db: Db, event: EventKey): Delivered<D.Outgoing> {
    var k := RowOf(event);
    if k !in db.rows then Refused(MissingOutbox)
    else
      var e := db.rows[k].payload;
      if !e.kind.OutputCreated? || !e.ref.RunRef? then Refused(InvalidEnvelope)
      else
        var latest := T.Latest(T.AssistantOf(db.world.transcripts, e.session, e.ref.run));
        if latest.None? then Refused(MissingTranscript)
        else if e.session !in db.world.sessions || e.ref.run !in db.world.runs then Refused(InvalidEnvelope)
        else Ready(D.Outgoing(e.event, e.session, db.world.sessions[e.session].agent, latest.value, e.ref.run, db.world.runs[e.ref.run]))
  }

  function DeliverOutput(m: Machine, i: nat, listing: seq<string>, accepts: set<string>, budget: nat, now: int): Machine {
    if !Hears(m, i, E.DELIVERY_FILTER) || !m.bus[i].payload.kind.OutputCreated? then m
    else
      match OutgoingOf(m.db, m.bus[i].payload.event)
      case Refused(_) => m
      case Ready(out) =>
        if !D.IsListing(m.db.routes, out.session, listing) then m
        else
          var d := D.DeliverToFirst(m.db.world.targets, out,
                                    D.Dispatch(m.db.routes, m.db.deliveries, m.log.sends, budget, 0, 0, 0, false),
                                    m.db.routes, listing, |listing|, accepts, now);
          m.(db := m.db.(routes := d.routes, deliveries := d.deliveries), log := m.log.(sends := d.sends))
  }

  function ResultOf(db: Db, event: EventKey): Delivered<TaskKey> {
    var k := RowOf(event);
    if k !in db.rows then Refused(MissingOutbox)
    else
      var e := db.rows[k].payload;
      if !IsResultKind(e.kind) || !e.ref.TaskRef? || e.ref.task !in db.tasks then Refused(InvalidEnvelope)
      else Ready(e.ref.task)
  }

  function DeliverResult(m: Machine, i: nat, listing: seq<string>, accepts: set<string>, budget: nat, now: int): Machine {
    if !Hears(m, i, E.TASK_FILTER) || !IsResultKind(m.bus[i].payload.kind) then m
    else
      match ResultOf(m.db, m.bus[i].payload.event)
      case Refused(_) => m
      case Ready(t) =>
        if !F.IsFollowerListing(m.db.followers, t, listing) then m
        else
          var x := F.RelayToFirst(m.db.world.targets, m.db.rows[RowOf(m.bus[i].payload.event)].payload.event, t, m.db.tasks[t],
                                  F.Relay(m.db.followers, m.db.deliveries, m.log.notices, budget, 0, 0, 0, false),
                                  m.db.followers, listing, |listing|, accepts, now);
          m.(db := m.db.(followers := x.followers, deliveries := x.deliveries), log := m.log.(notices := x.notices))
  }

  /** An operator starts or stops following a task; whether the follower was served is kept. */
  function Follow(m: Machine, id: string, f: Follower): Machine {
    var served := if id in m.db.followers then m.db.followers[id].deliveredAt else None;
    m.(db := m.db.(followers := m.db.followers[id := f.(deliveredAt := served)]))
  }

  // Runs

  datatype Step =
    | DoAsk(u: int)
    | DoReceive(u: int, sourceId: string, operatorId: Option<string>, payload: Json)
    | DoPostInput(u: int, now: int)
    | DoCreateTask(token: string, source: string, owner: string, executor: string, posts: bool, now: int)
    | DoClaim(keys: seq<RowKey>, now: int)
    | DoPublish(publication: Publication)
    | DoMarkPublication(now: int)
    | DoStopPublisher
    | DoBeginRouter(i: nat, input: RouterInput)
    | DoStepRouter(now: int)
    | DoFailRouter
    | DoStopRouter
    | DoBeginTurn(i: nat)
    | DoStepTurn(now: int)
    | DoTakeTurn(run: Option<string>)
    | DoStopTurn
    | DoBeginTask(i: nat)
    | DoStepTask(now: int)
    | DoRunJob(outcome: JobOutcome, now: int)
    | DoStopTask
    | DoDeliverOutput(i: nat, listing: seq<string>, accepts: set<string>, budget: nat, now: int)
    | DoDeliverResult(i: nat, listing: seq<string>, accepts: set<string>, budget: nat, now: int)
    | DoFollow(id: string, follower: Follower)
    | DoChangeWorld(world: World)

  /** One step; a step whose worker is not ready for it leaves the machine as it is. */
  ghost function Do(m: Machine, s: Step): Machine {
    match s
    case DoAsk(u) => Ask(m, u)
    case DoReceive(u, sourceId, operatorId, payload) => Receive(m, u, sourceId, operatorId, payload)
    case DoPostInput(u, now) => PostInput(m, u, now)
    case DoCreateTask(token, source, owner, executor, posts, now) => CreateTask(m, token, source, owner, executor, posts, now)
    case DoClaim(keys, now) => Claim(m, keys, now)
    case DoPublish(publication) => Publish(m, publication)
    case DoMarkPublication(now) => MarkPublication(m, now)
    case DoStopPublisher => StopPublisher(m)
    case DoBeginRouter(i, input) => BeginRouter(m, i, input)
    case DoStepRouter(now) => StepRouter(m, now)
    case DoFailRouter => FailRouter(m)
    case DoStopRouter => StopRouter(m)
    case DoBeginTurn(i) => BeginTurn(m, i)
    case DoStepTurn(now) => StepTurn(m, now)
    case DoTakeTurn(run) => TakeTurn(m, run)
    case DoStopTurn => StopTurn(m)
    case DoBeginTask(i) => BeginTask(m, i)
    case DoStepTask(now) => StepTask(m, now)
    case DoRunJob(outcome, now) => RunJob(m, outcome, now)
    case DoStopTask => StopTask(m)
    case DoDeliverOutput(i, listing, accepts, budget, now) => DeliverOutput(m, i, listing, accepts, budget, now)
    case DoDeliverResult(i, listing, accepts, budget, now) => DeliverResult(m, i, listing, accepts, budget, now)
    case DoFollow(id, follower) => Follow(m, id, follower)
    case DoChangeWorld(world) => m.(db := m.db.(world := world))
  }

  /** A run from an empty store: its steps, and the machine before, between and behind them. */
  datatype Execution = Execution(world: World, steps: seq<Step>, states: seq<Machine>)

  ghost predicate IsExecution(run: Execution) {
    && |run.states| == |run.steps| + 1 && run.states[0] == Start(run.world)
    && forall i {:trigger run.steps[i]} | 0 <= i < |run.steps| :: run.states[i + 1] == Do(run.states[i], run.steps[i])
  }

  function End(run: Execution): Machine {
    if run.states == [] then Start(run.world) else run.states[|run.states| - 1]
  }

  /** The run as far as its first `n` steps. */
  function Upto(run: Execution, n: nat): Execution
    requires n <= |run.steps| && |run.states| == |run.steps| + 1
  {
    Execution(run.world, run.steps[..n], run.states[..n + 1])
  }

  lemma UptoIsExecution(run: Execution, n: nat)
    requires IsExecution(run) && n <= |run.steps|
    ensures IsExecution(Upto(run, n)) && End(Upto(run, n)) == run.states[n]
  {
    hide Do;
    var part := Upto(run, n);
    forall i | 0 <= i < |part.steps|
      ensures part.states[i + 1] == Do(part.states[i], part.steps[i])
    {
      assert part.steps[i] == run.steps[i];
    }
  }

  lemma LastStep(run: Execution) returns (before: Execution, s: Step)
    requires IsExecution(run) && run.steps != []
    ensures before == Upto(run, |run.steps| - 1) && IsExecution(before)
    ensures s == run.steps[|run.steps| - 1] && End(run) == Do(End(before), s)
  {
    hide Do;
    before, s := Upto(run, |run.steps| - 1), run.steps[|run.steps| - 1];
    UptoIsExecution(run, |run.steps| - 1);
  }

  lemma ExecutionStates(run: Execution)
    requires IsExecution(run)
    ensures |run.states| == |run.steps| + 1
  {
    hide Do;
  }

  ghost function Append(run: Execution, s: Step): Execution {
    Execution(run.world, run.steps + [s], run.states + [Do(End(run), s)])
  }

  /** Any step may follow any run. */
  lemma AppendIsExecution(run: Execution, s: Step)
    requires IsExecution(run)
    ensures IsExecution(Append(run, s)) && End(Append(run, s)) == Do(End(run), s)
  {
    hide Do;
    var all := Append(run, s);
    forall i | 0 <= i < |all.steps|
      ensures all.states[i + 1] == Do(all.states[i], all.steps[i])
    {
      if i < |run.steps| {
        assert all.steps[i] == run.steps[i];
      }
    }
  }
}

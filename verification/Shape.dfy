/** What every reachable store and bus look like: each row, message and call in progress has its owner. */
module Shape {
  import opened Text
  import opened Ids
  import opened Records
  import opened Machine
  import opened Frames
  import E = EventBus
  import D = Delivery
  import F = Followers
  import Json

  /** The envelope that a row of this key carries, whatever session, run, outcome or time it names. */
  predicate RowShape(k: RowKey, e: Envelope) {
    match k
    case InputRow(u) => e == InputEnvelope(u, e.createdAt)
    case RoutedRow(u) => e.address.SessionInput? && e == RoutedEnvelope(u, e.address.session, e.createdAt)
    case OutputRow(u) => e.ref.RunRef? && e == OutputEnvelope(u, e.session, e.ref.run, e.createdAt)
    case DeadLetterRow(u) => e == DeadEnvelope(u, e.createdAt)
    case CreatedRow(token) => e == CreatedEnvelope(token, e.createdAt)
    case ResultRow(t) => t.JobTask? && IsResultKind(e.kind) && e == ResultEnvelope(t, e.kind, e.createdAt)
  }

  /** The record that a row is about exists. */
  predicate IsOwned(k: RowKey, inbound: map<int, Inbound>, routed: map<int, Routed>, tasks: map<TaskKey, Task>) {
    match k
    case InputRow(u) => u in inbound
    case RoutedRow(u) => u in routed
    case OutputRow(u) => u in routed
    case DeadLetterRow(u) => u in inbound
    case CreatedRow(token) => JobTask(token) in tasks
    case ResultRow(t) => t in tasks
  }

  predicate RowsShaped(rows: map<RowKey, Row>, posted: seq<Posted>) {
    forall k | k in rows :: RowShape(k, rows[k].payload) && Posted(k, rows[k].payload) in posted
  }

  predicate RowsOwned(rows: map<RowKey, Row>, inbound: map<int, Inbound>, routed: map<int, Routed>, tasks: map<TaskKey, Task>) {
    && (forall k | k in rows :: IsOwned(k, inbound, routed, tasks))
    && (forall u | u in routed :: u in inbound)
  }

  predicate MessageShaped(k: RowKey, e: Envelope, rows: map<RowKey, Row>, posted: seq<Posted>) {
    RowShape(k, e) && k in rows && Posted(k, e) in posted
  }

  predicate BusShaped(bus: seq<Message>, rows: map<RowKey, Row>, posted: seq<Posted>) {
    forall i | 0 <= i < |bus| :: MessageShaped(bus[i].row, bus[i].payload, rows, posted)
  }

  predicate QueueShaped(p: Publisher, rows: map<RowKey, Row>, posted: seq<Posted>) {
    p.PublisherBusy? ==>
      p.queue != [] && forall i | 0 <= i < |p.queue| :: MessageShaped(p.queue[i].row, p.queue[i].payload, rows, posted)
  }

  /** A router call is about a stored event not yet processed, and past its first write about a routed one. */
  predicate RouterOwned(r: Router, inbound: map<int, Inbound>, routed: map<int, Routed>) {
    r.RouterBusy? ==>
      && r.update in inbound && !inbound[r.update].status.InboundProcessed?
      && (IsRouting(r.todo) ==> r.update in routed)
  }

  predicate WorkerOwned(w: SessionWorker, routed: map<int, Routed>) {
    w.SessionBusy? ==> w.update in routed
  }

  predicate TaskerOwned(t: Tasker, tasks: map<TaskKey, Task>) {
    t.TaskerBusy? ==>
      && t.task.JobTask? && t.task in tasks
      && (t.stage.Posting? ==> IsResultKind(t.stage.kind))
      && (t.stage.Settling? && t.stage.outcome.Some? ==> IsResultKind(t.stage.outcome.value))
  }

  /** A request that has recorded its event finds it stored. */
  ghost predicate RequestsOwned(r: Requests, inbound: map<int, Inbound>) {
    forall u | r.recorded[u] > 0 :: u in inbound
  }

  ghost predicate Shaped(m: Machine) {
    && RowsShaped(m.db.rows, m.log.posted)
    && RowsOwned(m.db.rows, m.db.inbound, m.db.routed, m.db.tasks)
    && BusShaped(m.bus, m.db.rows, m.log.posted)
    && QueueShaped(m.publisher, m.db.rows, m.log.posted)
    && RouterOwned(m.router, m.db.inbound, m.db.routed)
    && WorkerOwned(m.worker, m.db.routed)
    && TaskerOwned(m.tasker, m.db.tasks)
    && RequestsOwned(m.requests, m.db.inbound)
  }

  lemma PostShaped(m: Machine, k: RowKey, e: Envelope, now: int)
    requires Shaped(m) && RowShape(k, e) && IsOwned(k, m.db.inbound, m.db.routed, m.db.tasks)
    ensures Shaped(Post(m, k, e, now))
  {
    hide RowShape, IsOwned, RouterOwned, WorkerOwned, TaskerOwned;
  }

  lemma PutTaskShaped(m: Machine, t: TaskKey, record: Task)
    requires Shaped(m)
    ensures Shaped(PutTask(m, t, record))
  {
    hide RowsShaped, BusShaped, QueueShaped, RouterOwned, WorkerOwned;
  }

  lemma MarkShaped(m: Machine, status: InboundStatus)
    requires Shaped(m) && m.router.RouterBusy?
    ensures Shaped(Mark(m, m.router.update, status).(router := RouterIdle))
  {
    hide RowsShaped, BusShaped, QueueShaped, WorkerOwned, TaskerOwned;
  }

  lemma PutRoutedShaped(m: Machine, u: int, record: Routed)
    requires Shaped(m) && u in m.db.inbound
    ensures Shaped(m.(db := m.db.(routed := m.db.routed[u := record])))
  {
    hide RowsShaped, BusShaped, QueueShaped, TaskerOwned;
  }

  /** The rows may change in status only. */
  predicate SamePayloads(a: map<RowKey, Row>, b: map<RowKey, Row>) {
    a.Keys == b.Keys && forall k | k in a :: a[k].payload == b[k].payload
  }

  lemma RowsMarkedShaped(m: Machine, rows: map<RowKey, Row>)
    requires Shaped(m) && SamePayloads(m.db.rows, rows)
    ensures Shaped(m.(db := m.db.(rows := rows)))
  {
    hide RowShape, IsOwned, RouterOwned, WorkerOwned, TaskerOwned;
  }

  lemma ClaimPayloads(m: Machine, keys: seq<RowKey>, now: int)
    ensures SamePayloads(m.db.rows, Claim(m, keys, now).db.rows)
  {
    hide IsClaim, ClaimRows, SamePayloads;
    ClaimedPayloads(m.db.rows, keys);
  }

  lemma ClaimedPayloads(rows: map<RowKey, Row>, keys: seq<RowKey>)
    ensures SamePayloads(rows, rows) && SamePayloads(rows, ClaimRows(rows, keys))
  {
  }

  lemma MarkPayloads(m: Machine, now: int)
    ensures SamePayloads(m.db.rows, MarkPublication(m, now).db.rows)
  {
    hide MarkedRow, SamePayloads;
    ClaimedPayloads(m.db.rows, []);
    if m.publisher.PublisherBusy? && m.publisher.queue != [] && m.publisher.queue[0].row in m.db.rows {
      MarkedPayloads(m.db.rows, m.publisher.queue[0], m.publisher.sending, now);
    }
  }

  lemma MarkedPayloads(rows: map<RowKey, Row>, c: Claimed, sending: Sending, now: int)
    requires c.row in rows
    ensures SamePayloads(rows, rows[c.row := MarkedRow(rows[c.row], sending, c.attempts, now)])
  {
    hide RetryDelay;
  }

  lemma ClaimShaped(m: Machine, keys: seq<RowKey>, now: int)
    requires Shaped(m)
    ensures Shaped(Claim(m, keys, now))
  {
    hide RowShape, RowsOwned, BusShaped, RouterOwned, WorkerOwned, TaskerOwned, IsDue, BATCH;
    if m.publisher.PublisherIdle? && keys != [] && IsClaim(m.db.rows, keys, now) {
      var rows := ClaimRows(m.db.rows, keys);
      assert SamePayloads(m.db.rows, rows);
      RowsMarkedShaped(m, rows);
      var queue := Queue(m.db.rows, keys);
      forall i | 0 <= i < |queue|
        ensures MessageShaped(queue[i].row, queue[i].payload, rows, m.log.posted)
      {
        assert keys[i] in keys;
      }
    }
  }

  lemma PublishShaped(m: Machine, outcome: Publication)
    requires Shaped(m)
    ensures Shaped(Publish(m, outcome))
  {
    hide RowsShaped, RowsOwned, MessageShaped, RouterOwned, WorkerOwned, TaskerOwned;
  }

  lemma MarkPublicationShaped(m: Machine, now: int)
    requires Shaped(m)
    ensures Shaped(MarkPublication(m, now))
  {
    hide RowsShaped, RowsOwned, MessageShaped, RouterOwned, WorkerOwned, TaskerOwned, RetryDelay, BusShaped;
    if m.publisher.PublisherBusy? && !m.publisher.sending.Unsent? && m.publisher.queue != [] {
      var head := m.publisher.queue[0];
      if head.row in m.db.rows {
        var rows := m.db.rows[head.row := MarkedRow(m.db.rows[head.row], m.publisher.sending, head.attempts, now)];
        assert SamePayloads(m.db.rows, rows);
        RowsMarkedShaped(m, rows);
      }
    }
  }

  /** A message that a consumer hears is one that its producer posted. */
  lemma Heard(m: Machine, i: nat)
    requires Shaped(m) && i < |m.bus|
    ensures RowShape(m.bus[i].row, m.bus[i].payload)
    ensures Hears(m, i, E.ROUTER_FILTER) <==> m.bus[i].row.InputRow?
    ensures Hears(m, i, E.SESSION_FILTER) <==> m.bus[i].row.RoutedRow?
    ensures Hears(m, i, E.DELIVERY_FILTER) <==> m.bus[i].row.OutputRow?
    ensures Hears(m, i, E.TASK_FILTER) <==> m.bus[i].row.CreatedRow? || m.bus[i].row.ResultRow?
  {
    hide E.Matches, E.Subject, E.SubjectToken, E.ROUTER_FILTER, E.SESSION_FILTER, E.DELIVERY_FILTER, E.TASK_FILTER, TaskId;
    assert MessageShaped(m.bus[i].row, m.bus[i].payload, m.db.rows, m.log.posted);
    E.FiltersSeparate(m.bus[i].payload.address);
    E.TelegramIsHeard();
  }

  lemma ReceivedShaped(m: Machine, u: int, sourceId: string, operatorId: Option<string>, payload: Json.Json)
    requires Shaped(m)
    ensures Shaped(Receive(m, u, sourceId, operatorId, payload))
  {
    hide RowsShaped, BusShaped, QueueShaped, WorkerOwned, TaskerOwned;
  }

  lemma AskShaped(m: Machine, u: int)
    requires Shaped(m)
    ensures Shaped(Ask(m, u))
  {
    hide RowsShaped, RowsOwned, BusShaped, QueueShaped, RouterOwned, WorkerOwned, TaskerOwned;
  }

  lemma PostInputShaped(m: Machine, u: int, now: int)
    requires Shaped(m)
    ensures Shaped(PostInput(m, u, now))
  {
    hide RowsShaped, RowsOwned, BusShaped, QueueShaped, RouterOwned, WorkerOwned, TaskerOwned, Post;
    if m.requests.recorded[u] > 0 {
      var next := m.(requests := m.requests.(recorded := m.requests.recorded - multiset{u}));
      assert Shaped(next);
      PostShaped(next, InputRow(u), InputEnvelope(u, now), now);
    }
  }

  lemma CreatedTaskShaped(m: Machine, token: string, source: string, owner: string, executor: string, posts: bool, now: int)
    requires Shaped(m)
    ensures Shaped(CreateTask(m, token, source, owner, executor, posts, now))
  {
    hide Post, PutTask, CreatedEnvelope, NewTask, Shaped;
    CreateTaskShaped(m, token, NewTask(token, source, owner, executor), now);
  }

  lemma CreateTaskShaped(m: Machine, token: string, record: Task, now: int)
    requires Shaped(m)
    ensures Shaped(PutTask(m, JobTask(token), record))
    ensures Shaped(Post(PutTask(m, JobTask(token), record), CreatedRow(token), CreatedEnvelope(token, now), now))
  {
    hide RowsShaped, BusShaped, QueueShaped, RouterOwned, WorkerOwned, TaskerOwned, RowsOwned, Post, Shaped;
    PutTaskShaped(m, JobTask(token), record);
    PostShaped(PutTask(m, JobTask(token), record), CreatedRow(token), CreatedEnvelope(token, now), now);
  }

  /** The parts of the machine that its shape is about, but for the calls in progress. */
  predicate SameParts(m: Machine, n: Machine) {
    && n.db.rows == m.db.rows && n.db.inbound == m.db.inbound && n.db.routed == m.db.routed && n.db.tasks == m.db.tasks
    && n.bus == m.bus && n.log.posted == m.log.posted && n.publisher == m.publisher && n.requests == m.requests
  }

  lemma SamePartsShaped(m: Machine, n: Machine)
    requires Shaped(m) && SameParts(m, n)
    requires RouterOwned(n.router, m.db.inbound, m.db.routed)
    requires WorkerOwned(n.worker, m.db.routed) && TaskerOwned(n.tasker, m.db.tasks)
    ensures Shaped(n)
  {
    hide RowsShaped, BusShaped, QueueShaped, RouterOwned, WorkerOwned, TaskerOwned, RowsOwned;
  }

  lemma BeginRouterShaped(m: Machine, i: nat, a: RouterInput)
    requires Shaped(m)
    ensures Shaped(BeginRouter(m, i, a))
  {
    hide BeginRouter, RowsShaped, BusShaped, QueueShaped, WorkerOwned, TaskerOwned, RowsOwned;
    BeginRouterFrame(m, i, a);
    SamePartsShaped(m, BeginRouter(m, i, a));
  }

  lemma StepRouterShaped(m: Machine, now: int)
    requires Shaped(m)
    ensures Shaped(StepRouter(m, now))
  {
    hide RowsShaped, BusShaped, QueueShaped, WorkerOwned, TaskerOwned, RowsOwned, Post, Mark;
    if m.router.RouterBusy? {
      var u := m.router.update;
      match m.router.todo
      case MarkFailed => MarkShaped(m, InboundFailed);
      case PostDead => PostKeeps(m, DeadLetterRow(u), DeadEnvelope(u, now), now);
      case PutRouted(record) => PutRoutedShaped(m, u, record);
      case PostRouted(session) => PostRoutedShaped(m, u, session, now);
      case MarkProcessed(_) => MarkShaped(m, InboundProcessed);
    }
  }

  /** Posting leaves all but the rows and the log alone. */
  lemma PostKeeps(m: Machine, k: RowKey, e: Envelope, now: int)
    requires Shaped(m) && RowShape(k, e) && IsOwned(k, m.db.inbound, m.db.routed, m.db.tasks)
    ensures var n := Post(m, k, e, now);
      Shaped(n) && n.router == m.router && n.worker == m.worker && n.tasker == m.tasker
      && n.db.inbound == m.db.inbound && n.db.routed == m.db.routed && n.db.tasks == m.db.tasks
  {
    PostShaped(m, k, e, now);
  }

  lemma PostRoutedShaped(m: Machine, u: int, session: string, now: int)
    requires Shaped(m) && u in m.db.routed
    ensures var n := Post(m, RoutedRow(u), RoutedEnvelope(u, session, now), now);
      Shaped(n) && n.db.inbound == m.db.inbound && n.db.routed == m.db.routed
  {
    PostKeeps(m, RoutedRow(u), RoutedEnvelope(u, session, now), now);
  }

  lemma StepTurnShaped(m: Machine, now: int)
    requires Shaped(m)
    ensures Shaped(StepTurn(m, now))
  {
    hide RowsShaped, BusShaped, QueueShaped, RouterOwned, TaskerOwned, RowsOwned, Post, PutTask, TurnTask, OutputEnvelope;
    if m.worker.SessionBusy? {
      var u, record := m.worker.update, m.worker.record;
      match m.worker.stage
      case Starting =>
        TurnTaskShaped(m, u, TurnTask(record, WaitingDependency, None, now));
        TurnTaskShaped(m, u, TurnTask(record, Running, None, now));
      case Thinking =>
      case Emitting(run) => PostOutputShaped(m, u, record.session, run, now);
      case Completing(run) => CompletingShaped(m, u, record.(status := RoutedCompleted, publishedAt := Some(now)));
      case Closing(run) => TurnTaskShaped(m, u, TurnTask(record, Completed, Some(run), now));
    }
  }

  lemma BeginTurnShaped(m: Machine, i: nat)
    requires Shaped(m)
    ensures Shaped(BeginTurn(m, i))
  {
    hide RowsShaped, BusShaped, QueueShaped, RouterOwned, TaskerOwned, RowsOwned, Hears;
    if Hears(m, i, E.SESSION_FILTER) {
      HearsInBus(m, i, E.SESSION_FILTER);
    }
    SamePartsShaped(m, BeginTurn(m, i));
  }

  lemma TakeTurnShaped(m: Machine, run: Option<string>)
    requires Shaped(m)
    ensures Shaped(TakeTurn(m, run)) && Shaped(StopTurn(m))
  {
    hide RowsShaped, BusShaped, QueueShaped, RouterOwned, TaskerOwned, RowsOwned, MessageText;
    SamePartsShaped(m, TakeTurn(m, run));
    SamePartsShaped(m, StopTurn(m));
  }

  lemma TurnTaskShaped(m: Machine, u: int, record: Task)
    requires Shaped(m)
    ensures var n := PutTask(m, RoutedTask(u), record);
      Shaped(n) && n.db.routed == m.db.routed
  {
    PutTaskShaped(m, RoutedTask(u), record);
  }

  lemma PostOutputShaped(m: Machine, u: int, session: string, run: string, now: int)
    requires Shaped(m) && u in m.db.routed
    ensures var n := Post(m, OutputRow(u), OutputEnvelope(u, session, run, now), now);
      Shaped(n) && n.db.routed == m.db.routed
  {
    PostKeeps(m, OutputRow(u), OutputEnvelope(u, session, run, now), now);
  }

  lemma CompletingShaped(m: Machine, u: int, record: Routed)
    requires Shaped(m) && u in m.db.routed
    ensures Shaped(m.(db := m.db.(routed := m.db.routed[u := record])))
  {
    hide RowsShaped, BusShaped, QueueShaped, RouterOwned, TaskerOwned, WorkerOwned;
    assert u in m.db.inbound;
    PutRoutedShaped(m, u, record);
  }

  lemma StepTaskShaped(m: Machine, now: int)
    requires Shaped(m)
    ensures Shaped(StepTask(m, now))
  {
    hide RowsShaped, BusShaped, QueueShaped, RouterOwned, WorkerOwned, RowsOwned, Post, PutTask, Launched, ResultEnvelope, RowShape;
    if m.tasker.TaskerBusy? {
      var t, record := m.tasker.task, m.tasker.record;
      match m.tasker.stage
      case Launching => JobTaskShaped(m, t, Launched(record, now));
      case Executing =>
      case Settling(settled, _) => JobTaskShaped(m, t, settled);
      case Posting(kind) => PostResultShaped(m, t, kind, now);
    }
  }

  lemma BeginTaskShaped(m: Machine, i: nat)
    requires Shaped(m)
    ensures Shaped(BeginTask(m, i))
  {
    hide RowsShaped, BusShaped, QueueShaped, RouterOwned, WorkerOwned, RowsOwned, Hears;
    if Hears(m, i, E.TASK_FILTER) {
      HearsInBus(m, i, E.TASK_FILTER);
      CreatedMessage(m, i);
    }
    SamePartsShaped(m, BeginTask(m, i));
  }

  lemma RunJobShaped(m: Machine, outcome: JobOutcome, now: int)
    requires Shaped(m)
    ensures Shaped(RunJob(m, outcome, now)) && Shaped(StopTask(m))
  {
    hide RowsShaped, BusShaped, QueueShaped, RouterOwned, WorkerOwned, RowsOwned, SettledTask;
    SamePartsShaped(m, RunJob(m, outcome, now));
    SamePartsShaped(m, StopTask(m));
  }

  /** Only a message that a task was created starts a job. */
  lemma CreatedMessage(m: Machine, i: nat)
    requires Shaped(m) && Hears(m, i, E.TASK_FILTER)
    ensures var e := m.bus[i].payload;
      (e.kind.TaskCreated? || e.kind.DelegateCreated?) && e.ref.TaskRef? ==> e.ref.task.JobTask?
  {
    hide E.Matches, E.Subject;
    HearsInBus(m, i, E.TASK_FILTER);
    Heard(m, i);
  }

  lemma JobTaskShaped(m: Machine, t: TaskKey, record: Task)
    requires Shaped(m)
    ensures var n := PutTask(m, t, record);
      Shaped(n) && n.db.tasks == m.db.tasks[t := record]
  {
    PutTaskShaped(m, t, record);
  }

  lemma PostResultShaped(m: Machine, t: TaskKey, kind: EventType, now: int)
    requires Shaped(m) && t in m.db.tasks && t.JobTask? && IsResultKind(kind)
    ensures Shaped(Post(m, ResultRow(t), ResultEnvelope(t, kind, now), now))
  {
    PostKeeps(m, ResultRow(t), ResultEnvelope(t, kind, now), now);
  }

  lemma DeliverOutputShaped(m: Machine, i: nat, listing: seq<string>, accepts: set<string>, budget: nat, now: int)
    requires Shaped(m)
    ensures Shaped(DeliverOutput(m, i, listing, accepts, budget, now))
  {
    hide RowsShaped, BusShaped, QueueShaped, RouterOwned, WorkerOwned, RowsOwned, TaskerOwned, Hears, OutgoingOf;
    hide D.DeliverToFirst, D.IsListing;
    SamePartsShaped(m, DeliverOutput(m, i, listing, accepts, budget, now));
  }

  lemma DeliverResultShaped(m: Machine, i: nat, listing: seq<string>, accepts: set<string>, budget: nat, now: int)
    requires Shaped(m)
    ensures Shaped(DeliverResult(m, i, listing, accepts, budget, now))
  {
    hide RowsShaped, BusShaped, QueueShaped, RouterOwned, WorkerOwned, RowsOwned, TaskerOwned, Hears, ResultOf, IsResultKind;
    hide F.RelayToFirst, F.IsFollowerListing;
    SamePartsShaped(m, DeliverResult(m, i, listing, accepts, budget, now));
  }

  lemma OthersShaped(m: Machine, id: string, f: Follower, world: World)
    requires Shaped(m)
    ensures Shaped(Follow(m, id, f)) && Shaped(m.(db := m.db.(world := world)))
  {
    hide RowsShaped, BusShaped, QueueShaped, RouterOwned, WorkerOwned, RowsOwned, TaskerOwned;
    SamePartsShaped(m, Follow(m, id, f));
    SamePartsShaped(m, m.(db := m.db.(world := world)));
  }

  lemma FailRouterShaped(m: Machine)
    requires Shaped(m)
    ensures Shaped(FailRouter(m)) && Shaped(StopRouter(m))
  {
    hide RowsShaped, BusShaped, QueueShaped, WorkerOwned, RowsOwned, TaskerOwned;
    SamePartsShaped(m, FailRouter(m));
    SamePartsShaped(m, StopRouter(m));
  }

  lemma StopPublisherShaped(m: Machine)
    requires Shaped(m)
    ensures Shaped(StopPublisher(m))
  {
    hide RowsShaped, BusShaped, WorkerOwned, RowsOwned, TaskerOwned, RouterOwned;
  }

  lemma StepShaped(m: Machine, s: Step)
    requires Shaped(m)
    ensures Shaped(Do(m, s))
  {
    hide Shaped, Ask, Receive, PostInput, CreateTask, Claim, Publish, MarkPublication, StopPublisher, BeginRouter, StepRouter, FailRouter, StopRouter;
    hide BeginTurn, StepTurn, TakeTurn, StopTurn, BeginTask, StepTask, RunJob, StopTask, DeliverOutput, DeliverResult, Follow;
    match s
    case DoAsk(u) => AskShaped(m, u);
    case DoPostInput(u, now) => PostInputShaped(m, u, now);
    case DoReceive(u, sourceId, operatorId, payload) => ReceivedShaped(m, u, sourceId, operatorId, payload);
    case DoCreateTask(token, source, owner, executor, posts, now) => CreatedTaskShaped(m, token, source, owner, executor, posts, now);
    case DoClaim(keys, now) => ClaimShaped(m, keys, now);
    case DoPublish(publication) => PublishShaped(m, publication);
    case DoMarkPublication(now) => MarkPublicationShaped(m, now);
    case DoStopPublisher => StopPublisherShaped(m);
    case DoBeginRouter(i, input) => BeginRouterShaped(m, i, input);
    case DoStepRouter(now) => StepRouterShaped(m, now);
    case DoFailRouter => FailRouterShaped(m);
    case DoStopRouter => FailRouterShaped(m);
    case DoBeginTurn(i) => BeginTurnShaped(m, i);
    case DoStepTurn(now) => StepTurnShaped(m, now);
    case DoTakeTurn(run) => TakeTurnShaped(m, run);
    case DoStopTurn => TakeTurnShaped(m, None);
    case DoBeginTask(i) => BeginTaskShaped(m, i);
    case DoStepTask(now) => StepTaskShaped(m, now);
    case DoRunJob(outcome, now) => RunJobShaped(m, outcome, now);
    case DoStopTask => RunJobShaped(m, JobError(""), 0);
    case DoDeliverOutput(i, listing, accepts, budget, now) => DeliverOutputShaped(m, i, listing, accepts, budget, now);
    case DoDeliverResult(i, listing, accepts, budget, now) => DeliverResultShaped(m, i, listing, accepts, budget, now);
    case DoFollow(id, follower) => OthersShaped(m, id, follower, m.db.world);
    case DoChangeWorld(world) => OthersShaped(m, "", Follower(RoutedTask(0), "", false, None, None, 0), world);
  }

  /** Every reachable machine is well-shaped, however its steps are interleaved. */
  lemma {:induction false} RunShaped(run: Execution)
    requires IsExecution(run)
    ensures Shaped(End(run))
    decreases |run.steps|
  {
    hide Do, Shaped, IsExecution;
    if run.steps == [] {
      StartShaped(run);
    } else {
      var before, s := LastStep(run);
      RunShaped(before);
      StepShaped(End(before), s);
    }
  }

  lemma StartShaped(run: Execution)
    requires IsExecution(run) && run.steps == []
    ensures Shaped(End(run))
  {
    hide Do;
  }

  /** What a message says: its event, what it announces and of which record, where it goes, and of which session. */
  predicate Says(k: RowKey, e: Envelope) {
    match k
    case InputRow(u) => e.event == InputEvent(u) && e.kind == MessageReceived && e.ref == InboundRef(u) && e.address == E.Input("telegram")
    case RoutedRow(u) => e.event == RoutedEvent(u) && e.kind == InputRouted && e.ref == RoutedRef(u) && e.address.SessionInput?
    case OutputRow(u) => e.event == OutputEvent(u) && e.kind == OutputCreated && e.ref.RunRef? && e.address == E.SessionOutput(e.session)
    case DeadLetterRow(u) => e.event == DeadLetterEvent(u) && e.kind == DeadLettered && e.ref == NoRef && e.address == E.DeadLetter
    case CreatedRow(token) =>
      e.event == CreatedEvent(token) && e.kind == TaskCreated && e.ref == TaskRef(JobTask(token)) && e.address == E.Task(TaskId(JobTask(token)))
    case ResultRow(t) =>
      && e.event == ResultEvent(t) && (e.kind == TaskCompleted || e.kind == TaskFailed || e.kind == TaskBlocked)
      && t.JobTask? && e.ref == TaskRef(t) && e.address == E.Task(TaskId(t))
  }

  /** Over every run, each message on the bus and each row says this of its record. */
  lemma MessagesSay(run: Execution, i: nat, k: RowKey)
    requires IsExecution(run)
    ensures i < |End(run).bus| ==> Says(End(run).bus[i].row, End(run).bus[i].payload)
    ensures k in End(run).db.rows ==> Says(k, End(run).db.rows[k].payload)
  {
    hide IsExecution, RequestsOwned, RowsOwned, QueueShaped, RouterOwned, WorkerOwned, TaskerOwned, RowShape, Says;
    RunShaped(run);
    if i < |End(run).bus| {
      assert MessageShaped(End(run).bus[i].row, End(run).bus[i].payload, End(run).db.rows, End(run).log.posted);
      ShapeSays(End(run).bus[i].row, End(run).bus[i].payload);
    }
    if k in End(run).db.rows {
      ShapeSays(k, End(run).db.rows[k].payload);
    }
  }

  lemma ShapeSays(k: RowKey, e: Envelope)
    requires RowShape(k, e)
    ensures Says(k, e)
  {
    hide TaskId;
  }
}

/** How many rows there can be, what a published row proves, and what a consumer always finds. */
module Rows {
  import opened Text
  import opened Ids
  import opened Records
  import opened Machine
  import opened Frames
  import opened Shape
  import opened Posts
  import E = EventBus
  import Jobs

  /** The row's own message is on the bus. */
  predicate IsOnBus(bus: seq<Message>, k: RowKey) {
    exists i | 0 <= i < |bus| :: bus[i].row == k
  }

  predicate PublishedSeen(rows: map<RowKey, Row>, bus: seq<Message>) {
    forall k | k in rows && rows[k].status.RowPublished? :: IsOnBus(bus, k)
  }

  predicate SendingSeen(p: Publisher, bus: seq<Message>) {
    p.PublisherBusy? && p.sending.SentOk? && p.queue != [] ==> IsOnBus(bus, p.queue[0].row)
  }

  predicate Seen(m: Machine) {
    PublishedSeen(m.db.rows, m.bus) && SendingSeen(m.publisher, m.bus)
  }

  lemma StillOnBus(bus: seq<Message>, message: Message, k: RowKey)
    requires IsOnBus(bus, k)
    ensures IsOnBus(bus + [message], k)
  {
    var i :| 0 <= i < |bus| && bus[i].row == k;
    assert (bus + [message])[i] == bus[i];
  }

  lemma NewOnBus(bus: seq<Message>, message: Message)
    ensures IsOnBus(bus + [message], message.row)
  {
    assert (bus + [message])[|bus|] == message;
  }

  lemma PublishSeen(m: Machine, outcome: Publication)
    requires Seen(m)
    ensures Seen(Publish(m, outcome))
  {
    hide IsOnBus;
    if m.publisher.PublisherBusy? && m.publisher.sending.Unsent? && m.publisher.queue != [] {
      var message := Message(m.publisher.queue[0].row, m.publisher.queue[0].payload);
      NewOnBus(m.bus, message);
      forall k | k in m.db.rows && m.db.rows[k].status.RowPublished?
        ensures IsOnBus(m.bus + [message], k)
      {
        StillOnBus(m.bus, message, k);
      }
    }
  }

  lemma ClaimSeen(m: Machine, keys: seq<RowKey>, now: int)
    requires Seen(m)
    ensures Seen(Claim(m, keys, now))
  {
    hide IsOnBus, IsClaim;
  }

  lemma MarkPublicationSeen(m: Machine, now: int)
    requires Seen(m)
    ensures Seen(MarkPublication(m, now))
  {
    hide IsOnBus, RetryDelay;
  }

  /** Rows change only by posts, which make them pending. */
  predicate RowsPosted(m: Machine, n: Machine) {
    && n.bus == m.bus && n.publisher == m.publisher
    && forall k | k in n.db.rows && n.db.rows[k].status.RowPublished? :: k in m.db.rows && m.db.rows[k].status.RowPublished?
  }

  lemma RowsPostedSeen(m: Machine, n: Machine)
    requires Seen(m) && RowsPosted(m, n)
    ensures Seen(n)
  {
    hide IsOnBus;
  }

  lemma StepTurnPosts(m: Machine, now: int)
    ensures RowsPosted(m, StepTurn(m, now))
  {
    hide Post, PutTask, TurnTask, OutputEnvelope;
    if m.worker.SessionBusy? {
      var u, record := m.worker.update, m.worker.record;
      match m.worker.stage
      case Starting =>
        PutTaskFrame(m, RoutedTask(u), TurnTask(record, WaitingDependency, None, now));
        PutTaskFrame(m, RoutedTask(u), TurnTask(record, Running, None, now));
      case Thinking =>
      case Emitting(run) => PostFrame(m, OutputRow(u), OutputEnvelope(u, record.session, run, now), now);
      case Completing(_) =>
      case Closing(run) => PutTaskFrame(m, RoutedTask(u), TurnTask(record, Completed, Some(run), now));
    }
  }

  lemma StepRouterPosts(m: Machine, now: int)
    ensures RowsPosted(m, StepRouter(m, now))
  {
    hide Post, Mark, DeadEnvelope, RoutedEnvelope;
    if m.router.RouterBusy? {
      var u := m.router.update;
      match m.router.todo
      case MarkFailed => MarkFrame(m, u, InboundFailed);
      case PostDead => PostFrame(m, DeadLetterRow(u), DeadEnvelope(u, now), now);
      case PutRouted(_) =>
      case PostRouted(session) => PostFrame(m, RoutedRow(u), RoutedEnvelope(u, session, now), now);
      case MarkProcessed(_) => MarkFrame(m, u, InboundProcessed);
    }
  }

  lemma StepTaskPosts(m: Machine, now: int)
    ensures RowsPosted(m, StepTask(m, now))
  {
    hide Post, PutTask, ResultEnvelope, Launched;
    if m.tasker.TaskerBusy? {
      var t, record := m.tasker.task, m.tasker.record;
      match m.tasker.stage
      case Launching => PutTaskFrame(m, t, Launched(record, now));
      case Executing =>
      case Settling(settled, _) => PutTaskFrame(m, t, settled);
      case Posting(kind) => PostFrame(m, ResultRow(t), ResultEnvelope(t, kind, now), now);
    }
  }

  lemma ProducersPost(m: Machine, s: Step)
    requires s.DoAsk? || s.DoReceive? || s.DoPostInput? || s.DoCreateTask?
    ensures RowsPosted(m, Do(m, s))
  {
    hide InputEnvelope, CreatedEnvelope, NewTask, Claim, Publish, MarkPublication, StopPublisher, BeginRouter, StepRouter, FailRouter, StopRouter, BeginTurn, StepTurn;
    hide TakeTurn, StopTurn, BeginTask, StepTask, RunJob, StopTask, DeliverOutput, DeliverResult, Follow;
  }

  lemma StepSeen(m: Machine, s: Step)
    requires Seen(m)
    ensures Seen(Do(m, s))
  {
    hide Seen, RowsPosted, Ask, Receive, PostInput, CreateTask, Claim, Publish, MarkPublication, StopPublisher, BeginRouter, StepRouter, FailRouter, StopRouter;
    hide BeginTurn, StepTurn, TakeTurn, StopTurn, BeginTask, StepTask, RunJob, StopTask, DeliverOutput, DeliverResult, Follow;
    match s
    case DoClaim(keys, now) => ClaimSeen(m, keys, now);
    case DoPublish(publication) => PublishSeen(m, publication);
    case DoMarkPublication(now) => MarkPublicationSeen(m, now);
    case DoStopPublisher => StopPublisherSeen(m);
    case DoStepTurn(now) => StepTurnPosts(m, now); RowsPostedSeen(m, Do(m, s));
    case DoStepRouter(now) => StepRouterPosts(m, now); RowsPostedSeen(m, Do(m, s));
    case DoStepTask(now) => StepTaskPosts(m, now); RowsPostedSeen(m, Do(m, s));
    case DoAsk(_) => ProducersPost(m, s); RowsPostedSeen(m, Do(m, s));
    case DoReceive(_, _, _, _) => ProducersPost(m, s); RowsPostedSeen(m, Do(m, s));
    case DoPostInput(_, _) => ProducersPost(m, s); RowsPostedSeen(m, Do(m, s));
    case DoCreateTask(_, _, _, _, _, _) => ProducersPost(m, s); RowsPostedSeen(m, Do(m, s));
    case _ =>
      if s.DoRunJob? || s.DoStopTask? {
        JobPosts(m, s);
      } else if s.DoDeliverOutput? || s.DoDeliverResult? || s.DoFollow? || s.DoChangeWorld? {
        DeliveryPosts(m, s);
      } else {
        CallsPost(m, s);
      }
      RowsPostedSeen(m, Do(m, s));
  }

  lemma StopPublisherSeen(m: Machine)
    requires Seen(m)
    ensures Seen(StopPublisher(m))
  {
    hide IsOnBus;
  }

  lemma CallsPost(m: Machine, s: Step)
    requires s.DoBeginRouter? || s.DoFailRouter? || s.DoStopRouter? || s.DoBeginTurn? || s.DoTakeTurn? || s.DoStopTurn? || s.DoBeginTask?
    ensures RowsPosted(m, Do(m, s))
  {
    hide SameEvents, Ask, Receive, PostInput, CreateTask, Claim, Publish, MarkPublication, StopPublisher, BeginRouter, StepRouter, FailRouter, StopRouter;
    hide BeginTurn, StepTurn, TakeTurn, StopTurn, BeginTask, StepTask, RunJob, StopTask, DeliverOutput, DeliverResult, Follow;
    match s
    case DoBeginRouter(i, input) => BeginRouterFrame(m, i, input);
    case DoFailRouter => FailRouterFrame(m);
    case DoStopRouter => FailRouterFrame(m);
    case DoBeginTurn(i) => BeginTurnFrame(m, i);
    case DoTakeTurn(run) => TakeTurnFrame(m, run);
    case DoStopTurn => TakeTurnFrame(m, None);
    case DoBeginTask(i) => BeginTaskFrame(m, i);
  }

  lemma JobPosts(m: Machine, s: Step)
    requires s.DoRunJob? || s.DoStopTask?
    ensures RowsPosted(m, Do(m, s))
  {
    hide SameEvents, Ask, Receive, PostInput, CreateTask, Claim, Publish, MarkPublication, StopPublisher, BeginRouter, StepRouter, FailRouter, StopRouter;
    hide BeginTurn, StepTurn, TakeTurn, StopTurn, BeginTask, StepTask, RunJob, StopTask, DeliverOutput, DeliverResult, Follow;
    match s
    case DoRunJob(outcome, now) => RunJobFrame(m, outcome, now);
    case DoStopTask => RunJobFrame(m, JobError(""), 0);
  }

  lemma DeliveryPosts(m: Machine, s: Step)
    requires s.DoDeliverOutput? || s.DoDeliverResult? || s.DoFollow? || s.DoChangeWorld?
    ensures RowsPosted(m, Do(m, s))
  {
    hide SameEvents, Ask, Receive, PostInput, CreateTask, Claim, Publish, MarkPublication, StopPublisher, BeginRouter, StepRouter, FailRouter, StopRouter;
    hide BeginTurn, StepTurn, TakeTurn, StopTurn, BeginTask, StepTask, RunJob, StopTask, DeliverOutput, DeliverResult, Follow;
    match s
    case DoDeliverOutput(i, listing, accepts, budget, now) => DeliverOutputFrame(m, i, listing, accepts, budget, now);
    case DoDeliverResult(i, listing, accepts, budget, now) => DeliverResultFrame(m, i, listing, accepts, budget, now);
    case DoFollow(id, f) => FollowFrame(m, id, f, m.db.world);
    case DoChangeWorld(_) =>
  }

  lemma {:induction false} RunSeen(run: Execution)
    requires IsExecution(run)
    ensures Seen(End(run))
    decreases |run.steps|
  {
    hide Do, Seen, IsExecution;
    if run.steps == [] {
      StartSeen(run);
    } else {
      var before, s := LastStep(run);
      RunSeen(before);
      StepSeen(End(before), s);
    }
  }

  lemma StartSeen(run: Execution)
    requires IsExecution(run) && run.steps == []
    ensures Seen(End(run))
  {
    hide Do;
  }

  /**
    Everything on the bus was posted to the outbox, under the row that it was published from;
    and a row marked published is on the bus. What is on the bus is the row's very payload,
    down to its time, as long as the row was written once; a row that is written again between
    its publication and its mark is marked with a payload that may never reach the bus.
   */
  lemma BusIsPosted(run: Execution, k: RowKey)
    requires IsExecution(run)
    ensures var m := End(run);
      && (forall i | 0 <= i < |m.bus| :: Posted(m.bus[i].row, m.bus[i].payload) in m.log.posted && m.bus[i].row in m.db.rows)
      && (k in m.db.rows && m.db.rows[k].status.RowPublished? ==> IsOnBus(m.bus, k))
      && (k in m.db.rows && m.db.rows[k].status.RowPublished? && Writes(m.log.posted, k) <= 1 ==> IsSent(m, k))
      && (k in m.db.rows && m.db.rows[k].status.RowPublished? && IsUndisturbed(m, k) ==> IsSent(m, k))
  {
    hide IsExecution, Writes, IsUndisturbed;
    RunSeen(run);
    RunShaped(run);
    var m := End(run);
    PostedMessages(m);
    if IsUndisturbed(m, k) {
      UndisturbedOnce(run, k);
    }
    if k in m.db.rows && m.db.rows[k].status.RowPublished? && Writes(m.log.posted, k) <= 1 {
      assert IsOnBus(m.bus, k);
      var i :| 0 <= i < |m.bus| && m.bus[i].row == k;
      WrittenOnce(m.log.posted, Posted(k, m.bus[i].payload), Posted(k, m.db.rows[k].payload));
    }
  }

  /** The payload of the row, as the store has it, is on the bus. */
  predicate IsSent(m: Machine, k: RowKey)
    requires k in m.db.rows
  {
    exists i | 0 <= i < |m.bus| :: m.bus[i] == Message(k, m.db.rows[k].payload)
  }

  lemma PostedMessages(m: Machine)
    requires Shaped(m)
    ensures forall i | 0 <= i < |m.bus| :: Posted(m.bus[i].row, m.bus[i].payload) in m.log.posted && m.bus[i].row in m.db.rows
    ensures forall k | k in m.db.rows :: Posted(k, m.db.rows[k].payload) in m.log.posted
  {
    hide RowShape;
  }

  /** What a consumer hears it can act on: the record is there, and delivery finds the row that was published. */
  lemma ConsumersFind(run: Execution, i: nat)
    requires IsExecution(run) && i < |End(run).bus|
    ensures var m := End(run);
      var e := m.bus[i].payload;
      && (Hears(m, i, E.ROUTER_FILTER) ==> e.kind.MessageReceived? && e.ref.InboundRef? && e.ref.update in m.db.inbound)
      && (Hears(m, i, E.SESSION_FILTER) ==> e.kind.InputRouted? && e.ref.RoutedRef? && e.ref.routed in m.db.routed)
      && (Hears(m, i, E.DELIVERY_FILTER) ==>
            && RowOf(e.event) == m.bus[i].row && OutgoingOf(m.db, e.event) != Refused(MissingOutbox)
            && m.db.rows[RowOf(e.event)].payload.kind.OutputCreated? && m.db.rows[RowOf(e.event)].payload.ref.RunRef?)
  {
    hide IsExecution, Hears;
    var m := End(run);
    RunShaped(run);
    Heard(m, i);
    Jobs.TaskMessageRow(m, i);
  }

  // Counting

  /** A set mapped one to one into another is no larger. */
  lemma {:induction false} Injection<A, B>(a: set<A>, b: set<B>, f: A -> B)
    requires forall x | x in a :: f(x) in b
    requires forall x, y | x in a && y in a && f(x) == f(y) :: x == y
    ensures |a| <= |b|
  {
    if a != {} {
      var x :| x in a;
      Injection(a - {x}, b - {f(x)}, f);
    }
  }

  function EventOf(k: RowKey): int {
    match k
    case InputRow(u) => u
    case RoutedRow(u) => u
    case OutputRow(u) => u
    case DeadLetterRow(u) => u
    case _ => 0
  }

  function JobOf(k: RowKey): TaskKey {
    match k
    case CreatedRow(token) => JobTask(token)
    case ResultRow(t) => t
    case _ => RoutedTask(0)
  }

  function OfKind(rows: set<RowKey>, kind: int): set<RowKey> {
    set k | k in rows && Kind(k) == kind
  }

  lemma EventRows(m: Machine, kind: int)
    requires Shaped(m) && 0 <= kind < 4
    ensures |OfKind(m.db.rows.Keys, kind)| <= |m.db.inbound|
  {
    hide RowsShaped, BusShaped, QueueShaped, RouterOwned, WorkerOwned, TaskerOwned;
    var a := OfKind(m.db.rows.Keys, kind);
    forall k | k in a
      ensures EventOf(k) in m.db.inbound.Keys
    {
      assert IsOwned(k, m.db.inbound, m.db.routed, m.db.tasks);
    }
    Injection(a, m.db.inbound.Keys, EventOf);
    assert |m.db.inbound.Keys| == |m.db.inbound|;
  }

  function JobTasks(tasks: map<TaskKey, Task>): set<TaskKey> {
    set t | t in tasks && t.JobTask?
  }

  lemma JobRows(m: Machine, kind: int)
    requires Shaped(m) && 4 <= kind < 6
    ensures |OfKind(m.db.rows.Keys, kind)| <= |JobTasks(m.db.tasks)|
  {
    hide BusShaped, QueueShaped, RouterOwned, WorkerOwned, TaskerOwned;
    var a := OfKind(m.db.rows.Keys, kind);
    forall k | k in a
      ensures JobOf(k) in JobTasks(m.db.tasks)
    {
      assert IsOwned(k, m.db.inbound, m.db.routed, m.db.tasks) && RowShape(k, m.db.rows[k].payload);
    }
    Injection(a, JobTasks(m.db.tasks), JobOf);
  }

  lemma ThreeKinds(rows: set<RowKey>, i: int)
    ensures var some := set k | k in rows && i <= Kind(k) < i + 3;
      |some| == |OfKind(rows, i)| + |OfKind(rows, i + 1)| + |OfKind(rows, i + 2)|
  {
    hide Kind;
    var some := set k | k in rows && i <= Kind(k) < i + 3;
    assert some == OfKind(rows, i) + OfKind(rows, i + 1) + OfKind(rows, i + 2);
  }

  lemma SixKinds(rows: set<RowKey>)
    ensures |rows| == |OfKind(rows, 0)| + |OfKind(rows, 1)| + |OfKind(rows, 2)| + |OfKind(rows, 3)| + |OfKind(rows, 4)| + |OfKind(rows, 5)|
  {
    hide OfKind;
    ThreeKinds(rows, 0);
    ThreeKinds(rows, 3);
    var a, b := set k | k in rows && 0 <= Kind(k) < 3, set k | k in rows && 3 <= Kind(k) < 6;
    assert rows == a + b;
  }

  /** All the rows there can be for one event, and for one job. */
  function RowsOf(u: int): (rows: set<RowKey>)
    ensures |rows| == 4
  {
    var rows := {InputRow(u), RoutedRow(u), OutputRow(u)};
    rows + {DeadLetterRow(u)}
  }

  function RowsOfJob(token: string): (rows: set<RowKey>)
    ensures |rows| == 2
  {
    {CreatedRow(token), ResultRow(JobTask(token))}
  }

  predicate IsAccountedFor(m: Machine, k: RowKey) {
    (exists u | u in m.db.inbound :: k in RowsOf(u)) || (exists t | t in m.db.tasks && t.JobTask? :: k in RowsOfJob(t.token))
  }

  lemma RowAccounted(m: Machine, k: RowKey)
    requires Shaped(m) && k in m.db.rows
    ensures IsAccountedFor(m, k)
  {
    hide BusShaped, QueueShaped, RouterOwned, WorkerOwned, TaskerOwned;
    assert IsOwned(k, m.db.inbound, m.db.routed, m.db.tasks) && RowShape(k, m.db.rows[k].payload);
    if Kind(k) < 4 {
      assert EventOf(k) in m.db.inbound && k in RowsOf(EventOf(k));
    } else {
      assert JobOf(k) in m.db.tasks && k in RowsOfJob(JobOf(k).token);
    }
  }

  /**
    However often anything is redelivered, the outbox holds at most four rows for each stored
    event, its own, and two for each job, and no others.
   */
  lemma RowsBounded(run: Execution)
    requires IsExecution(run)
    ensures var m := End(run);
      && (forall k | k in m.db.rows :: IsAccountedFor(m, k))
      && |m.db.rows| <= 4 * |m.db.inbound| + 2 * |JobTasks(m.db.tasks)|
  {
    hide IsExecution, Shaped, OfKind, IsAccountedFor;
    var m := End(run);
    RunShaped(run);
    forall k | k in m.db.rows
      ensures IsAccountedFor(m, k)
    {
      RowAccounted(m, k);
    }
    SixKinds(m.db.rows.Keys);
    EventRows(m, 0);
    EventRows(m, 1);
    EventRows(m, 2);
    EventRows(m, 3);
    JobRows(m, 4);
    JobRows(m, 5);
    assert |m.db.rows.Keys| == |m.db.rows|;
  }
}

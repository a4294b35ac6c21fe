/** How often a row is written: the books that routed events, turns, tasks and requests keep on their rows. */
module Posts {
  import opened Text
  import opened Ids
  import opened Records
  import opened Machine
  import opened Frames
  import opened Shape
  import opened Turns
  import Jobs
  import Json

  /** How often a row was written. */
  function Writes(posted: seq<Posted>, k: RowKey): nat {
    if posted == [] then 0
    else Writes(posted[..|posted| - 1], k) + One(posted[|posted| - 1].row == k)
  }

  lemma WritesAdd(posted: seq<Posted>, p: Posted, k: RowKey)
    ensures Writes(posted + [p], k) == Writes(posted, k) + One(p.row == k)
  {
    assert (posted + [p])[..|posted|] == posted;
  }

  lemma {:induction false} WrittenAtAll(posted: seq<Posted>, p: Posted)
    requires p in posted
    ensures Writes(posted, p.row) > 0
  {
    var last := posted[|posted| - 1];
    if p != last {
      assert p in posted[..|posted| - 1];
      WrittenAtAll(posted[..|posted| - 1], p);
    }
  }

  /** A row written once has carried one payload. */
  lemma {:induction false} WrittenOnce(posted: seq<Posted>, p: Posted, q: Posted)
    requires p in posted && q in posted && p.row == q.row && Writes(posted, p.row) <= 1
    ensures p == q
  {
    var front := posted[..|posted| - 1];
    var last := posted[|posted| - 1];
    if last.row == p.row {
      if p != last { assert p in front; WrittenAtAll(front, p); }
      if q != last { assert q in front; WrittenAtAll(front, q); }
    } else {
      assert p in front && q in front;
      WrittenOnce(front, p, q);
    }
  }

  // The books

  predicate IsPostingRouted(r: Router, u: int) {
    r.RouterBusy? && r.update == u && r.todo.PostRouted?
  }

  /** The row of a routed event was written once at most for each write of the event. */
  ghost predicate RoutedBook(log: Log, r: Router) {
    forall u :: Writes(log.posted, RoutedRow(u)) + One(IsPostingRouted(r, u)) <= log.resets[u]
  }

  predicate IsEmittingOn(w: SessionWorker, u: int) {
    w.SessionBusy? && w.update == u && w.stage.Emitting?
  }

  /** The row of an output was written once at most for each turn. */
  ghost predicate OutputBook(log: Log, w: SessionWorker) {
    forall u :: Writes(log.posted, OutputRow(u)) + One(IsEmittingOn(w, u)) <= log.turned[u]
  }

  predicate IsSettled(tasks: map<TaskKey, Task>, t: TaskKey) {
    t in tasks && IsTerminal(tasks[t].status)
  }

  predicate IsPostingResult(t: Tasker, k: TaskKey) {
    t.TaskerBusy? && t.task == k && t.stage.Posting?
  }

  /** The row of a result was written once at most, and only for a job's settled task. */
  ghost predicate ResultBook(posted: seq<Posted>, t: Tasker, tasks: map<TaskKey, Task>) {
    forall token :: Writes(posted, ResultRow(JobTask(token))) + One(IsPostingResult(t, JobTask(token))) <= One(IsSettled(tasks, JobTask(token)))
  }

  ghost predicate CreatedBook(posted: seq<Posted>, tasks: map<TaskKey, Task>) {
    forall token :: Writes(posted, CreatedRow(token)) <= One(JobTask(token) in tasks)
  }

  /** The row of an input was written once at most for each request that did not find the event. */
  ghost predicate InputBook(posted: seq<Posted>, r: Requests) {
    forall u :: Writes(posted, InputRow(u)) + r.asked[u] + r.recorded[u] <= r.missed[u]
  }

  ghost predicate Booked(m: Machine) {
    && RoutedBook(m.log, m.router) && OutputBook(m.log, m.worker)
    && ResultBook(m.log.posted, m.tasker, m.db.tasks) && CreatedBook(m.log.posted, m.db.tasks)
    && InputBook(m.log.posted, m.requests)
  }

  /** A post of another kind of row, as each book sees it. */
  lemma OtherWrites(posted: seq<Posted>, p: Posted)
    ensures forall k | k != p.row :: Writes(posted + [p], k) == Writes(posted, k)
    ensures Writes(posted + [p], p.row) == Writes(posted, p.row) + 1
  {
    forall k
      ensures Writes(posted + [p], k) == Writes(posted, k) + One(p.row == k)
    {
      WritesAdd(posted, p, k);
    }
  }

  /** Nothing was posted, and what each book is about has only moved on. */
  ghost predicate BooksMove(m: Machine, n: Machine) {
    && n.log.posted == m.log.posted && n.requests == m.requests
    && (forall u :: One(IsPostingRouted(n.router, u)) + m.log.resets[u] <= One(IsPostingRouted(m.router, u)) + n.log.resets[u])
    && (forall u :: One(IsEmittingOn(n.worker, u)) + m.log.turned[u] <= One(IsEmittingOn(m.worker, u)) + n.log.turned[u])
    && TasksMove(m, n)
  }

  /** The task of a job that settles had none of its results written. */
  ghost predicate TasksMove(m: Machine, n: Machine) {
    && (forall token :: One(IsPostingResult(n.tasker, JobTask(token))) + One(IsSettled(m.db.tasks, JobTask(token)))
                        <= One(IsPostingResult(m.tasker, JobTask(token))) + One(IsSettled(n.db.tasks, JobTask(token))))
    && m.db.tasks.Keys <= n.db.tasks.Keys
  }

  lemma MovedBooked(m: Machine, n: Machine)
    requires Booked(m) && BooksMove(m, n)
    ensures Booked(n)
  {
    hide Writes, IsPostingRouted, IsEmittingOn, IsPostingResult, IsSettled;
  }

  // Steps that post

  lemma PostRoutedBooked(m: Machine, now: int)
    requires Booked(m) && m.router.RouterBusy? && m.router.todo.PostRouted?
    ensures Booked(StepRouter(m, now))
  {
    hide Writes, RoutedEnvelope, IsEmittingOn, IsPostingResult, IsSettled;
    var u := m.router.update;
    OtherWrites(m.log.posted, Posted(RoutedRow(u), RoutedEnvelope(u, m.router.todo.session, now)));
    assert IsPostingRouted(m.router, u);
  }

  lemma PostDeadBooked(m: Machine, now: int)
    requires Booked(m) && m.router.RouterBusy? && m.router.todo.PostDead?
    ensures Booked(StepRouter(m, now))
  {
    hide Writes, DeadEnvelope, IsEmittingOn, IsPostingResult, IsSettled;
    var u := m.router.update;
    OtherWrites(m.log.posted, Posted(DeadLetterRow(u), DeadEnvelope(u, now)));
  }

  lemma EmitBooked(m: Machine, now: int)
    requires Booked(m) && m.worker.SessionBusy? && m.worker.stage.Emitting?
    ensures Booked(StepTurn(m, now))
  {
    hide Writes, OutputEnvelope, IsPostingRouted, IsPostingResult, IsSettled;
    var u := m.worker.update;
    OtherWrites(m.log.posted, Posted(OutputRow(u), OutputEnvelope(u, m.worker.record.session, m.worker.stage.run, now)));
    assert IsEmittingOn(m.worker, u);
  }

  lemma PostResultBooked(m: Machine, now: int)
    requires Booked(m) && TaskerOwned(m.tasker, m.db.tasks) && m.tasker.TaskerBusy? && m.tasker.stage.Posting?
    ensures Booked(StepTask(m, now))
  {
    hide Writes, ResultEnvelope, IsPostingRouted, IsEmittingOn, IsSettled;
    var t := m.tasker.task;
    OtherWrites(m.log.posted, Posted(ResultRow(t), ResultEnvelope(t, m.tasker.stage.kind, now)));
    assert IsPostingResult(m.tasker, t) && t == JobTask(t.token);
  }

  lemma CreateTaskBooked(m: Machine, token: string, source: string, owner: string, executor: string, posts: bool, now: int)
    requires Booked(m)
    ensures Booked(CreateTask(m, token, source, owner, executor, posts, now))
  {
    hide Writes, CreatedEnvelope, IsPostingRouted, IsEmittingOn, IsPostingResult;
    OtherWrites(m.log.posted, Posted(CreatedRow(token), CreatedEnvelope(token, now)));
  }

  lemma PostInputBooked(m: Machine, u: int, now: int)
    requires Booked(m)
    ensures Booked(PostInput(m, u, now))
  {
    hide Writes, InputEnvelope, IsPostingRouted, IsEmittingOn, IsPostingResult, IsSettled;
    OtherWrites(m.log.posted, Posted(InputRow(u), InputEnvelope(u, now)));
  }

  lemma RequestBooked(m: Machine, u: int, sourceId: string, operatorId: Option<string>, payload: Json.Json)
    requires Booked(m)
    ensures Booked(Ask(m, u)) && Booked(Receive(m, u, sourceId, operatorId, payload))
  {
    hide Writes, IsPostingRouted, IsEmittingOn, IsPostingResult, IsSettled;
  }

  // Steps that post nothing

  lemma StepRouterMoves(m: Machine, now: int)
    requires m.router.RouterBusy? && !m.router.todo.PostRouted? && !m.router.todo.PostDead?
    ensures BooksMove(m, StepRouter(m, now))
  {
    hide IsPostingResult, IsSettled, IsEmittingOn;
  }

  lemma StepRouterBooked(m: Machine, now: int)
    requires Booked(m)
    ensures Booked(StepRouter(m, now))
  {
    hide Booked, BooksMove;
    if m.router.RouterBusy? {
      match m.router.todo
      case PostRouted(_) => PostRoutedBooked(m, now);
      case PostDead => PostDeadBooked(m, now);
      case _ =>
        StepRouterMoves(m, now);
        MovedBooked(m, StepRouter(m, now));
    }
  }

  lemma BeginRouterBooked(m: Machine, i: nat, a: RouterInput)
    requires Booked(m)
    ensures Booked(BeginRouter(m, i, a))
  {
    hide Booked, BeginRouter, IsPostingResult, IsSettled, IsEmittingOn;
    BeginRouterFrame(m, i, a);
    MovedBooked(m, BeginRouter(m, i, a));
  }

  lemma RouterEndBooked(m: Machine)
    requires Booked(m)
    ensures Booked(FailRouter(m)) && Booked(StopRouter(m))
  {
    hide Booked, IsPostingResult, IsSettled, IsEmittingOn;
    MovedBooked(m, FailRouter(m));
    MovedBooked(m, StopRouter(m));
  }

  /** The task of an event is no task of a job. */
  lemma TurnTaskMoves(m: Machine, u: int, record: Task)
    ensures TasksMove(m, PutTask(m, RoutedTask(u), record))
  {
    hide IsTerminal, IsPostingResult;
  }

  lemma StepTurnMoves(m: Machine, now: int)
    requires m.worker.SessionBusy? && !m.worker.stage.Emitting?
    ensures BooksMove(m, StepTurn(m, now))
  {
    hide TasksMove, IsPostingRouted, TurnTask;
    var u, record := m.worker.update, m.worker.record;
    TasksSame(m, StepTurn(m, now));
    match m.worker.stage
    case Starting =>
      var t := TurnTask(record, if record.dependencies != [] then WaitingDependency else Running, None, now);
      TurnTaskMoves(m, u, t);
      TasksAlike(m, PutTask(m, RoutedTask(u), t), StepTurn(m, now));
    case Closing(run) =>
      var t := TurnTask(record, Completed, Some(run), now);
      TurnTaskMoves(m, u, t);
      TasksAlike(m, PutTask(m, RoutedTask(u), t), StepTurn(m, now));
    case _ =>
  }

  lemma TasksSame(m: Machine, n: Machine)
    ensures n.db.tasks == m.db.tasks && n.tasker == m.tasker ==> TasksMove(m, n)
  {
    hide IsPostingResult, IsSettled;
  }

  lemma TasksAlike(m: Machine, a: Machine, b: Machine)
    requires TasksMove(m, a) && b.db.tasks == a.db.tasks && b.tasker == a.tasker
    ensures TasksMove(m, b)
  {
    hide IsPostingResult, IsSettled;
  }

  lemma StepTurnBooked(m: Machine, now: int)
    requires Booked(m)
    ensures Booked(StepTurn(m, now))
  {
    hide Booked, BooksMove;
    if m.worker.SessionBusy? {
      if m.worker.stage.Emitting? {
        EmitBooked(m, now);
      } else {
        StepTurnMoves(m, now);
        MovedBooked(m, StepTurn(m, now));
      }
    }
  }

  lemma TurnBooked(m: Machine, i: nat, run: Option<string>)
    requires Booked(m)
    ensures Booked(BeginTurn(m, i)) && Booked(TakeTurn(m, run)) && Booked(StopTurn(m))
  {
    hide Booked, Hears, MessageText, IsPostingResult, IsSettled, IsPostingRouted;
    MovedBooked(m, BeginTurn(m, i));
    MovedBooked(m, TakeTurn(m, run));
    MovedBooked(m, StopTurn(m));
  }

  lemma StepTaskMoves(m: Machine, now: int)
    requires Jobs.TaskerInStep(m.tasker, m.db.tasks) && m.tasker.TaskerBusy? && !m.tasker.stage.Posting?
    ensures BooksMove(m, StepTask(m, now))
  {
    hide IsPostingRouted, IsEmittingOn, Jobs.Announces;
  }

  lemma StepTaskBooked(m: Machine, now: int)
    requires Booked(m) && Jobs.TaskerInStep(m.tasker, m.db.tasks) && TaskerOwned(m.tasker, m.db.tasks)
    ensures Booked(StepTask(m, now))
  {
    hide Booked, BooksMove, Jobs.TaskerInStep, TaskerOwned;
    if m.tasker.TaskerBusy? {
      if m.tasker.stage.Posting? {
        PostResultBooked(m, now);
      } else {
        StepTaskMoves(m, now);
        MovedBooked(m, StepTask(m, now));
      }
    }
  }

  lemma TaskBooked(m: Machine, i: nat, outcome: JobOutcome, now: int)
    requires Booked(m)
    ensures Booked(BeginTask(m, i)) && Booked(RunJob(m, outcome, now)) && Booked(StopTask(m))
  {
    hide Booked, Hears, SettledTask, IsTerminal, IsPostingRouted, IsEmittingOn, FinishedAt, ResultKind;
    MovedBooked(m, BeginTask(m, i));
    MovedBooked(m, RunJob(m, outcome, now));
    MovedBooked(m, StopTask(m));
  }

  /** Publishing, delivery and operators touch nothing that the books are about. */
  lemma OutsideBooked(m: Machine, n: Machine)
    requires Booked(m) && n.log.posted == m.log.posted && n.requests == m.requests && n.router == m.router && n.worker == m.worker
    requires n.tasker == m.tasker && n.db.tasks == m.db.tasks && n.log.resets == m.log.resets && n.log.turned == m.log.turned
    ensures Booked(n)
  {
    hide Booked, IsPostingResult, IsSettled, IsPostingRouted, IsEmittingOn;
    MovedBooked(m, n);
  }

  lemma PublisherBooked(m: Machine, s: Step)
    requires Booked(m) && (s.DoClaim? || s.DoPublish? || s.DoMarkPublication? || s.DoStopPublisher?)
    ensures Booked(Do(m, s))
  {
    hide Booked, SameEvents, StopPublisher, CreateTask, Claim, Publish, MarkPublication, BeginTask, StepTask, RunJob, StopTask, DeliverOutput, DeliverResult;
    hide Ask, Receive, PostInput, BeginRouter, StepRouter, FailRouter, StopRouter, BeginTurn, StepTurn, TakeTurn, StopTurn, Follow;
    match s {
      case DoClaim(keys, now) => ClaimFrame(m, keys, now);
      case DoPublish(publication) => PublishFrame(m, publication);
      case DoMarkPublication(now) => MarkPublicationFrame(m, now);
      case DoStopPublisher => StopPublisherFrame(m);
    }
    OutsideBooked(m, Do(m, s));
  }

  lemma DeliveryBooked(m: Machine, s: Step)
    requires Booked(m) && (s.DoDeliverOutput? || s.DoDeliverResult? || s.DoFollow? || s.DoChangeWorld?)
    ensures Booked(Do(m, s))
  {
    hide Booked, SameEvents, StopPublisher, CreateTask, Claim, Publish, MarkPublication, BeginTask, StepTask, RunJob, StopTask, DeliverOutput, DeliverResult;
    hide Ask, Receive, PostInput, BeginRouter, StepRouter, FailRouter, StopRouter, BeginTurn, StepTurn, TakeTurn, StopTurn, Follow;
    match s {
      case DoDeliverOutput(i, listing, accepts, budget, now) => DeliverOutputFrame(m, i, listing, accepts, budget, now);
      case DoDeliverResult(i, listing, accepts, budget, now) => DeliverResultFrame(m, i, listing, accepts, budget, now);
      case DoFollow(id, f) => FollowFrame(m, id, f, m.db.world);
      case DoChangeWorld(_) =>
    }
    OutsideBooked(m, Do(m, s));
  }

  lemma StepBooked(m: Machine, s: Step)
    requires Shaped(m) && Jobs.Settled(m) && Booked(m)
    ensures Booked(Do(m, s))
  {
    hide Booked, Ask, Receive, PostInput, CreateTask, Claim, Publish, MarkPublication, StopPublisher, BeginRouter, StepRouter, FailRouter, StopRouter;
    hide BeginTurn, StepTurn, TakeTurn, StopTurn, BeginTask, StepTask, RunJob, StopTask, DeliverOutput, DeliverResult, Follow;
    hide RowsShaped, RowsOwned, BusShaped, QueueShaped, RouterOwned, WorkerOwned, TaskerOwned, RequestsOwned, Jobs.ResultsAgree, Jobs.TaskerInStep;
    match s
    case DoAsk(u) => RequestBooked(m, u, "", None, Json.Null);
    case DoReceive(u, sourceId, operatorId, payload) => RequestBooked(m, u, sourceId, operatorId, payload);
    case DoPostInput(u, now) => PostInputBooked(m, u, now);
    case DoCreateTask(token, source, owner, executor, posts, now) => CreateTaskBooked(m, token, source, owner, executor, posts, now);
    case DoBeginRouter(i, input) => BeginRouterBooked(m, i, input);
    case DoStepRouter(now) => StepRouterBooked(m, now);
    case DoFailRouter => RouterEndBooked(m);
    case DoStopRouter => RouterEndBooked(m);
    case DoBeginTurn(i) => TurnBooked(m, i, None);
    case DoStepTurn(now) => StepTurnBooked(m, now);
    case DoTakeTurn(run) => TurnBooked(m, 0, run);
    case DoStopTurn => TurnBooked(m, 0, None);
    case DoBeginTask(i) => TaskBooked(m, i, JobError(""), 0);
    case DoStepTask(now) => StepTaskBooked(m, now);
    case DoRunJob(outcome, now) => TaskBooked(m, 0, outcome, now);
    case DoStopTask => TaskBooked(m, 0, JobError(""), 0);
    case DoClaim(_, _) => PublisherBooked(m, s);
    case DoPublish(_) => PublisherBooked(m, s);
    case DoMarkPublication(_) => PublisherBooked(m, s);
    case DoStopPublisher => PublisherBooked(m, s);
    case _ => DeliveryBooked(m, s);
  }

  lemma {:induction false} RunBooked(run: Execution)
    requires IsExecution(run)
    ensures Booked(End(run))
    decreases |run.steps|
  {
    hide Do, Shaped, Booked, Jobs.Settled, IsExecution;
    if run.steps == [] {
      StartBooked(run);
    } else {
      var before, s := LastStep(run);
      RunBooked(before);
      RunShaped(before);
      Jobs.RunSettled(before);
      StepBooked(End(before), s);
    }
  }

  lemma StartBooked(run: Execution)
    requires IsExecution(run) && run.steps == []
    ensures Booked(End(run))
  {
    hide Do;
  }

  /**
    Over every run: a routed event's row is written once at most, and once more for every router
    call on it cut short; an output's once, and once more for every call on the event cut short;
    a job's rows once each; and an input's as often as a request did not find the event.
   */
  lemma WritesBounded(run: Execution, u: int, token: string)
    requires IsExecution(run)
    ensures var m := End(run);
      && Writes(m.log.posted, RoutedRow(u)) <= 1 + m.log.routerLost[u]
      && Writes(m.log.posted, OutputRow(u)) <= 1 + m.log.routerLost[u] + m.log.turnLost[u]
      && Writes(m.log.posted, CreatedRow(token)) <= 1
      && Writes(m.log.posted, ResultRow(JobTask(token))) <= 1
      && Writes(m.log.posted, InputRow(u)) <= m.requests.missed[u]
  {
    hide IsExecution, Writes, Counted;
    RunBooked(run);
    TurnsBounded(run, u);
    ResetsBounded(run, u);
    var m := End(run);
    assert Writes(m.log.posted, RoutedRow(u)) + One(IsPostingRouted(m.router, u)) <= m.log.resets[u];
    assert Writes(m.log.posted, OutputRow(u)) + One(IsEmittingOn(m.worker, u)) <= m.log.turned[u];
    assert Writes(m.log.posted, InputRow(u)) + m.requests.asked[u] + m.requests.recorded[u] <= m.requests.missed[u];
  }

  lemma ResetsBounded(run: Execution, u: int)
    requires IsExecution(run)
    ensures End(run).log.resets[u] <= 1 + End(run).log.routerLost[u]
  {
    hide IsExecution, TurnsBalanced, CommitsCovered;
    RunCounted(run);
    var m := End(run);
    assert m.log.resets[u] <= m.log.routerLost[u] + One(IsProcessed(m.db.inbound, u) || IsRoutingOn(m.router, u));
  }

  /**
    What keeps a row to one payload: for a routed event, that no router call on it was cut short;
    for an output, that no call on the event was; for an input, that one request at most did not
    find the event; for a dead letter, that the event was dead-lettered once; for a job, nothing.
   */
  ghost predicate IsUndisturbed(m: Machine, k: RowKey) {
    match k
    case RoutedRow(u) => m.log.routerLost[u] == 0
    case OutputRow(u) => m.log.routerLost[u] == 0 && m.log.turnLost[u] == 0
    case InputRow(u) => m.requests.missed[u] <= 1
    case DeadLetterRow(u) => Writes(m.log.posted, k) <= 1
    case CreatedRow(_) => true
    case ResultRow(t) => t.JobTask?
  }

  lemma UndisturbedOnce(run: Execution, k: RowKey)
    requires IsExecution(run) && IsUndisturbed(End(run), k)
    ensures Writes(End(run).log.posted, k) <= 1
  {
    hide IsExecution, Writes;
    match k
    case RoutedRow(u) => WritesBounded(run, u, "");
    case OutputRow(u) => WritesBounded(run, u, "");
    case InputRow(u) => WritesBounded(run, u, "");
    case DeadLetterRow(_) =>
    case CreatedRow(token) => WritesBounded(run, 0, token);
    case ResultRow(t) => WritesBounded(run, 0, t.token);
  }
}

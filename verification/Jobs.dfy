/** A job's task settles once, and its result event says what the task says. */
module Jobs {
  import opened Text
  import opened Ids
  import opened Records
  import opened Machine
  import opened Frames
  import opened Shape
  import E = EventBus
  import Json

  /** The event type that announces a final status. */
  function Announces(s: TaskStatus): EventType {
    match s
    case Completed => TaskCompleted
    case Blocked => TaskBlocked
    case _ => TaskFailed
  }

  /** Every result ever posted is of a settled task, and announces the status it has. */
  predicate ResultsAgree(posted: seq<Posted>, tasks: map<TaskKey, Task>) {
    forall p | p in posted && p.row.ResultRow? ::
      && p.row.task.JobTask? && p.row.task in tasks && IsTerminal(tasks[p.row.task].status)
      && p.payload == ResultEnvelope(p.row.task, Announces(tasks[p.row.task].status), p.payload.createdAt)
  }

  /** A call on a task knows where the task stands. */
  predicate TaskerInStep(t: Tasker, tasks: map<TaskKey, Task>) {
    t.TaskerBusy? ==>
      && t.task in tasks && t.task.JobTask?
      && (t.stage.Posting? ==> IsTerminal(tasks[t.task].status) && t.stage.kind == Announces(tasks[t.task].status))
      && (!t.stage.Posting? ==> !IsTerminal(tasks[t.task].status))
      && (t.stage.Settling? && t.stage.outcome.Some? ==>
            IsTerminal(t.stage.settled.status) && t.stage.outcome.value == Announces(t.stage.settled.status))
  }

  predicate Settled(m: Machine) {
    ResultsAgree(m.log.posted, m.db.tasks) && TaskerInStep(m.tasker, m.db.tasks)
  }

  /** The tasks of jobs that are settled stay exactly as they are. */
  predicate JobsStay(a: map<TaskKey, Task>, b: map<TaskKey, Task>) {
    forall t | t in a && t.JobTask? && IsTerminal(a[t].status) :: t in b && b[t] == a[t]
  }

  lemma SameSettled(m: Machine, n: Machine)
    requires Settled(m) && n.log.posted == m.log.posted && n.db.tasks == m.db.tasks && n.tasker == m.tasker
    ensures Settled(n) && JobsStay(m.db.tasks, n.db.tasks)
  {
  }

  lemma PostSettled(m: Machine, k: RowKey, e: Envelope, now: int)
    requires Settled(m) && !k.ResultRow?
    ensures var n := Post(m, k, e, now);
      Settled(n) && JobsStay(m.db.tasks, n.db.tasks)
  {
  }

  lemma PostResultSettled(m: Machine, t: TaskKey, kind: EventType, now: int)
    requires Settled(m) && t.JobTask? && t in m.db.tasks && IsTerminal(m.db.tasks[t].status) && kind == Announces(m.db.tasks[t].status)
    ensures var n := Post(m, ResultRow(t), ResultEnvelope(t, kind, now), now);
      Settled(n) && JobsStay(m.db.tasks, n.db.tasks)
  {
    hide TaskerInStep;
  }

  /** Results concern jobs only, so the task of an event may change freely. */
  lemma TurnTaskSettled(m: Machine, u: int, record: Task)
    requires Settled(m)
    ensures var n := PutTask(m, RoutedTask(u), record);
      Settled(n) && JobsStay(m.db.tasks, n.db.tasks)
  {
  }

  /** A task that is not settled has no result posted, so it may change freely. */
  lemma JobTaskSettled(m: Machine, t: TaskKey, record: Task, next: Tasker)
    requires Settled(m) && (t !in m.db.tasks || !IsTerminal(m.db.tasks[t].status))
    requires TaskerInStep(next, m.db.tasks[t := record])
    ensures var n := PutTask(m, t, record).(tasker := next);
      Settled(n) && JobsStay(m.db.tasks, n.db.tasks)
  {
    hide TaskerInStep;
  }

  lemma StepTaskSettled(m: Machine, now: int)
    requires Settled(m)
    ensures Settled(StepTask(m, now)) && JobsStay(m.db.tasks, StepTask(m, now).db.tasks)
  {
    hide ResultsAgree, Announces, JobsStay;
    SameSettled(m, m);
    if m.tasker.TaskerBusy? {
      var t, record := m.tasker.task, m.tasker.record;
      match m.tasker.stage
      case Launching => JobTaskSettled(m, t, Launched(record, now), TaskerBusy(t, Launched(record, now), Executing));
      case Executing =>
      case Settling(settled, outcome) => JobTaskSettled(m, t, settled, StepTask(m, now).tasker);
      case Posting(kind) =>
        PostResultSettled(m, t, kind, now);
        IdleSettled(Post(m, ResultRow(t), ResultEnvelope(t, kind, now), now));
    }
  }

  lemma IdleSettled(m: Machine)
    requires Settled(m)
    ensures Settled(m.(tasker := TaskerIdle))
  {
    hide ResultsAgree;
  }

  /** A job that ends announces its final status; one that does not end announces nothing. */
  lemma JobAnnounces(record: Task, job: Job)
    ensures var settled := SettledTask(record, job);
      FinishedAt(job).Some? ==> IsTerminal(settled.status) && ResultKind(job) == Announces(settled.status)
  {
  }

  lemma RunJobSettled(m: Machine, outcome: JobOutcome, now: int)
    requires Settled(m)
    ensures Settled(RunJob(m, outcome, now)) && Settled(StopTask(m))
  {
    hide ResultsAgree, SettledTask, FinishedAt, ResultKind, Announces;
    if outcome.JobDone? && m.tasker.TaskerBusy? {
      JobAnnounces(m.tasker.record, outcome.job);
    }
  }

  lemma BeginTaskSettled(m: Machine, i: nat)
    requires Settled(m) && Shaped(m)
    ensures Settled(BeginTask(m, i))
  {
    hide ResultsAgree, Hears, Shaped, Announces;
    if Hears(m, i, E.TASK_FILTER) {
      HearsInBus(m, i, E.TASK_FILTER);
      CreatedMessage(m, i);
    }
  }

  lemma CreateTaskSettled(m: Machine, token: string, source: string, owner: string, executor: string, posts: bool, now: int)
    requires Settled(m)
    ensures var n := CreateTask(m, token, source, owner, executor, posts, now);
      Settled(n) && JobsStay(m.db.tasks, n.db.tasks)
  {
    hide ResultsAgree, NewTask, CreatedEnvelope, Post, JobsStay, Announces, IsTerminal;
    SameSettled(m, m);
    if JobTask(token) !in m.db.tasks {
      var record := NewTask(token, source, owner, executor);
      var stored := PutTask(m, JobTask(token), record);
      assert TaskerInStep(m.tasker, m.db.tasks[JobTask(token) := record]);
      JobTaskSettled(m, JobTask(token), record, m.tasker);
      assert stored == PutTask(m, JobTask(token), record).(tasker := m.tasker);
      PostSettled(stored, CreatedRow(token), CreatedEnvelope(token, now), now);
      PostFrame(stored, CreatedRow(token), CreatedEnvelope(token, now), now);
    }
  }

  lemma StepTurnSettled(m: Machine, now: int)
    requires Settled(m)
    ensures Settled(StepTurn(m, now)) && JobsStay(m.db.tasks, StepTurn(m, now).db.tasks)
  {
    hide Settled, JobsStay, Post, PutTask, TurnTask, OutputEnvelope;
    var n := StepTurn(m, now);
    SameSettled(m, m);
    if m.worker.SessionBusy? {
      var u, record := m.worker.update, m.worker.record;
      match m.worker.stage
      case Starting =>
        var t := TurnTask(record, if record.dependencies != [] then WaitingDependency else Running, None, now);
        TurnTaskSettled(m, u, t);
        SameSettled(PutTask(m, RoutedTask(u), t), n);
      case Thinking =>
      case Emitting(run) =>
        PostSettled(m, OutputRow(u), OutputEnvelope(u, record.session, run, now), now);
        SameSettled(Post(m, OutputRow(u), OutputEnvelope(u, record.session, run, now), now), n);
      case Completing(run) => SameSettled(m, n);
      case Closing(run) =>
        var t := TurnTask(record, Completed, Some(run), now);
        TurnTaskSettled(m, u, t);
        SameSettled(PutTask(m, RoutedTask(u), t), n);
    }
  }

  lemma StepRouterSettled(m: Machine, now: int)
    requires Settled(m)
    ensures Settled(StepRouter(m, now)) && JobsStay(m.db.tasks, StepRouter(m, now).db.tasks)
  {
    hide Settled, JobsStay, Post, Mark, DeadEnvelope, RoutedEnvelope;
    var n := StepRouter(m, now);
    SameSettled(m, m);
    if m.router.RouterBusy? {
      var u := m.router.update;
      match m.router.todo
      case MarkFailed =>
        MarkFrame(m, u, InboundFailed);
        SameSettled(m, n);
      case PostDead =>
        PostSettled(m, DeadLetterRow(u), DeadEnvelope(u, now), now);
        SameSettled(Post(m, DeadLetterRow(u), DeadEnvelope(u, now), now), n);
      case PutRouted(record) => SameSettled(m, n);
      case PostRouted(session) =>
        PostSettled(m, RoutedRow(u), RoutedEnvelope(u, session, now), now);
        SameSettled(Post(m, RoutedRow(u), RoutedEnvelope(u, session, now), now), n);
      case MarkProcessed(_) =>
        MarkFrame(m, u, InboundProcessed);
        SameSettled(m, n);
    }
  }

  lemma RequestSettled(m: Machine, u: int, sourceId: string, operatorId: Option<string>, payload: Json.Json, now: int)
    requires Settled(m)
    ensures forall n | n == Receive(m, u, sourceId, operatorId, payload) || n == PostInput(m, u, now) || n == Ask(m, u) ::
      Settled(n) && JobsStay(m.db.tasks, n.db.tasks)
  {
    hide Settled, JobsStay, Post, InputEnvelope;
    SameSettled(m, m);
    SameSettled(m, Ask(m, u));
    SameSettled(m, Receive(m, u, sourceId, operatorId, payload));
    if m.requests.recorded[u] > 0 {
      var next := m.(requests := m.requests.(recorded := m.requests.recorded - multiset{u}));
      SameSettled(m, next);
      PostSettled(next, InputRow(u), InputEnvelope(u, now), now);
    }
  }

  lemma StepSettled(m: Machine, s: Step)
    requires Shaped(m) && Settled(m)
    ensures Settled(Do(m, s)) && JobsStay(m.db.tasks, Do(m, s).db.tasks)
  {
    hide Settled, JobsStay, Shaped, Ask, Receive, PostInput, CreateTask, Claim, Publish, MarkPublication, StopPublisher, BeginRouter, StepRouter, FailRouter, StopRouter;
    hide BeginTurn, StepTurn, TakeTurn, StopTurn, BeginTask, StepTask, RunJob, StopTask, DeliverOutput, DeliverResult, Follow;
    match s
    case DoAsk(u) => RequestSettled(m, u, "", None, Json.Null, 0);
    case DoReceive(u, sourceId, operatorId, payload) => RequestSettled(m, u, sourceId, operatorId, payload, 0);
    case DoPostInput(u, now) => RequestSettled(m, u, "", None, Json.Null, now);
    case DoCreateTask(token, source, owner, executor, posts, now) => CreateTaskSettled(m, token, source, owner, executor, posts, now);
    case DoStepRouter(now) => StepRouterSettled(m, now);
    case DoStepTurn(now) => StepTurnSettled(m, now);
    case DoBeginTask(i) => BeginTaskSettled(m, i); TasksKept(m, BeginTask(m, i)); BeginTaskFrame(m, i);
    case DoStepTask(now) => StepTaskSettled(m, now);
    case DoRunJob(outcome, now) => RunJobSettled(m, outcome, now); TasksKept(m, RunJob(m, outcome, now)); RunJobFrame(m, outcome, now);
    case DoStopTask => RunJobSettled(m, JobError(""), 0); TasksKept(m, StopTask(m)); RunJobFrame(m, JobError(""), 0);
    case _ => OtherSettled(m, s);
  }

  lemma TasksKept(m: Machine, n: Machine)
    ensures n.db.tasks == m.db.tasks ==> JobsStay(m.db.tasks, n.db.tasks)
  {
  }

  /** The other steps touch neither tasks, nor the calls on them, nor what is posted. */
  lemma OtherSettled(m: Machine, s: Step)
    requires Settled(m)
    requires !(s.DoAsk? || s.DoReceive? || s.DoPostInput? || s.DoCreateTask? || s.DoStepRouter? || s.DoStepTurn? || s.DoBeginTask? || s.DoStepTask? || s.DoRunJob? || s.DoStopTask?)
    ensures Settled(Do(m, s)) && JobsStay(m.db.tasks, Do(m, s).db.tasks)
  {
    hide Settled, JobsStay, Ask, Receive, PostInput, CreateTask, Claim, Publish, MarkPublication, StopPublisher, BeginRouter, StepRouter, FailRouter, StopRouter;
    hide BeginTurn, StepTurn, TakeTurn, StopTurn, BeginTask, StepTask, RunJob, StopTask, DeliverOutput, DeliverResult, Follow;
    match s {
      case DoClaim(keys, now) => ClaimFrame(m, keys, now);
      case DoPublish(publication) => PublishFrame(m, publication);
      case DoMarkPublication(now) => MarkPublicationFrame(m, now);
      case DoStopPublisher => StopPublisherFrame(m);
      case DoBeginRouter(i, input) => BeginRouterFrame(m, i, input);
      case DoFailRouter => FailRouterFrame(m);
      case DoStopRouter => FailRouterFrame(m);
      case DoBeginTurn(i) => BeginTurnFrame(m, i);
      case DoTakeTurn(run) => TakeTurnFrame(m, run);
      case DoStopTurn => TakeTurnFrame(m, None);
      case DoDeliverOutput(i, listing, accepts, budget, now) => DeliverOutputFrame(m, i, listing, accepts, budget, now);
      case DoDeliverResult(i, listing, accepts, budget, now) => DeliverResultFrame(m, i, listing, accepts, budget, now);
      case DoFollow(id, f) => FollowFrame(m, id, f, m.db.world);
      case DoChangeWorld(world) =>
    }
    SameSettled(m, Do(m, s));
  }

  lemma {:induction false} RunSettled(run: Execution)
    requires IsExecution(run)
    ensures Settled(End(run))
    decreases |run.steps|
  {
    hide Do, Shaped, Settled, IsExecution;
    if run.steps == [] {
      StartSettled(run);
    } else {
      var before, s := LastStep(run);
      RunSettled(before);
      RunShaped(before);
      StepSettled(End(before), s);
    }
  }

  lemma StartSettled(run: Execution)
    requires IsExecution(run) && run.steps == []
    ensures Settled(End(run))
  {
    hide Do;
  }

  /** A job's task that is settled at one point of a run is the same record ever after. */
  lemma {:induction false} SettledForever(run: Execution, n: nat, t: TaskKey)
    requires IsExecution(run) && n <= |run.steps|
    requires t.JobTask? && t in run.states[n].db.tasks && IsTerminal(run.states[n].db.tasks[t].status)
    ensures t in End(run).db.tasks && End(run).db.tasks[t] == run.states[n].db.tasks[t]
    decreases |run.steps|
  {
    hide Do, Shaped, Settled, IsTerminal;
    if n < |run.steps| {
      var before, s := LastStep(run);
      hide IsExecution;
      SettledForever(before, n, t);
      RunShaped(before);
      RunSettled(before);
      StepSettled(End(before), s);
    }
  }

  /** A result is posted only of a settled task, and always announces the status that the task has for good. */
  lemma ResultsTrue(run: Execution, t: TaskKey, e: Envelope)
    requires IsExecution(run) && Posted(ResultRow(t), e) in End(run).log.posted
    ensures var m := End(run);
      && t.JobTask? && t in m.db.tasks && IsTerminal(m.db.tasks[t].status)
      && e == ResultEnvelope(t, Announces(m.db.tasks[t].status), e.createdAt) && IsResultKind(e.kind)
  {
    hide IsExecution, IsTerminal;
    RunSettled(run);
  }

  /**
    What the task consumer hears is either that a task was created, which starts a job and is
    never delivered, or a result, which starts none and whose task delivery finds.
   */
  lemma TaskMessages(run: Execution, i: nat)
    requires IsExecution(run) && i < |End(run).bus| && Hears(End(run), i, E.TASK_FILTER)
    ensures var m := End(run);
      match m.bus[i].row
      case CreatedRow(token) => m.bus[i].payload.kind.TaskCreated? && JobTask(token) in m.db.tasks
      case ResultRow(t) => IsResultKind(m.bus[i].payload.kind) && BeginTask(m, i) == m && ResultOf(m.db, m.bus[i].payload.event) == Ready(t)
      case _ => false
  {
    hide IsExecution, Hears;
    RunShaped(run);
    Heard(End(run), i);
    TaskMessageRow(End(run), i);
  }

  lemma TaskMessageRow(m: Machine, i: nat)
    requires Shaped(m) && i < |m.bus|
    ensures RowShape(m.bus[i].row, m.bus[i].payload) && m.bus[i].row in m.db.rows
    ensures RowShape(m.bus[i].row, m.db.rows[m.bus[i].row].payload)
    ensures IsOwned(m.bus[i].row, m.db.inbound, m.db.routed, m.db.tasks)
  {
    hide RowShape, IsOwned;
    assert MessageShaped(m.bus[i].row, m.bus[i].payload, m.db.rows, m.log.posted);
  }
}

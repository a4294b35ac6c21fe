/** The task of a job: what it says over every run, from its creation to its end. */
module JobTasks {
  import opened Text
  import opened Ids
  import opened Records
  import opened Machine
  import opened Frames
  import opened Shape
  import E = EventBus

  /** Of which job the task is, and who handed it to whom. */
  predicate IsOfJob(t: Task, token: string) {
    t.kind == "agent_task" && t.job == Some("job-agentmsg-" + token) && t.sourceSession.Some? && t.owner.Some? && t.executor.Some?
  }

  /**
    A queued task has not been tried. One that runs was tried and has no end and no error. One
    that is over was tried; it has its job's lines, or an error and an end where there was no job to tell.
   */
  predicate IsJobTask(t: Task, token: string) {
    && IsOfJob(t, token) && t.status != WaitingDependency
    && (t.status == Queued <==> t.attempts == 0) && (t.status == Queued <==> t.startedAt == None)
    && (t.status == Queued ==> t.run == None && t.result == None)
    && (t.status == Queued || t.status == Running ==> t.finishedAt == None && t.error == None)
    && (t.status == TaskStatus.Completed ==> t.error == None)
    && (t.status == TaskStatus.Blocked ==> t.finishedAt.Some?)
    && (IsTerminal(t.status) ==> t.result.Some? || (t.status == TaskStatus.Failed && t.error.Some? && t.finishedAt.Some?))
  }

  predicate AreJobTasks(tasks: map<TaskKey, Task>) {
    forall t | t in tasks && t.JobTask? :: IsJobTask(tasks[t], t.token)
  }

  /** A call on a task holds a record that the task had, or is about to have. */
  predicate IsInCall(t: Tasker) {
    t.TaskerBusy? ==>
      && t.task.JobTask? && IsJobTask(t.record, t.task.token)
      && match t.stage
         case Launching => !IsTerminal(t.record.status)
         case Executing => t.record.status == Running
         case Settling(settled, _) => IsJobTask(settled, t.task.token)
         case Posting(_) => true
  }

  predicate JobsRead(m: Machine) {
    AreJobTasks(m.db.tasks) && IsInCall(m.tasker)
  }

  lemma LaunchedReads(record: Task, token: string, now: int)
    requires IsJobTask(record, token) && !IsTerminal(record.status)
    ensures IsJobTask(Launched(record, now), token) && Launched(record, now).status == Running
  {
  }

  lemma SettledReads(record: Task, token: string, job: Job, message: string, now: int)
    requires IsJobTask(record, token) && record.status == Running
    ensures IsJobTask(SettledTask(record, job), token)
    ensures IsJobTask(record.(status := TaskStatus.Failed, finishedAt := Some(now), error := Some(message)), token)
  {
  }

  lemma PutReads(m: Machine, t: TaskKey, record: Task, next: Tasker)
    requires AreJobTasks(m.db.tasks) && (t.JobTask? ==> IsJobTask(record, t.token)) && IsInCall(next)
    ensures JobsRead(PutTask(m, t, record).(tasker := next))
  {
    hide IsJobTask, IsInCall;
  }

  lemma StepTaskReads(m: Machine, now: int)
    requires JobsRead(m)
    ensures JobsRead(StepTask(m, now))
  {
    hide IsJobTask, Launched, ResultEnvelope, AreJobTasks;
    if m.tasker.TaskerBusy? {
      var t, record := m.tasker.task, m.tasker.record;
      match m.tasker.stage
      case Launching =>
        LaunchedReads(record, t.token, now);
        PutReads(m, t, Launched(record, now), TaskerBusy(t, Launched(record, now), Executing));
      case Executing =>
      case Settling(settled, kind) => PutReads(m, t, settled, StepTask(m, now).tasker);
      case Posting(kind) => SameReads(m, Post(m, ResultRow(t), ResultEnvelope(t, kind, now), now));
    }
  }

  lemma SameReads(m: Machine, n: Machine)
    requires JobsRead(m) && n.db.tasks == m.db.tasks && (n.tasker == m.tasker || n.tasker == TaskerIdle)
    ensures JobsRead(n)
  {
    hide IsJobTask;
  }

  lemma RunJobReads(m: Machine, outcome: JobOutcome, now: int)
    requires JobsRead(m)
    ensures JobsRead(RunJob(m, outcome, now))
  {
    hide IsJobTask, SettledTask, FinishedAt, ResultKind, AreJobTasks;
    if m.tasker.TaskerBusy? && m.tasker.stage.Executing? {
      var job := match outcome case JobDone(job) => job case JobError(_) => Job(JobOther, None, None, 0, None, []);
      SettledReads(m.tasker.record, m.tasker.task.token, job, if outcome.JobError? then outcome.message else "", now);
    }
  }

  lemma BeginTaskReads(m: Machine, i: nat)
    requires JobsRead(m) && Shaped(m)
    ensures JobsRead(BeginTask(m, i))
  {
    hide Hears, IsJobTask, RowsShaped, QueueShaped, RowsOwned, BusShaped, RouterOwned, WorkerOwned, RequestsOwned, Shaped;
    if Hears(m, i, E.TASK_FILTER) {
      HearsInBus(m, i, E.TASK_FILTER);
      CreatedMessage(m, i);
    }
  }

  lemma CreateTaskReads(m: Machine, token: string, source: string, owner: string, executor: string, posts: bool, now: int)
    requires JobsRead(m)
    ensures JobsRead(CreateTask(m, token, source, owner, executor, posts, now))
  {
    hide CreatedEnvelope, IsInCall, AreJobTasks;
    if JobTask(token) !in m.db.tasks {
      assert IsJobTask(NewTask(token, source, owner, executor), token);
      hide NewTask, IsJobTask;
      var stored := PutTask(m, JobTask(token), NewTask(token, source, owner, executor));
      PutReads(m, JobTask(token), NewTask(token, source, owner, executor), m.tasker);
      assert stored == stored.(tasker := m.tasker);
      SameReads(stored, CreateTask(m, token, source, owner, executor, posts, now));
    }
  }

  lemma StepTurnReads(m: Machine, now: int)
    requires JobsRead(m)
    ensures JobsRead(StepTurn(m, now))
  {
    hide TurnTask, OutputEnvelope, JobsRead, Post;
    SameReads(m, m);
    if m.worker.SessionBusy? {
      var u, record := m.worker.update, m.worker.record;
      match m.worker.stage
      case Starting =>
        EventTaskReads(m, u, TurnTask(record, if record.dependencies != [] then WaitingDependency else Running, None, now), StepTurn(m, now));
      case Thinking =>
      case Emitting(run) =>
        PostFrame(m, OutputRow(u), OutputEnvelope(u, record.session, run, now), now);
        SameReads(m, StepTurn(m, now));
      case Completing(run) => SameReads(m, StepTurn(m, now));
      case Closing(run) => EventTaskReads(m, u, TurnTask(record, TaskStatus.Completed, Some(run), now), StepTurn(m, now));
    }
  }

  /** The task of an event is no job's. */
  lemma EventTaskReads(m: Machine, u: int, record: Task, n: Machine)
    requires JobsRead(m) && n.db.tasks == PutTask(m, RoutedTask(u), record).db.tasks && n.tasker == m.tasker
    ensures JobsRead(n)
  {
    hide IsJobTask, IsInCall;
  }

  predicate IsTaskStep(s: Step) {
    s.DoCreateTask? || s.DoStepTurn? || s.DoBeginTask? || s.DoStepTask? || s.DoRunJob? || s.DoStopTask?
  }

  predicate IsRequestStep(s: Step) {
    s.DoAsk? || s.DoReceive? || s.DoPostInput? || s.DoBeginRouter? || s.DoStepRouter? || s.DoFailRouter? || s.DoStopRouter?
  }

  lemma RequestReads(m: Machine, s: Step)
    requires IsRequestStep(s)
    ensures var n := Do(m, s); n.db.tasks == m.db.tasks && n.tasker == m.tasker
  {
    hide SameEvents, Ask, Receive, PostInput, CreateTask, Claim, Publish, MarkPublication, StopPublisher, BeginRouter, StepRouter, FailRouter, StopRouter;
    hide BeginTurn, StepTurn, TakeTurn, StopTurn, BeginTask, StepTask, RunJob, StopTask, DeliverOutput, DeliverResult, Follow;
    match s
    case DoAsk(u) => AskFrame(m, u);
    case DoReceive(u, sourceId, operatorId, payload) => ReceiveFrame(m, u, sourceId, operatorId, payload);
    case DoPostInput(u, now) => PostInputFrame(m, u, now);
    case DoBeginRouter(i, input) => BeginRouterFrame(m, i, input);
    case DoStepRouter(now) => StepRouterFrame(m, now);
    case DoFailRouter => FailRouterFrame(m);
    case DoStopRouter => FailRouterFrame(m);
  }

  lemma OtherReads(m: Machine, s: Step)
    requires !IsTaskStep(s) && !IsRequestStep(s)
    ensures var n := Do(m, s); n.db.tasks == m.db.tasks && n.tasker == m.tasker
  {
    hide SameEvents, Ask, Receive, PostInput, CreateTask, Claim, Publish, MarkPublication, StopPublisher, BeginRouter, StepRouter, FailRouter, StopRouter;
    hide BeginTurn, StepTurn, TakeTurn, StopTurn, BeginTask, StepTask, RunJob, StopTask, DeliverOutput, DeliverResult, Follow;
    match s
    case DoClaim(keys, now) => ClaimFrame(m, keys, now);
    case DoPublish(publication) => PublishFrame(m, publication);
    case DoMarkPublication(now) => MarkPublicationFrame(m, now);
    case DoStopPublisher => StopPublisherFrame(m);
    case DoBeginTurn(i) => BeginTurnFrame(m, i);
    case DoTakeTurn(run) => TakeTurnFrame(m, run);
    case DoStopTurn => TakeTurnFrame(m, None);
    case DoDeliverOutput(i, listing, accepts, budget, now) => DeliverOutputFrame(m, i, listing, accepts, budget, now);
    case DoDeliverResult(i, listing, accepts, budget, now) => DeliverResultFrame(m, i, listing, accepts, budget, now);
    case DoFollow(id, f) => FollowFrame(m, id, f, m.db.world);
    case DoChangeWorld(world) =>
  }

  lemma StepReads(m: Machine, s: Step)
    requires JobsRead(m) && Shaped(m)
    ensures JobsRead(Do(m, s))
  {
    hide JobsRead, Shaped, Ask, Receive, PostInput, CreateTask, Claim, Publish, MarkPublication, StopPublisher, BeginRouter, StepRouter, FailRouter, StopRouter;
    hide BeginTurn, StepTurn, TakeTurn, StopTurn, BeginTask, StepTask, RunJob, StopTask, DeliverOutput, DeliverResult, Follow;
    match s
    case DoCreateTask(token, source, owner, executor, posts, now) => CreateTaskReads(m, token, source, owner, executor, posts, now);
    case DoStepTurn(now) => StepTurnReads(m, now);
    case DoBeginTask(i) => BeginTaskReads(m, i);
    case DoStepTask(now) => StepTaskReads(m, now);
    case DoRunJob(outcome, now) => RunJobReads(m, outcome, now);
    case DoStopTask => Stopped(m);
    case _ =>
      if IsRequestStep(s) { RequestReads(m, s); } else { OtherReads(m, s); }
      SameReads(m, Do(m, s));
  }

  lemma Stopped(m: Machine)
    requires JobsRead(m)
    ensures JobsRead(StopTask(m))
  {
    SameReads(m, StopTask(m));
  }

  lemma {:induction false} RunReads(run: Execution)
    requires IsExecution(run)
    ensures JobsRead(End(run))
    decreases |run.steps|
  {
    hide Do, Shaped, JobsRead, IsExecution;
    if run.steps == [] {
      NothingRead(run);
    } else {
      var before, s := LastStep(run);
      RunReads(before);
      RunShaped(before);
      StepReads(End(before), s);
    }
  }

  lemma NothingRead(run: Execution)
    requires IsExecution(run) && run.steps == []
    ensures JobsRead(End(run))
  {
    hide Do;
  }

  /** Over every run, whatever calls are cut short: each job's task reads as a task of that job. */
  lemma JobOverRun(run: Execution, token: string)
    requires IsExecution(run) && JobTask(token) in End(run).db.tasks
    ensures IsJobTask(End(run).db.tasks[JobTask(token)], token)
  {
    hide IsExecution, IsJobTask;
    RunReads(run);
  }
}

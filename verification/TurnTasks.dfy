/** The task of an event: what it says while the event's turn is under way, and when the turn is done. */
module TurnTasks {
  import opened Text
  import opened Json
  import opened Ids
  import opened Records
  import opened Machine
  import opened Frames
  import opened Shape
  import opened Provenance
  import Admission
  import Renderings

  /** The task is that of the routed event's session and agent, and no job's. */
  predicate IsTaskOf(t: Task, record: Routed) {
    && t.kind == "session_input" && t.sourceSession == Some(record.session)
    && t.owner == Some(record.agent) && t.executor == Some(record.agent)
    && t.job == None && t.result == None && t.error == None
  }

  /** The turn is under way. */
  predicate IsUnderway(t: Task, record: Routed) {
    IsTaskOf(t, record) && t.status == Running && t.run == None && t.startedAt.Some? && t.finishedAt == None && t.attempts == 1
  }

  /** The turn is done, and this is its run. */
  predicate IsDoneBy(t: Task, record: Routed, run: string, now: int) {
    && IsTaskOf(t, record) && t.status == TaskStatus.Completed && t.run == Some(run)
    && t.startedAt == Some(now) && t.finishedAt == Some(now) && t.attempts == 1
  }

  /** The event waits for others. */
  predicate IsWaiting(t: Task, record: Routed) {
    IsTaskOf(t, record) && t.status == WaitingDependency && t.run == None && t.startedAt == None && t.finishedAt == None && t.attempts == 0
  }

  lemma TurnTaskSays(record: Routed, run: string, now: int)
    ensures IsUnderway(TurnTask(record, Running, None, now), record)
    ensures IsWaiting(TurnTask(record, WaitingDependency, None, now), record)
    ensures IsDoneBy(TurnTask(record, TaskStatus.Completed, Some(run), now), record, run, now)
  {
  }

  /** The payload holds a text that is not blank. */
  ghost predicate HasPlainText(payload: Parsed<Json>) {
    payload.Parsed? && exists text :: Admission.HasField(payload.value, "text", Str(text)) && !Renderings.IsAllWhite(text)
  }

  lemma PlainTextIff(record: Routed)
    ensures MessageText(record).Some? <==> HasPlainText(record.payload)
  {
    hide GetString, Admission.HasField, IsBlank, Renderings.IsAllWhite;
    if record.payload.Parsed? {
      var v := record.payload.value;
      forall text ensures GetString(v, "text") == Some(text) <==> Admission.HasField(v, "text", Str(text)) {
        Admission.GetStringIs(v, "text", text);
      }
      forall text ensures IsBlank(text) <==> Renderings.IsAllWhite(text) { Renderings.BlankIff(text); }
    }
  }

  /** What a session call's writes say of the task: it waits, its turn is under way, its turn is done. */
  lemma TaskWritten(m: Machine, now: int)
    requires m.worker.SessionBusy?
    ensures var n := StepTurn(m, now);
      var u, record, k := m.worker.update, m.worker.record, RoutedTask(m.worker.update);
      match m.worker.stage
      case Starting =>
        && k in n.db.tasks && n.db.tasks == m.db.tasks[k := n.db.tasks[k]]
        && (if record.dependencies != [] then IsWaiting(n.db.tasks[k], record) && n.worker == SessionIdle
            else IsUnderway(n.db.tasks[k], record) && n.worker == SessionBusy(u, record, Thinking))
      case Closing(run) =>
        && k in n.db.tasks && n.db.tasks == m.db.tasks[k := n.db.tasks[k]]
        && IsDoneBy(n.db.tasks[k], record, run, now) && n.worker == SessionIdle
      case Thinking => n == m
      case Emitting(run) => n.db.tasks == m.db.tasks && n.worker == SessionBusy(u, record, Completing(run))
      case Completing(run) => n.db.tasks == m.db.tasks && n.worker == SessionBusy(u, record, Stage.Closing(run))
  {
    hide OutputEnvelope;
  }

  /** A turn succeeds exactly when the call has come to it, it yields a run, and there is a text to take it on. */
  lemma TurnTakenIff(m: Machine, run: Option<string>)
    ensures var n := TakeTurn(m, run);
      && n.db == m.db
      && (n.log.turns != m.log.turns
          <==> m.worker.SessionBusy? && m.worker.stage.Thinking? && run.Some? && HasPlainText(m.worker.record.payload))
      && (n.log.turns != m.log.turns ==> n.log.turns == m.log.turns + [Turn(m.worker.update, m.worker.record.session, run.value)])
  {
    hide MessageText, HasPlainText;
    if m.worker.SessionBusy? {
      PlainTextIff(m.worker.record);
    }
  }

  // Over runs

  /** A call that has made its first write finds the task under way, and until it completes the event finds it pending. */
  predicate IsTold(w: SessionWorker, routed: map<int, Routed>, tasks: map<TaskKey, Task>) {
    w.SessionBusy? ==>
      && (w.stage != Starting ==> RoutedTask(w.update) in tasks && IsUnderway(tasks[RoutedTask(w.update)], w.record))
      && (!w.stage.Closing? ==> w.update in routed && routed[w.update].status.RoutedPending?)
  }

  predicate Told(m: Machine) {
    IsTold(m.worker, m.db.routed, m.db.tasks)
  }

  /** Every completed event's task is done, or about to be. */
  predicate DoneTold(m: Machine) {
    forall u | u in m.db.routed && m.db.routed[u].status.RoutedCompleted? ::
      || (m.worker.SessionBusy? && m.worker.update == u && m.worker.stage.Closing?)
      || IsDoneTask(m.db.tasks, u)
  }

  predicate IsDoneTask(tasks: map<TaskKey, Task>, u: int) {
    && RoutedTask(u) in tasks
    && var t := tasks[RoutedTask(u)];
       && t.kind == "session_input" && t.status == TaskStatus.Completed && t.run.Some?
       && t.finishedAt.Some? && t.startedAt == t.finishedAt && t.error == None
  }

  /** Only a session call writes the tasks of events, and only it and the router routed events, which the router opens. */
  ghost predicate LeavesEvents(m: Machine, n: Machine) {
    && (forall u :: (RoutedTask(u) in n.db.tasks <==> RoutedTask(u) in m.db.tasks)
                    && (RoutedTask(u) in m.db.tasks ==> n.db.tasks[RoutedTask(u)] == m.db.tasks[RoutedTask(u)]))
    && (forall u | u in m.db.routed :: u in n.db.routed && (n.db.routed[u] == m.db.routed[u] || n.db.routed[u].status.RoutedPending?))
    && (forall u | u in n.db.routed && n.db.routed[u].status.RoutedCompleted? :: u in m.db.routed && n.db.routed[u] == m.db.routed[u])
  }

  lemma LeftTold(m: Machine, n: Machine)
    requires Told(m) && LeavesEvents(m, n) && n.worker == m.worker
    ensures Told(n) && (DoneTold(m) ==> DoneTold(n))
  {
    hide IsUnderway;
  }

  lemma StepRouterLeaves(m: Machine, now: int)
    requires m.router.RouterBusy? && m.router.todo.PutRouted? ==> m.router.todo.record.status.RoutedPending?
    ensures LeavesEvents(m, StepRouter(m, now))
  {
    hide StepRouter;
    StepRouterFrame(m, now);
  }

  /** The task of a job is no task of an event. */
  lemma PutJobLeaves(m: Machine, t: TaskKey, record: Task)
    requires t.JobTask?
    ensures LeavesEvents(m, PutTask(m, t, record)) && PutTask(m, t, record).worker == m.worker
  {
  }

  lemma LeavesSame(m: Machine, a: Machine, b: Machine)
    requires LeavesEvents(m, a) && b.db.tasks == a.db.tasks && b.db.routed == a.db.routed
    ensures LeavesEvents(m, b)
  {
  }

  lemma StepTaskLeaves(m: Machine, now: int)
    requires TaskerOwned(m.tasker, m.db.tasks)
    ensures LeavesEvents(m, StepTask(m, now)) && StepTask(m, now).worker == m.worker
  {
    hide ResultEnvelope, Launched, LeavesEvents;
    SameLeaves(m, m);
    if m.tasker.TaskerBusy? {
      var t := m.tasker.task;
      match m.tasker.stage
      case Launching =>
        PutJobLeaves(m, t, Launched(m.tasker.record, now));
        LeavesSame(m, PutTask(m, t, Launched(m.tasker.record, now)), StepTask(m, now));
      case Executing =>
      case Settling(settled, _) =>
        PutJobLeaves(m, t, settled);
        LeavesSame(m, PutTask(m, t, settled), StepTask(m, now));
      case Posting(kind) => SameLeaves(m, StepTask(m, now));
    }
  }

  lemma CreateTaskLeaves(m: Machine, now: int, token: string, source: string, owner: string, executor: string, posts: bool)
    ensures var n := CreateTask(m, token, source, owner, executor, posts, now);
      LeavesEvents(m, n) && n.worker == m.worker
  {
    hide CreatedEnvelope, NewTask, LeavesEvents;
    SameLeaves(m, m);
    var record := NewTask(token, source, owner, executor);
    PutJobLeaves(m, JobTask(token), record);
    if JobTask(token) !in m.db.tasks {
      LeavesSame(m, PutTask(m, JobTask(token), record), CreateTask(m, token, source, owner, executor, posts, now));
    }
  }

  lemma SameLeaves(m: Machine, n: Machine)
    requires n.db.tasks == m.db.tasks && n.db.routed == m.db.routed
    ensures LeavesEvents(m, n)
  {
  }

  lemma StepTurnTold(m: Machine, now: int)
    requires Told(m)
    ensures Told(StepTurn(m, now)) && (DoneTold(m) ==> DoneTold(StepTurn(m, now)))
  {
    hide StepTurn, IsUnderway, IsWaiting, IsDoneBy, IsDoneTask;
    StepTurnFrame(m, now);
    if m.worker.SessionBusy? {
      TaskWritten(m, now);
      if m.worker.stage.Closing? {
        DoneIsDone(StepTurn(m, now).db.tasks, m.worker.update, m.worker.record, m.worker.stage.run, now);
      }
      OtherTasks(m.db.tasks, StepTurn(m, now).db.tasks, m.worker.update);
    } else {
      IdleStep(m, now);
    }
  }

  lemma DoneIsDone(tasks: map<TaskKey, Task>, u: int, record: Routed, run: string, now: int)
    requires RoutedTask(u) in tasks && IsDoneBy(tasks[RoutedTask(u)], record, run, now)
    ensures IsDoneTask(tasks, u)
  {
  }

  lemma OtherTasks(a: map<TaskKey, Task>, b: map<TaskKey, Task>, u: int)
    requires b == a || (RoutedTask(u) in b && b == a[RoutedTask(u) := b[RoutedTask(u)]])
    ensures forall v | v != u :: IsDoneTask(a, v) ==> IsDoneTask(b, v)
    ensures b == a ==> (IsDoneTask(a, u) ==> IsDoneTask(b, u))
  {
  }

  lemma IdleStep(m: Machine, now: int)
    requires m.worker.SessionIdle?
    ensures StepTurn(m, now) == m
  {
  }

  lemma TurnTold(m: Machine, i: nat, run: Option<string>)
    requires Told(m)
    ensures Told(BeginTurn(m, i)) && Told(TakeTurn(m, run)) && Told(StopTurn(m))
    ensures DoneTold(m) ==> DoneTold(BeginTurn(m, i)) && DoneTold(TakeTurn(m, run))
    ensures DoneTold(m) && !(m.worker.SessionBusy? && m.worker.stage.Closing?) ==> DoneTold(StopTurn(m))
  {
    hide IsUnderway, Hears, MessageText;
  }

  predicate IsTurnStep(s: Step) {
    s.DoBeginTurn? || s.DoStepTurn? || s.DoTakeTurn? || s.DoStopTurn?
  }

  lemma OtherLeaves(m: Machine, s: Step)
    requires !IsTurnStep(s) && TaskerOwned(m.tasker, m.db.tasks)
    requires m.router.RouterBusy? && m.router.todo.PutRouted? ==> m.router.todo.record.status.RoutedPending?
    ensures LeavesEvents(m, Do(m, s)) && Do(m, s).worker == m.worker
  {
    hide LeavesEvents, SameEvents, TaskerOwned;
    hide Ask, Receive, PostInput, CreateTask, Claim, Publish, MarkPublication, StopPublisher, BeginRouter, StepRouter, FailRouter, StopRouter;
    hide BeginTurn, StepTurn, TakeTurn, StopTurn, BeginTask, StepTask, RunJob, StopTask, DeliverOutput, DeliverResult, Follow;
    match s {
      case DoStepRouter(now) => StepRouterLeaves(m, now); StepRouterParts(m, now);
      case DoStepTask(now) => StepTaskLeaves(m, now);
      case DoCreateTask(token, source, owner, executor, posts, now) => CreateTaskLeaves(m, now, token, source, owner, executor, posts);
      case DoAsk(u) => AskFrame(m, u);
      case DoReceive(u, sourceId, operatorId, payload) => ReceiveFrame(m, u, sourceId, operatorId, payload);
      case DoPostInput(u, now) => PostInputFrame(m, u, now);
      case DoBeginRouter(i, input) => BeginRouterFrame(m, i, input);
      case DoFailRouter => FailRouterFrame(m);
      case DoStopRouter => FailRouterFrame(m);
      case _ =>
        if IsPublisherStep(s) { PublisherLeaves(m, s); }
        else if s.DoBeginTask? || s.DoRunJob? || s.DoStopTask? { TaskCallLeaves(m, s); }
        else { OutwardLeaves(m, s); }
    }
    if Do(m, s).db.tasks == m.db.tasks && Do(m, s).db.routed == m.db.routed {
      SameLeaves(m, Do(m, s));
    }
  }

  predicate IsPublisherStep(s: Step) {
    s.DoClaim? || s.DoPublish? || s.DoMarkPublication? || s.DoStopPublisher?
  }

  lemma PublisherLeaves(m: Machine, s: Step)
    requires IsPublisherStep(s)
    ensures var n := Do(m, s); n.db.tasks == m.db.tasks && n.db.routed == m.db.routed && n.worker == m.worker
  {
    hide SameEvents, Ask, Receive, PostInput, CreateTask, Claim, Publish, MarkPublication, StopPublisher, BeginRouter, StepRouter, FailRouter, StopRouter;
    hide BeginTurn, StepTurn, TakeTurn, StopTurn, BeginTask, StepTask, RunJob, StopTask, DeliverOutput, DeliverResult, Follow;
    match s
    case DoClaim(keys, now) => ClaimFrame(m, keys, now);
    case DoPublish(publication) => PublishFrame(m, publication);
    case DoMarkPublication(now) => MarkPublicationFrame(m, now);
    case DoStopPublisher => StopPublisherFrame(m);
  }

  lemma OutwardLeaves(m: Machine, s: Step)
    requires s.DoDeliverOutput? || s.DoDeliverResult? || s.DoFollow? || s.DoChangeWorld?
    ensures var n := Do(m, s); n.db.tasks == m.db.tasks && n.db.routed == m.db.routed && n.worker == m.worker
  {
    hide SameEvents, Ask, Receive, PostInput, CreateTask, Claim, Publish, MarkPublication, StopPublisher, BeginRouter, StepRouter, FailRouter, StopRouter;
    hide BeginTurn, StepTurn, TakeTurn, StopTurn, BeginTask, StepTask, RunJob, StopTask, DeliverOutput, DeliverResult, Follow;
    match s
    case DoDeliverOutput(i, listing, accepts, budget, now) => DeliverOutputFrame(m, i, listing, accepts, budget, now);
    case DoDeliverResult(i, listing, accepts, budget, now) => DeliverResultFrame(m, i, listing, accepts, budget, now);
    case DoFollow(id, f) => FollowFrame(m, id, f, m.db.world);
    case DoChangeWorld(_) =>
  }

  lemma TaskCallLeaves(m: Machine, s: Step)
    requires s.DoBeginTask? || s.DoRunJob? || s.DoStopTask?
    ensures var n := Do(m, s); n.db.tasks == m.db.tasks && n.db.routed == m.db.routed && n.worker == m.worker
  {
    hide SameEvents, Ask, Receive, PostInput, CreateTask, Claim, Publish, MarkPublication, StopPublisher, BeginRouter, StepRouter, FailRouter, StopRouter;
    hide BeginTurn, StepTurn, TakeTurn, StopTurn, BeginTask, StepTask, RunJob, StopTask, DeliverOutput, DeliverResult, Follow;
    match s
    case DoBeginTask(i) => BeginTaskFrame(m, i);
    case DoRunJob(outcome, now) => RunJobFrame(m, outcome, now);
    case DoStopTask => RunJobFrame(m, JobError(""), 0);
  }

  lemma TurnStepTold(m: Machine, s: Step)
    requires Told(m) && IsTurnStep(s)
    ensures Told(Do(m, s)) && (DoneTold(m) && !s.DoStopTurn? ==> DoneTold(Do(m, s)))
  {
    hide Told, DoneTold;
    hide Ask, Receive, PostInput, CreateTask, Claim, Publish, MarkPublication, StopPublisher, BeginRouter, StepRouter, FailRouter, StopRouter;
    hide BeginTurn, StepTurn, TakeTurn, StopTurn, BeginTask, StepTask, RunJob, StopTask, DeliverOutput, DeliverResult, Follow;
    match s
    case DoBeginTurn(i) => TurnTold(m, i, None);
    case DoStepTurn(now) => StepTurnTold(m, now);
    case DoTakeTurn(run) => TurnTold(m, 0, run);
    case DoStopTurn => TurnTold(m, 0, None);
  }

  lemma StepTold(m: Machine, s: Step)
    requires Shaped(m) && Told(m) && RouterChosen(m.router, m.log.choices)
    ensures Told(Do(m, s)) && (DoneTold(m) && !s.DoStopTurn? ==> DoneTold(Do(m, s)))
  {
    hide Told, DoneTold, Do, IsChosen, LeavesEvents;
    hide RowsShaped, RowsOwned, BusShaped, QueueShaped, RouterOwned, WorkerOwned, TaskerOwned, RequestsOwned;
    if IsTurnStep(s) {
      TurnStepTold(m, s);
    } else {
      OtherLeaves(m, s);
      LeftTold(m, Do(m, s));
    }
  }

  lemma {:induction false} RunTold(run: Execution)
    requires IsExecution(run)
    ensures Told(End(run)) && ((forall s | s in run.steps :: !s.DoStopTurn?) ==> DoneTold(End(run)))
    decreases |run.steps|
  {
    hide Do, Shaped, Told, DoneTold, IsExecution, RouterChosen;
    if run.steps == [] {
      StartTold(run);
    } else {
      var before, s := LastStep(run);
      ExecutionStates(run);
      RunTold(before);
      RunShaped(before);
      RouterOfRun(before);
      StepTold(End(before), s);
      assert s in run.steps && forall x | x in before.steps :: x in run.steps;
    }
  }

  lemma RouterOfRun(run: Execution)
    requires IsExecution(run)
    ensures RouterChosen(End(run).router, End(run).log.choices)
  {
    hide IsExecution, IsChosen, ChoicesStored, RoutedChosen, WorkerChosen, TurnsDecided;
    RunChosen(run);
  }

  lemma StartTold(run: Execution)
    requires IsExecution(run) && run.steps == []
    ensures Told(End(run)) && DoneTold(End(run))
  {
    hide Do;
  }

  /**
    Over every run: from its first write to its last a session call's task is under way for the
    routed event that the call read; the last write marks it done, with the turn's run; and unless
    a session call dies, the task of every completed event is done, or its call is at that write.
   */
  lemma TaskOverRun(run: Execution, u: int)
    requires IsExecution(run)
    ensures var m := End(run);
      && (m.worker.SessionBusy? && m.worker.update == u && m.worker.stage != Starting ==>
            RoutedTask(u) in m.db.tasks && IsUnderway(m.db.tasks[RoutedTask(u)], m.worker.record))
      && ((forall s | s in run.steps :: !s.DoStopTurn?) && u in m.db.routed && m.db.routed[u].status.RoutedCompleted? ==>
            (m.worker.SessionBusy? && m.worker.update == u && m.worker.stage.Closing?) || IsDoneTask(m.db.tasks, u))
  {
    hide IsExecution, IsUnderway, IsDoneTask;
    RunTold(run);
  }
}

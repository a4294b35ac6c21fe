/** The task worker's call as it is written, against the machine's steps. */
module TaskCall {
  import opened Text
  import opened Ids
  import opened Records
  import opened Machine
  import opened EventStore

  function Rank(t: Tasker): nat {
    match t
    case TaskerIdle => 0
    case TaskerBusy(_, _, stage) =>
      match stage
      case Launching => 4
      case Executing => 3
      case Settling(_, _) => 2
      case Posting(_) => 1
  }

  /** The rest of a call run through without anyone in between, until `writes` runs out. */
  function Finish(m: Machine, outcome: JobOutcome, now: int, writes: nat): Machine
    decreases Rank(m.tasker)
  {
    if m.tasker.TaskerIdle? then m
    else if m.tasker.stage.Executing? then Finish(RunJob(m, outcome, now), outcome, now, writes)
    else if writes == 0 then StopTask(m)
    else Finish(StepTask(m, now), outcome, now, writes - 1)
  }

  /** What a call on the task `t` begins with. */
  function Begin(m: Machine, t: TaskKey): Machine {
    if t in m.db.tasks && !IsTerminal(m.db.tasks[t].status) && m.db.tasks[t].job.Some?
    then m.(tasker := TaskerBusy(t, m.db.tasks[t], Launching))
    else m
  }

  lemma BeginIsStep(m: Machine, i: nat)
    requires m.tasker.TaskerIdle? && Hears(m, i, EventBus.TASK_FILTER)
    requires m.bus[i].payload.kind.TaskCreated? && m.bus[i].payload.ref.TaskRef?
    ensures BeginTask(m, i) == Begin(m, m.bus[i].payload.ref.task)
  {
    hide Hears;
  }

  lemma FinishStops(m: Machine, outcome: JobOutcome, now: int, writes: nat)
    requires m.tasker.TaskerIdle? || (!m.tasker.stage.Executing? && writes == 0)
    ensures Finish(m, outcome, now, writes).db == m.db
  {
    hide StepTask, RunJob;
  }

  lemma FinishSteps(m: Machine, outcome: JobOutcome, now: int, writes: nat)
    requires m.tasker.TaskerBusy? && !m.tasker.stage.Executing? && writes > 0
    ensures Finish(m, outcome, now, writes) == Finish(StepTask(m, now), outcome, now, writes - 1)
  {
    hide StepTask, RunJob;
  }

  lemma FinishRuns(m: Machine, outcome: JobOutcome, now: int, writes: nat)
    requires m.tasker.TaskerBusy? && m.tasker.stage.Executing?
    ensures Finish(m, outcome, now, writes) == Finish(RunJob(m, outcome, now), outcome, now, writes)
    ensures RunJob(m, outcome, now).db == m.db
  {
    hide StepTask, SettledTask;
  }

  lemma Launch(m: Machine, t: TaskKey, record: Task, now: int)
    requires m.tasker == TaskerBusy(t, record, Launching)
    ensures var n := StepTask(m, now);
      && n.tasker == TaskerBusy(t, Launched(record, now), Executing)
      && n.db == m.db.(tasks := m.db.tasks[t := Launched(record, now)])
  {
    hide Launched;
  }

  lemma Settle(m: Machine, t: TaskKey, record: Task, settled: Task, kind: Option<EventType>, now: int)
    requires m.tasker == TaskerBusy(t, record, Settling(settled, kind))
    ensures var n := StepTask(m, now);
      && n.tasker == (if kind.Some? then TaskerBusy(t, settled, Posting(kind.value)) else TaskerIdle)
      && n.db == m.db.(tasks := m.db.tasks[t := settled])
  {
  }

  lemma PostResult(m: Machine, t: TaskKey, record: Task, kind: EventType, now: int)
    requires m.tasker == TaskerBusy(t, record, Posting(kind))
    ensures var n := StepTask(m, now);
      n.tasker.TaskerIdle? && n.db == m.db.(rows := m.db.rows[ResultRow(t) := NewRow(ResultEnvelope(t, kind, now), now)])
  {
    hide ResultEnvelope;
  }

  // What the call leaves behind, spelled out

  /** The task as it stands while its job runs. */
  predicate IsLaunchOf(before: Task, after: Task, now: int) {
    && after.status.Running? && after.attempts == before.attempts + 1
    && after.startedAt == Some(if before.startedAt.Some? then before.startedAt.value else now)
    && after == before.(status := after.status, attempts := after.attempts, startedAt := after.startedAt)
  }

  /** The status that a job's end gives its task; a job that has not ended leaves the task running. */
  predicate IsStatusFor(job: JobStatus, status: TaskStatus) {
    && (job.JobCompleted? <==> status.Completed?) && (job.JobFailed? <==> status.Failed?)
    && (job.JobCancelled? <==> status.Cancelled?) && (job.JobBlocked? <==> status.Blocked?)
    && (job.JobOther? <==> status.Running?)
  }

  /** The task tells what its job came to: its status, run, lines, end and error. */
  predicate Tells(job: Job, before: Task, after: Task) {
    && IsStatusFor(job.status, after.status) && after.run == job.run && after.result == Some(job.lines)
    && (after.error == if job.status in {JobFailed, JobCancelled, JobBlocked} then job.error else None)
    && (after.finishedAt == if job.status.JobOther? then None
                            else if job.status.JobBlocked? && job.finishedAt.None? then Some(job.updatedAt)
                            else job.finishedAt)
    && after == before.(status := after.status, run := after.run, result := after.result, error := after.error, finishedAt := after.finishedAt)
  }

  /** The task after its job, or after the job could not be executed. */
  predicate IsOutcomeOf(outcome: JobOutcome, before: Task, after: Task, now: int) {
    match outcome
    case JobDone(job) => Tells(job, before, after)
    case JobError(message) => after == before.(status := Failed, finishedAt := Some(now), error := Some(message))
  }

  /** A job that has ended is announced: completed, blocked, or failed, as which a cancelled one counts. */
  predicate IsAnnouncedAs(outcome: JobOutcome, after: Task, kind: Option<EventType>) {
    && (kind.Some? <==> outcome.JobDone? && after.finishedAt.Some?)
    && (kind.Some? ==> match after.status
                       case Completed => kind == Some(TaskCompleted)
                       case Blocked => kind == Some(TaskBlocked)
                       case Failed => kind == Some(TaskFailed)
                       case Cancelled => kind == Some(TaskFailed)
                       case _ => false)
  }

  lemma JobTold(record: Task, job: Job)
    ensures Tells(job, record, SettledTask(record, job))
    ensures IsAnnouncedAs(JobDone(job), SettledTask(record, job), if FinishedAt(job).Some? then Some(ResultKind(job)) else None)
  {
  }

  /** The store behind a call on the task, by the number of its writes that went through. */
  ghost predicate IsLeft(before: Db, after: Db, t: TaskKey, outcome: JobOutcome, now: int, writes: nat)
    requires t in before.tasks
  {
    exists launched, settled, kind ::
      && IsLaunchOf(before.tasks[t], launched, now) && IsOutcomeOf(outcome, launched, settled, now) && IsAnnouncedAs(outcome, settled, kind)
      && after == AreLeft(before, t, now, writes, launched, settled, kind)
  }

  function AreLeft(before: Db, t: TaskKey, now: int, writes: nat, launched: Task, settled: Task, kind: Option<EventType>): Db {
    before.(
      tasks := if writes == 0 then before.tasks else before.tasks[t := if writes == 1 then launched else settled],
      rows := if writes < 3 || kind.None? then before.rows
              else before.rows[ResultRow(t) := NewRow(ResultEnvelope(t, kind.value, now), now)])
  }

  lemma Left(before: Db, t: TaskKey, outcome: JobOutcome, now: int, writes: nat, launched: Task, settled: Task, kind: Option<EventType>)
    requires t in before.tasks
    requires IsLaunchOf(before.tasks[t], launched, now) && IsOutcomeOf(outcome, launched, settled, now) && IsAnnouncedAs(outcome, settled, kind)
    ensures IsLeft(before, AreLeft(before, t, now, writes, launched, settled, kind), t, outcome, now, writes)
    ensures AreLeft(before, t, now, 0, launched, settled, kind) == before
    ensures AreLeft(before, t, now, 1, launched, settled, kind) == before.(tasks := before.tasks[t := launched])
    ensures writes > 1 ==>
      var n := before.(tasks := before.tasks[t := settled]);
      AreLeft(before, t, now, writes, launched, settled, kind)
        == if writes == 2 || kind.None? then n
           else n.(rows := n.rows[ResultRow(t) := NewRow(ResultEnvelope(t, kind.value, now), now)])
  {
    hide IsLaunchOf, IsOutcomeOf, IsAnnouncedAs, ResultEnvelope;
  }

  /** The task that a call is on, where its job and its status let the call go on. */
  predicate IsOpen(tasks: map<TaskKey, Task>, t: TaskKey) {
    t in tasks && tasks[t].job.Some? && tasks[t].status !in {Completed, Failed, Cancelled, Blocked}
  }

  /** A call on an open task leaves what its writes say; a call on any other task leaves everything. */
  lemma CallLeaves(m: Machine, t: TaskKey, outcome: JobOutcome, now: int, writes: nat)
    requires m.tasker.TaskerIdle?
    ensures var after := Finish(Begin(m, t), outcome, now, writes).db;
      if IsOpen(m.db.tasks, t) then IsLeft(m.db, after, t, outcome, now, writes) else after == m.db
  {
    hide Finish, StepTask, RunJob, Launched, IsLeft, ResultEnvelope;
    var n := Begin(m, t);
    if n.tasker.TaskerIdle? {
      FinishStops(n, outcome, now, writes);
    } else {
      var record := m.db.tasks[t];
      Launch(n, t, record, now);
      JobLeaves(StepTask(n, now), m.db, t, record, outcome, now, writes);
      if writes == 0 {
        FinishStops(n, outcome, now, writes);
      } else {
        FinishSteps(n, outcome, now, writes);
      }
    }
  }

  lemma JobLeaves(m: Machine, before: Db, t: TaskKey, record: Task, outcome: JobOutcome, now: int, writes: nat)
    requires t in before.tasks && before.tasks[t] == record
    requires m.tasker == TaskerBusy(t, Launched(record, now), Executing)
    requires m.db == before.(tasks := before.tasks[t := Launched(record, now)])
    ensures writes == 0 ==> IsLeft(before, before, t, outcome, now, 0)
    ensures writes > 0 ==> IsLeft(before, Finish(m, outcome, now, writes - 1).db, t, outcome, now, writes)
  {
    hide Finish, StepTask, SettledTask, FinishedAt, ResultKind, ResultEnvelope, IsOutcomeOf, IsAnnouncedAs, IsLeft, AreLeft;
    var launched := Launched(record, now);
    var settled, kind := Outcome(launched, outcome, now);
    var n := m.(tasker := TaskerBusy(t, launched, Settling(settled, kind)));
    assert RunJob(m, outcome, now) == n;
    hide RunJob;
    assert IsLaunchOf(record, launched, now);
    hide Launched, IsLaunchOf;
    Left(before, t, outcome, now, writes, launched, settled, kind);
    if writes > 0 {
      FinishRuns(m, outcome, now, writes - 1);
      SettlingLeaves(n, t, launched, settled, kind, outcome, now, writes - 1);
      assert before.tasks[t := launched][t := settled] == before.tasks[t := settled];
    }
  }

  lemma SettlingLeaves(m: Machine, t: TaskKey, launched: Task, settled: Task, kind: Option<EventType>, outcome: JobOutcome, now: int, writes: nat)
    requires m.tasker == TaskerBusy(t, launched, Settling(settled, kind))
    ensures Finish(m, outcome, now, 0).db == m.db
    ensures writes > 0 ==>
      var n := m.db.(tasks := m.db.tasks[t := settled]);
      Finish(m, outcome, now, writes).db
        == if writes == 1 || kind.None? then n
           else n.(rows := n.rows[ResultRow(t) := NewRow(ResultEnvelope(t, kind.value, now), now)])
  {
    hide Finish, StepTask, RunJob, ResultEnvelope;
    FinishStops(m, outcome, now, 0);
    if writes > 0 {
      FinishSteps(m, outcome, now, writes);
      Settle(m, t, launched, settled, kind, now);
      PostLeaves(StepTask(m, now), t, settled, kind, outcome, now, writes - 1);
    }
  }

  lemma PostLeaves(m: Machine, t: TaskKey, settled: Task, kind: Option<EventType>, outcome: JobOutcome, now: int, writes: nat)
    requires m.tasker == (if kind.Some? then TaskerBusy(t, settled, Posting(kind.value)) else TaskerIdle)
    ensures Finish(m, outcome, now, writes).db
         == if kind.None? || writes == 0 then m.db
            else m.db.(rows := m.db.rows[ResultRow(t) := NewRow(ResultEnvelope(t, kind.value, now), now)])
  {
    hide Finish, StepTask, ResultEnvelope;
    if kind.None? || writes == 0 {
      FinishStops(m, outcome, now, writes);
    } else {
      FinishSteps(m, outcome, now, writes);
      PostResult(m, t, settled, kind.value, now);
      FinishStops(StepTask(m, now), outcome, now, writes - 1);
    }
  }

  /** The record and the announcement that the machine's step makes of what the job came to. */
  lemma Outcome(launched: Task, outcome: JobOutcome, now: int) returns (settled: Task, kind: Option<EventType>)
    ensures IsOutcomeOf(outcome, launched, settled, now) && IsAnnouncedAs(outcome, settled, kind)
    ensures match outcome
      case JobError(message) => settled == launched.(status := Failed, finishedAt := Some(now), error := Some(message)) && kind == None
      case JobDone(job) => settled == SettledTask(launched, job) && kind == if FinishedAt(job).Some? then Some(ResultKind(job)) else None
  {
    match outcome
    case JobError(message) =>
      settled, kind := launched.(status := Failed, finishedAt := Some(now), error := Some(message)), None;
    case JobDone(job) =>
      hide SettledTask, FinishedAt, ResultKind, Tells, IsAnnouncedAs;
      settled, kind := SettledTask(launched, job), if FinishedAt(job).Some? then Some(ResultKind(job)) else None;
      JobTold(launched, job);
  }

  /** `outcome` is what executing the job comes to. */
  method ExecuteTaskEvent(store: Store, kind: EventType, t: TaskKey, outcome: JobOutcome, now: int, ghost m: Machine)
    returns (posted: bool)
    requires m.tasker.TaskerIdle? && m.db == store.View()
    modifies store
    ensures if kind.TaskCreated? || kind.DelegateCreated?
            then store.View() == Finish(Begin(m, t), outcome, now, old(store.writes)).db
            else store.View() == m.db
    ensures posted ==> ResultRow(t) in store.View().rows
    ensures if (kind.TaskCreated? || kind.DelegateCreated?) && IsOpen(m.db.tasks, t)
            then IsLeft(m.db, store.View(), t, outcome, now, old(store.writes))
            else store.View() == m.db
  {
    hide Finish, StepTask, RunJob, Launched, SettledTask, ResultEnvelope, FinishedAt, ResultKind, IsLeft;
    posted := false;
    CallLeaves(m, t, outcome, now, store.writes);
    if !(kind.TaskCreated? || kind.DelegateCreated?) {
      return;
    }
    ghost var n := Begin(m, t);
    ghost var writes := store.writes;
    if t !in store.tasks || IsTerminal(store.tasks[t].status) || store.tasks[t].job.None? {
      FinishStops(n, outcome, now, writes);
      return;
    }
    var task := store.tasks[t];
    Launch(n, t, task, now);
    task := Launched(task, now);
    var ok := store.PutTaskRegistry(t, task);
    if !ok {
      FinishStops(n, outcome, now, writes);
      return;
    }
    FinishSteps(n, outcome, now, writes);
    n := StepTask(n, now);
    FinishRuns(n, outcome, now, store.writes);
    posted := SettleTask(store, t, task, outcome, now, n);
  }

  /** What follows the job: the settled task, and its result event when the job is over. */
  method SettleTask(store: Store, t: TaskKey, task: Task, outcome: JobOutcome, now: int, ghost m: Machine) returns (posted: bool)
    requires m.db == store.View() && m.tasker == TaskerBusy(t, task, Executing)
    modifies store
    ensures store.View() == Finish(RunJob(m, outcome, now), outcome, now, old(store.writes)).db
    ensures posted ==> ResultRow(t) in store.View().rows
  {
    hide Finish, StepTask, SettledTask, ResultEnvelope, FinishedAt, ResultKind, Store.View;
    var settled, kind;
    match outcome {
      case JobError(message) =>
        settled := task.(status := Failed, finishedAt := Some(now), error := Some(message));
        kind := None;
      case JobDone(job) =>
        settled := SettledTask(task, job);
        kind := if FinishedAt(job).Some? then Some(ResultKind(job)) else None;
    }
    ghost var n := RunJob(m, outcome, now);
    assert n.db == m.db && n.tasker == TaskerBusy(t, task, Settling(settled, kind));
    hide RunJob;
    posted := PutSettled(store, t, task, settled, kind, outcome, now, n);
  }

  method PutSettled(store: Store, t: TaskKey, task: Task, settled: Task, kind: Option<EventType>, outcome: JobOutcome, now: int, ghost m: Machine)
    returns (posted: bool)
    requires m.db == store.View() && m.tasker == TaskerBusy(t, task, Settling(settled, kind))
    modifies store
    ensures store.View() == Finish(m, outcome, now, old(store.writes)).db
    ensures posted ==> ResultRow(t) in store.View().rows
  {
    hide Finish, StepTask, ResultEnvelope, Store.View;
    posted := false;
    ghost var n := m;
    ghost var writes := store.writes;
    Settle(n, t, task, settled, kind, now);
    var ok := store.PutTaskRegistry(t, settled);
    if !ok {
      FinishStops(n, outcome, now, writes);
      return;
    }
    FinishSteps(n, outcome, now, writes);
    n, writes := StepTask(n, now), store.writes;
    if kind.None? {
      FinishStops(n, outcome, now, writes);
      return;
    }
    PostResult(n, t, settled, kind.value, now);
    posted := store.PutEventOutbox(ResultRow(t), ResultEnvelope(t, kind.value, now), now);
    if !posted {
      FinishStops(n, outcome, now, writes);
      return;
    }
    FinishSteps(n, outcome, now, writes);
    FinishStops(StepTask(n, now), outcome, now, store.writes);
  }

  /** A call run through is a run of the machine, so what holds of every run holds of it. */
  lemma {:induction false} FinishIsRun(run: Execution, outcome: JobOutcome, now: int, writes: nat) returns (more: Execution)
    requires IsExecution(run)
    ensures IsExecution(more) && run.steps <= more.steps && run.states <= more.states
    ensures End(more) == Finish(End(run), outcome, now, writes)
    decreases Rank(End(run).tasker)
  {
    hide Do, StepTask, RunJob, StopTask, IsExecution;
    ExecutionStates(run);
    var m := End(run);
    if m.tasker.TaskerIdle? {
      more := run;
    } else {
      var s := if m.tasker.stage.Executing? then DoRunJob(outcome, now) else if writes == 0 then DoStopTask else DoStepTask(now);
      AppendIsExecution(run, s);
      TaskSteps(m, s);
      more := Append(run, s);
      if !s.DoStopTask? {
        RankFalls(m, outcome, now);
        more := FinishIsRun(more, outcome, now, if s.DoStepTask? then writes - 1 else writes);
      }
    }
  }

  lemma TaskSteps(m: Machine, s: Step)
    ensures s.DoRunJob? ==> Do(m, s) == RunJob(m, s.outcome, s.now)
    ensures s.DoStepTask? ==> Do(m, s) == StepTask(m, s.now)
    ensures s.DoStopTask? ==> Do(m, s) == StopTask(m)
  {
    hide RunJob, StepTask, StopTask;
  }

  lemma RankFalls(m: Machine, outcome: JobOutcome, now: int)
    ensures m.tasker.TaskerBusy? && m.tasker.stage.Executing? ==> Rank(RunJob(m, outcome, now).tasker) < Rank(m.tasker)
    ensures m.tasker.TaskerBusy? && !m.tasker.stage.Executing? ==> Rank(StepTask(m, now).tasker) < Rank(m.tasker)
  {
    hide Launched, SettledTask, ResultEnvelope, FinishedAt, ResultKind;
  }
}

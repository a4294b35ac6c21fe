/** The session worker's call as it is written, against the machine's steps. */
module SessionCall {
  import opened Text
  import opened Ids
  import opened Records
  import opened Machine
  import opened EventStore
  import T = TurnTasks

  function Rank(w: SessionWorker): nat {
    match w
    case SessionIdle => 0
    case SessionBusy(_, _, stage) =>
      match stage
      case Starting => 5
      case Thinking => 4
      case Emitting(_) => 3
      case Completing(_) => 2
      case Closing(_) => 1
  }

  /** The rest of a call run through without anyone in between, until `writes` runs out. */
  function Finish(m: Machine, turn: Option<string>, now: int, writes: nat): Machine
    decreases Rank(m.worker)
  {
    if m.worker.SessionIdle? then m
    else if m.worker.stage.Thinking? then Finish(TakeTurn(m, turn), turn, now, writes)
    else if writes == 0 then StopTurn(m)
    else Finish(StepTurn(m, now), turn, now, writes - 1)
  }

  /** A write that fails ends the call and changes nothing. */
  lemma FinishStops(m: Machine, turn: Option<string>, now: int, writes: nat)
    requires m.worker.SessionIdle? || (!m.worker.stage.Thinking? && writes == 0)
    ensures Finish(m, turn, now, writes).db == m.db
  {
    hide StepTurn, TakeTurn;
  }

  lemma FinishSteps(m: Machine, turn: Option<string>, now: int, writes: nat)
    requires m.worker.SessionBusy? && !m.worker.stage.Thinking? && writes > 0
    ensures Finish(m, turn, now, writes) == Finish(StepTurn(m, now), turn, now, writes - 1)
  {
    hide StepTurn, TakeTurn;
  }

  lemma FinishThinks(m: Machine, turn: Option<string>, now: int, writes: nat)
    requires m.worker.SessionBusy? && m.worker.stage.Thinking?
    ensures Finish(m, turn, now, writes) == Finish(TakeTurn(m, turn), turn, now, writes)
    ensures MessageText(m.worker.record).None? || turn.None? ==> Finish(m, turn, now, writes).db == m.db
    ensures MessageText(m.worker.record).Some? && turn.Some? ==>
      var n := TakeTurn(m, turn);
      n.db == m.db && n.worker == SessionBusy(m.worker.update, m.worker.record, Emitting(turn.value))
  {
    hide StepTurn, MessageText;
  }

  /** The first write: the task waits, or runs. */
  lemma FirstWrite(m: Machine, u: int, record: Routed, now: int)
    requires m.worker == SessionBusy(u, record, Starting)
    ensures var n := StepTurn(m, now);
      if record.dependencies != [] then
        n.worker.SessionIdle? && n.db == m.db.(tasks := m.db.tasks[RoutedTask(u) := TurnTask(record, WaitingDependency, None, now)])
      else
        && n.worker == SessionBusy(u, record, Thinking)
        && n.db == m.db.(tasks := m.db.tasks[RoutedTask(u) := TurnTask(record, Running, None, now)])
  {
    hide TurnTask;
  }

  lemma LastWrites(m: Machine, u: int, record: Routed, run: string, now: int)
    requires m.worker.SessionBusy? && m.worker.update == u && m.worker.record == record
    ensures m.worker.stage == Emitting(run) ==>
      StepTurn(m, now).db == m.db.(rows := m.db.rows[OutputRow(u) := NewRow(OutputEnvelope(u, record.session, run, now), now)])
      && StepTurn(m, now).worker == SessionBusy(u, record, Completing(run))
    ensures m.worker.stage == Completing(run) ==>
      StepTurn(m, now).db == m.db.(routed := m.db.routed[u := record.(status := RoutedCompleted, publishedAt := Some(now))])
      && StepTurn(m, now).worker == SessionBusy(u, record, Closing(run))
    ensures m.worker.stage == Closing(run) ==>
      StepTurn(m, now).db == m.db.(tasks := m.db.tasks[RoutedTask(u) := TurnTask(record, TaskStatus.Completed, Some(run), now)])
      && StepTurn(m, now).worker.SessionIdle?
  {
    hide TurnTask, OutputEnvelope;
  }

  /** What a call on the routed event `u` begins with. */
  function Begin(m: Machine, u: int): Machine {
    if u in m.db.routed && m.db.routed[u].status.RoutedPending?
    then m.(worker := SessionBusy(u, m.db.routed[u], Starting))
    else m
  }

  lemma BeginIsStep(m: Machine, i: nat)
    requires m.worker.SessionIdle? && Hears(m, i, EventBus.SESSION_FILTER)
    requires m.bus[i].payload.kind.InputRouted? && m.bus[i].payload.ref.RoutedRef?
    ensures BeginTurn(m, i) == Begin(m, m.bus[i].payload.ref.routed)
  {
    hide Hears;
  }

  datatype Report = Finished(run: Option<string>) | Waiting | Unfinished

  /**
    What a call on a pending event reports, and what it leaves its task saying: it waits when the
    event has dependencies; else the task is under way from the first write on; and it is done,
    with the turn's run, when a turn was taken on a text and all four writes succeeded.
   */
  ghost predicate IsReported(report: Report, record: Routed, turn: Option<string>, now: int, writes: nat, tasks: map<TaskKey, Task>, k: TaskKey) {
    && (report.Waiting? <==> record.dependencies != [] && writes > 0)
    && (report.Finished? <==> record.dependencies == [] && writes >= 4 && turn.Some? && T.HasPlainText(record.payload))
    && (writes > 0 ==> k in tasks)
    && (report.Waiting? ==> T.IsWaiting(tasks[k], record))
    && (report.Finished? ==> report.run == turn && T.IsDoneBy(tasks[k], record, turn.value, now))
    && (report.Unfinished? && writes > 0 ==> T.IsUnderway(tasks[k], record))
  }

  method ExecuteRoutedSessionEvent(store: Store, u: int, turn: Option<string>, now: int, ghost m: Machine)
    returns (report: Report)
    requires m.worker.SessionIdle? && m.db == store.View()
    modifies store
    ensures store.View() == Finish(Begin(m, u), turn, now, old(store.writes)).db
    ensures report.Waiting? ==> u in m.db.routed && m.db.routed[u].dependencies != []
    ensures report.Finished? ==> u in store.View().routed && store.View().routed[u].status.RoutedCompleted?
    ensures u in m.db.routed && m.db.routed[u].status.RoutedPending? ==>
      IsReported(report, m.db.routed[u], turn, now, old(store.writes), store.View().tasks, RoutedTask(u))
  {
    hide Finish, StepTurn, TakeTurn, TurnTask, OutputEnvelope, MessageText, T.HasPlainText, T.IsDoneBy, T.IsUnderway, T.IsWaiting;
    var task := RoutedTask(u);
    ghost var n := Begin(m, u);
    ghost var writes := store.writes;
    if u !in store.routed {
      FinishStops(n, turn, now, writes);
      return Unfinished;
    }
    var routed := store.routed[u];
    if routed.status.RoutedCompleted? {
      FinishStops(n, turn, now, writes);
      return Finished(if task in store.tasks then store.tasks[task].run else None);
    }
    FirstWrite(n, u, routed, now);
    T.TurnTaskSays(routed, if turn.Some? then turn.value else "", now);
    T.PlainTextIff(routed);
    var waits := routed.dependencies != [];
    var ok := store.PutTaskRegistry(task, TurnTask(routed, if waits then WaitingDependency else Running, None, now));
    if !ok {
      FinishStops(n, turn, now, writes);
      return Unfinished;
    }
    FinishSteps(n, turn, now, writes);
    n := StepTurn(n, now);
    if waits {
      FinishStops(n, turn, now, store.writes);
      return Waiting;
    }
    FinishThinks(n, turn, now, store.writes);
    if MessageText(routed).None? || turn.None? {
      return Unfinished;
    }
    ok := PersistOutput(store, routed, turn.value, u, now, TakeTurn(n, turn));
    report := if ok then Finished(turn) else Unfinished;
  }

  /** The three writes behind a turn: output row, routed event, task. */
  method PersistOutput(store: Store, routed: Routed, run: string, u: int, now: int, ghost m: Machine) returns (ok: bool)
    requires m.db == store.View() && m.worker == SessionBusy(u, routed, Emitting(run))
    modifies store
    ensures store.View() == Finish(m, Some(run), now, old(store.writes)).db
    ensures ok ==> u in store.View().routed && store.View().routed[u].status.RoutedCompleted?
    ensures ok <==> old(store.writes) >= 3
    ensures store.View().tasks == if ok then m.db.tasks[RoutedTask(u) := TurnTask(routed, TaskStatus.Completed, Some(run), now)] else m.db.tasks
  {
    hide Finish, StepTurn, TurnTask, OutputEnvelope;
    hide Store.View;
    ghost var n := m;
    ghost var writes := store.writes;
    LastWrites(n, u, routed, run, now);
    ok := store.PutEventOutbox(OutputRow(u), OutputEnvelope(u, routed.session, run, now), now);
    if !ok {
      FinishStops(n, Some(run), now, writes);
      return;
    }
    FinishSteps(n, Some(run), now, writes);
    n, writes := StepTurn(n, now), store.writes;
    LastWrites(n, u, routed, run, now);
    ok := store.PutRoutedEvent(u, routed.(status := RoutedCompleted, publishedAt := Some(now)));
    if !ok {
      FinishStops(n, Some(run), now, writes);
      return;
    }
    FinishSteps(n, Some(run), now, writes);
    n, writes := StepTurn(n, now), store.writes;
    LastWrites(n, u, routed, run, now);
    ok := store.PutTaskRegistry(RoutedTask(u), TurnTask(routed, TaskStatus.Completed, Some(run), now));
    if !ok {
      FinishStops(n, Some(run), now, writes);
      return;
    }
    FinishSteps(n, Some(run), now, writes);
    FinishStops(StepTurn(n, now), Some(run), now, store.writes);
  }

  /** A call run through is a run of the machine, so what holds of every run holds of it. */
  lemma {:induction false} FinishIsRun(run: Execution, turn: Option<string>, now: int, writes: nat) returns (more: Execution)
    requires IsExecution(run)
    ensures IsExecution(more) && run.steps <= more.steps && run.states <= more.states
    ensures End(more) == Finish(End(run), turn, now, writes)
    decreases Rank(End(run).worker)
  {
    hide Do, StepTurn, TakeTurn, StopTurn, IsExecution;
    ExecutionStates(run);
    var m := End(run);
    if m.worker.SessionIdle? {
      more := run;
    } else {
      var s := if m.worker.stage.Thinking? then DoTakeTurn(turn) else if writes == 0 then DoStopTurn else DoStepTurn(now);
      AppendIsExecution(run, s);
      TurnSteps(m, s);
      more := Append(run, s);
      if !s.DoStopTurn? {
        RankFalls(m, turn, now);
        more := FinishIsRun(more, turn, now, if s.DoStepTurn? then writes - 1 else writes);
      }
    }
  }

  lemma TurnSteps(m: Machine, s: Step)
    ensures s.DoTakeTurn? ==> Do(m, s) == TakeTurn(m, s.run)
    ensures s.DoStepTurn? ==> Do(m, s) == StepTurn(m, s.now)
    ensures s.DoStopTurn? ==> Do(m, s) == StopTurn(m)
  {
    hide StepTurn, TakeTurn, StopTurn;
  }

  lemma RankFalls(m: Machine, turn: Option<string>, now: int)
    ensures m.worker.SessionBusy? && m.worker.stage.Thinking? ==> Rank(TakeTurn(m, turn).worker) < Rank(m.worker)
    ensures m.worker.SessionBusy? && !m.worker.stage.Thinking? ==> Rank(StepTurn(m, now).worker) < Rank(m.worker)
  {
    hide MessageText, TurnTask, OutputEnvelope;
  }
}

/** What is completed has an output, and every output a turn. */
module Outputs {
  import opened Text
  import opened Ids
  import opened Records
  import opened Machine
  import opened Frames
  import opened Shape
  import opened Provenance
  import E = EventBus
  import T = Transcripts
  import Json
  import Binding

  /** Every output row names a run that succeeded for its event. */
  predicate OutputsBacked(rows: map<RowKey, Row>, turns: seq<Turn>) {
    forall k | k in rows && k.OutputRow? && rows[k].payload.ref.RunRef? ::
      Turn(k.update, rows[k].payload.session, rows[k].payload.ref.run) in turns
  }

  /** Every completed event has an output row. */
  predicate EventsServed(routed: map<int, Routed>, rows: map<RowKey, Row>) {
    forall u | u in routed && routed[u].status.RoutedCompleted? :: OutputRow(u) in rows
  }

  /** Every completed task of an event has an output row, and names a run that succeeded for it. */
  predicate TasksServed(tasks: map<TaskKey, Task>, rows: map<RowKey, Row>, turns: seq<Turn>) {
    forall t | t in tasks && t.RoutedTask? && tasks[t].status.Completed? ::
      && OutputRow(t.update) in rows
      && tasks[t].run.Some? && tasks[t].sourceSession.Some?
      && Turn(t.update, tasks[t].sourceSession.value, tasks[t].run.value) in turns
  }

  predicate NoneWaits(tasks: map<TaskKey, Task>) {
    forall t | t in tasks :: !tasks[t].status.WaitingDependency?
  }

  /** A call past its turn has the turn on record, and past its output has the output row. */
  predicate CallBacked(w: SessionWorker, rows: map<RowKey, Row>, turns: seq<Turn>) {
    && (w.SessionBusy? && HasRun(w.stage) ==> Turn(w.update, w.record.session, RunOf(w.stage)) in turns)
    && (w.SessionBusy? && (w.stage.Completing? || w.stage.Closing?) ==> OutputRow(w.update) in rows)
  }

  /** A job's task settles in a state that waits for nothing. */
  predicate TaskerMoves(t: Tasker) {
    t.TaskerBusy? && t.stage.Settling? ==> !t.stage.settled.status.WaitingDependency?
  }

  predicate HasRun(s: Stage) {
    s.Emitting? || s.Completing? || s.Closing?
  }

  function RunOf(s: Stage): string
    requires HasRun(s)
  {
    s.run
  }

  predicate Served(m: Machine) {
    && OutputsBacked(m.db.rows, m.log.turns)
    && EventsServed(m.db.routed, m.db.rows)
    && TasksServed(m.db.tasks, m.db.rows, m.log.turns)
    && NoneWaits(m.db.tasks)
    && TaskerMoves(m.tasker)
    && CallBacked(m.worker, m.db.rows, m.log.turns)
  }

  lemma SameServed(m: Machine, n: Machine)
    requires Served(m) && SamePayloads(m.db.rows, n.db.rows)
    requires n.db.routed == m.db.routed && n.db.tasks == m.db.tasks && n.worker == m.worker && TaskerMoves(n.tasker)
    requires n.log.turns == m.log.turns
    ensures Served(n)
  {
  }

  lemma PayloadsSame(rows: map<RowKey, Row>)
    ensures SamePayloads(rows, rows)
  {
  }

  /** Posting a row that is no output. */
  lemma PostServed(m: Machine, k: RowKey, e: Envelope, now: int)
    requires Served(m) && !k.OutputRow?
    ensures Served(Post(m, k, e, now))
  {
    hide NoneWaits;
  }

  lemma PostOutputServed(m: Machine, u: int, session: string, run: string, now: int)
    requires Served(m) && Turn(u, session, run) in m.log.turns
    ensures var n := Post(m, OutputRow(u), OutputEnvelope(u, session, run, now), now);
      Served(n) && OutputRow(u) in n.db.rows
  {
    hide NoneWaits;
  }

  lemma PutTaskServed(m: Machine, t: TaskKey, record: Task)
    requires Served(m) && !record.status.WaitingDependency?
    requires t.RoutedTask? && record.status.Completed? ==>
      && OutputRow(t.update) in m.db.rows && record.run.Some? && record.sourceSession.Some?
      && Turn(t.update, record.sourceSession.value, record.run.value) in m.log.turns
    ensures Served(PutTask(m, t, record))
  {
    hide OutputsBacked, EventsServed, CallBacked;
  }

  lemma CallServed(m: Machine, w: SessionWorker)
    requires Served(m) && CallBacked(w, m.db.rows, m.log.turns)
    ensures Served(m.(worker := w))
  {
    hide OutputsBacked, EventsServed, CallBacked, TasksServed, NoneWaits;
  }

  lemma StepTurnServed(m: Machine, now: int)
    requires Served(m) && WorkerChosen(m.worker, m.log.choices)
    ensures Served(StepTurn(m, now))
  {
    hide Served, Post, PutTask, TurnTask, OutputEnvelope;
    if m.worker.SessionBusy? {
      NoDependencies(m.log.choices, m.worker.update, m.worker.record);
      var u, record := m.worker.update, m.worker.record;
      match m.worker.stage
      case Starting => StartingServed(m, now);
      case Thinking =>
      case Emitting(run) => EmittingServed(m, now);
      case Completing(run) => CompletingServed(m, now);
      case Closing(run) => ClosingServed(m, now);
    }
  }

  lemma NoDependencies(choices: seq<Choice>, u: int, record: Routed)
    requires IsChosen(choices, u, record)
    ensures record.dependencies == []
  {
    var i :| 0 <= i < |choices| && choices[i].update == u && Follows(record, choices[i]);
  }

  lemma StartingServed(m: Machine, now: int)
    requires Served(m) && m.worker.SessionBusy? && m.worker.stage.Starting? && m.worker.record.dependencies == []
    ensures Served(StepTurn(m, now))
  {
    hide Served;
    var u, record := m.worker.update, m.worker.record;
    var t := TurnTask(record, Running, None, now);
    PutTaskServed(m, RoutedTask(u), t);
    CallServed(PutTask(m, RoutedTask(u), t), SessionBusy(u, record, Thinking));
  }

  lemma EmittingServed(m: Machine, now: int)
    requires Served(m) && m.worker.SessionBusy? && m.worker.stage.Emitting?
    ensures Served(StepTurn(m, now))
  {
    hide OutputEnvelope, OutputsBacked, EventsServed, TasksServed, NoneWaits;
    var u, record, run := m.worker.update, m.worker.record, m.worker.stage.run;
    PostOutputServed(m, u, record.session, run, now);
    CallServed(Post(m, OutputRow(u), OutputEnvelope(u, record.session, run, now), now), SessionBusy(u, record, Completing(run)));
  }

  lemma CompletingServed(m: Machine, now: int)
    requires Served(m) && m.worker.SessionBusy? && m.worker.stage.Completing?
    ensures Served(StepTurn(m, now))
  {
    hide OutputsBacked, TasksServed, NoneWaits;
  }

  lemma ClosingServed(m: Machine, now: int)
    requires Served(m) && m.worker.SessionBusy? && m.worker.stage.Closing?
    ensures Served(StepTurn(m, now))
  {
    hide OutputsBacked, EventsServed, TasksServed, NoneWaits;
    var u, record, run := m.worker.update, m.worker.record, m.worker.stage.run;
    var t := TurnTask(record, Completed, Some(run), now);
    PutTaskServed(m, RoutedTask(u), t);
    CallServed(PutTask(m, RoutedTask(u), t), SessionIdle);
  }

  /** More turns on record leave all that is backed backed. */
  lemma MoreTurns(m: Machine, turns: seq<Turn>)
    requires Served(m) && m.log.turns <= turns
    ensures Served(m.(log := m.log.(turns := turns)))
  {
    forall t | t in m.log.turns
      ensures t in turns
    {
    }
  }

  lemma TakeTurnServed(m: Machine, run: Option<string>)
    requires Served(m)
    ensures Served(TakeTurn(m, run))
  {
    hide OutputsBacked, EventsServed, TasksServed, NoneWaits, MessageText;
    CallServed(m, SessionIdle);
    if m.worker.SessionBusy? && m.worker.stage.Thinking? && run.Some? {
      var u, record := m.worker.update, m.worker.record;
      var turns := m.log.turns + [Turn(u, record.session, run.value)];
      MoreTurns(m, turns);
      assert turns[|m.log.turns|] in turns;
      CallServed(m.(log := m.log.(turns := turns)), SessionBusy(u, record, Emitting(run.value)));
      TurnedServed(m.(log := m.log.(turns := turns), worker := SessionBusy(u, record, Emitting(run.value))),
                   m.log.turned + multiset{u}, m.log.turnLost);
    }
  }

  /** What is counted plays no part. */
  lemma TurnedServed(m: Machine, turned: multiset<int>, lost: multiset<int>)
    requires Served(m)
    ensures Served(m.(log := m.log.(turned := turned, turnLost := lost)))
  {
    hide OutputsBacked, EventsServed, TasksServed, NoneWaits, CallBacked;
  }

  lemma StopTurnServed(m: Machine)
    requires Served(m)
    ensures Served(StopTurn(m))
  {
    hide OutputsBacked, EventsServed, TasksServed, NoneWaits;
    CallServed(m, SessionIdle);
    TurnedServed(m.(worker := SessionIdle), m.log.turned, StopTurn(m).log.turnLost);
  }

  lemma BeginTurnServed(m: Machine, i: nat)
    requires Served(m)
    ensures Served(BeginTurn(m, i))
  {
    hide OutputsBacked, EventsServed, TasksServed, NoneWaits, Hears;
    CallServed(m, BeginTurn(m, i).worker);
  }

  lemma RoutedServed(m: Machine, u: int, record: Routed)
    requires Served(m) && record.status.RoutedPending?
    ensures Served(m.(db := m.db.(routed := m.db.routed[u := record])))
  {
    hide OutputsBacked, TasksServed, NoneWaits, CallBacked;
  }

  /** The marks on inbound events, the router's place and its counts play no part. */
  lemma RouterServed(m: Machine, n: Machine)
    requires Served(m)
    requires n == m.(db := m.db.(inbound := n.db.inbound, world := n.db.world, routes := n.db.routes), router := n.router,
                     log := m.log.(resets := n.log.resets, routerLost := n.log.routerLost, choices := n.log.choices))
    ensures Served(n)
  {
    hide OutputsBacked, EventsServed, TasksServed, NoneWaits, CallBacked;
  }

  lemma StepRouterServed(m: Machine, now: int)
    requires Served(m) && RouterChosen(m.router, m.log.choices)
    ensures Served(StepRouter(m, now))
  {
    hide Served, IsChosen, Post, Mark, DeadEnvelope, RoutedEnvelope;
    if m.router.RouterBusy? {
      var u := m.router.update;
      var n := StepRouter(m, now);
      match m.router.todo
      case MarkFailed =>
        MarkFrame(m, u, InboundFailed);
        RouterServed(m, n);
      case PostDead =>
        PostServed(m, DeadLetterRow(u), DeadEnvelope(u, now), now);
        RouterServed(Post(m, DeadLetterRow(u), DeadEnvelope(u, now), now), n);
      case PutRouted(record) =>
        RoutedServed(m, u, record);
        RouterServed(m.(db := m.db.(routed := m.db.routed[u := record])), n);
      case PostRouted(session) =>
        PostServed(m, RoutedRow(u), RoutedEnvelope(u, session, now), now);
        RouterServed(Post(m, RoutedRow(u), RoutedEnvelope(u, session, now), now), n);
      case MarkProcessed(_) =>
        MarkFrame(m, u, InboundProcessed);
        RouterServed(m, n);
    }
  }

  lemma TaskerServed(m: Machine, t: Tasker)
    requires Served(m) && TaskerMoves(t)
    ensures Served(m.(tasker := t))
  {
    hide OutputsBacked, EventsServed, TasksServed, NoneWaits, CallBacked, TaskerMoves;
  }

  lemma StepTaskServed(m: Machine, now: int)
    requires Served(m) && TaskerOwned(m.tasker, m.db.tasks)
    ensures Served(StepTask(m, now))
  {
    hide OutputsBacked, EventsServed, TasksServed, NoneWaits, CallBacked, Post, PutTask, ResultEnvelope;
    if m.tasker.TaskerBusy? {
      var t, record := m.tasker.task, m.tasker.record;
      match m.tasker.stage
      case Launching =>
        PutTaskServed(m, t, Launched(record, now));
        TaskerServed(PutTask(m, t, Launched(record, now)), StepTask(m, now).tasker);
      case Executing =>
      case Settling(settled, outcome) =>
        PutTaskServed(m, t, settled);
        TaskerServed(PutTask(m, t, settled), StepTask(m, now).tasker);
      case Posting(kind) =>
        PostServed(m, ResultRow(t), ResultEnvelope(t, kind, now), now);
        TaskerServed(Post(m, ResultRow(t), ResultEnvelope(t, kind, now), now), TaskerIdle);
    }
  }

  lemma RunJobServed(m: Machine, outcome: JobOutcome, now: int)
    requires Served(m)
    ensures Served(RunJob(m, outcome, now)) && Served(StopTask(m))
  {
    hide OutputsBacked, EventsServed, TasksServed, NoneWaits, CallBacked;
    TaskerServed(m, RunJob(m, outcome, now).tasker);
    TaskerServed(m, TaskerIdle);
  }

  lemma BeginTaskServed(m: Machine, i: nat)
    requires Served(m)
    ensures Served(BeginTask(m, i))
  {
    hide OutputsBacked, EventsServed, TasksServed, NoneWaits, CallBacked, Hears;
    TaskerServed(m, BeginTask(m, i).tasker);
  }

  lemma CreateTaskServed(m: Machine, token: string, source: string, owner: string, executor: string, posts: bool, now: int)
    requires Served(m)
    ensures Served(CreateTask(m, token, source, owner, executor, posts, now))
  {
    hide Served, Post, PutTask, CreatedEnvelope;
    if JobTask(token) !in m.db.tasks {
      var t := NewTask(token, source, owner, executor);
      PutTaskServed(m, JobTask(token), t);
      PostServed(PutTask(m, JobTask(token), t), CreatedRow(token), CreatedEnvelope(token, now), now);
    }
  }

  /** The requests under way play no part. */
  lemma RequestsServed(m: Machine, requests: Requests)
    requires Served(m)
    ensures Served(m.(requests := requests))
  {
    hide OutputsBacked, EventsServed, TasksServed, NoneWaits, CallBacked;
  }

  lemma ReceiveServed(m: Machine, u: int, sourceId: string, operatorId: Option<string>, payload: Json.Json)
    requires Served(m)
    ensures Served(Receive(m, u, sourceId, operatorId, payload)) && Served(Ask(m, u))
  {
    hide Served, Receive, Ask;
    var n := Receive(m, u, sourceId, operatorId, payload);
    ReceiveFrame(m, u, sourceId, operatorId, payload);
    RouterServed(m, m.(db := m.db.(inbound := n.db.inbound)));
    RequestsServed(m.(db := m.db.(inbound := n.db.inbound)), n.requests);
    AskFrame(m, u);
    RequestsServed(m, Ask(m, u).requests);
  }

  lemma PostInputServed(m: Machine, u: int, now: int)
    requires Served(m)
    ensures Served(PostInput(m, u, now))
  {
    hide Served, Post, InputEnvelope;
    if m.requests.recorded[u] > 0 {
      var requests := m.requests.(recorded := m.requests.recorded - multiset{u});
      RequestsServed(m, requests);
      PostServed(m.(requests := requests), InputRow(u), InputEnvelope(u, now), now);
    }
  }

  /** What delivery and operators change plays no part. */
  lemma SentServed(m: Machine, n: Machine)
    requires Served(m)
    requires n == m.(db := m.db.(routes := n.db.routes, followers := n.db.followers, deliveries := n.db.deliveries, world := n.db.world),
                     log := m.log.(sends := n.log.sends, notices := n.log.notices))
    ensures Served(n)
  {
    hide OutputsBacked, EventsServed, TasksServed, NoneWaits, CallBacked;
  }

  /** The output that a heard message leads to is that of a turn, and its transcript that run's. */
  lemma OutgoingBacked(m: Machine, i: nat)
    requires Shaped(m) && Served(m) && Hears(m, i, E.DELIVERY_FILTER)
    requires OutgoingOf(m.db, m.bus[i].payload.event).Ready?
    ensures var out := OutgoingOf(m.db, m.bus[i].payload.event).value;
      && out.event.OutputEvent? && Turn(out.event.update, out.session, out.runId) in m.log.turns
      && T.IsAssistantOf(out.transcript, out.session, out.runId)
  {
    hide Hears, EventsServed, TasksServed, NoneWaits, CallBacked, RowsOwned, QueueShaped, RouterOwned, WorkerOwned, TaskerOwned, T.IsAssistantOf, T.Latest, T.AssistantOf;
    HearsInBus(m, i, E.DELIVERY_FILTER);
    Heard(m, i);
    var e := m.bus[i].payload;
    var k := RowOf(e.event);
    assert k.OutputRow? && RowShape(k, m.db.rows[k].payload);
    var found := T.AssistantOf(m.db.world.transcripts, m.db.rows[k].payload.session, m.db.rows[k].payload.ref.run);
    T.LatestIsLatest(found);
  }

  lemma DeliveryServed(m: Machine, i: nat, listing: seq<string>, accepts: set<string>, budget: nat, now: int)
    requires Served(m)
    ensures Served(DeliverOutput(m, i, listing, accepts, budget, now)) && Served(DeliverResult(m, i, listing, accepts, budget, now))
  {
    hide Served, DeliverOutput, DeliverResult;
    DeliverOutputFrame(m, i, listing, accepts, budget, now);
    SentServed(m, DeliverOutput(m, i, listing, accepts, budget, now));
    DeliverResultFrame(m, i, listing, accepts, budget, now);
    SentServed(m, DeliverResult(m, i, listing, accepts, budget, now));
  }

  lemma OthersServed(m: Machine, id: string, f: Follower, world: World)
    requires Served(m)
    ensures Served(Follow(m, id, f)) && Served(m.(db := m.db.(world := world)))
  {
    hide OutputsBacked, EventsServed, TasksServed, NoneWaits, CallBacked;
    SentServed(m, Follow(m, id, f));
    SentServed(m, m.(db := m.db.(world := world)));
  }

  lemma PublisherServed(m: Machine, keys: seq<RowKey>, outcome: Publication, now: int)
    requires Served(m)
    ensures Served(Claim(m, keys, now)) && Served(Publish(m, outcome)) && Served(MarkPublication(m, now)) && Served(StopPublisher(m))
  {
    hide Served, Claim, Publish, MarkPublication, StopPublisher, SamePayloads;
    ServedMoves(m);
    ClaimPayloads(m, keys, now);
    ClaimFrame(m, keys, now);
    SameServed(m, Claim(m, keys, now));
    PayloadsSame(m.db.rows);
    PublishFrame(m, outcome);
    SameServed(m, Publish(m, outcome));
    MarkPayloads(m, now);
    MarkPublicationFrame(m, now);
    SameServed(m, MarkPublication(m, now));
    StopPublisherFrame(m);
    SameServed(m, StopPublisher(m));
  }

  lemma ServedMoves(m: Machine)
    requires Served(m)
    ensures TaskerMoves(m.tasker)
  {
  }

  lemma RoutingServed(m: Machine, i: nat, a: RouterInput)
    requires Served(m)
    ensures Served(BeginRouter(m, i, a)) && Served(FailRouter(m)) && Served(StopRouter(m))
  {
    hide Served, BeginRouter, FailRouter, StopRouter;
    BeginRouterFrame(m, i, a);
    RouterServed(m, BeginRouter(m, i, a));
    FailRouterFrame(m);
    RouterServed(m, FailRouter(m));
    RouterServed(m, StopRouter(m));
  }

  lemma StepServed(m: Machine, s: Step)
    requires Shaped(m) && IsChosenAll(m) && Served(m)
    ensures Served(Do(m, s))
  {
    hide Served, Ask, Receive, PostInput, CreateTask, Claim, Publish, MarkPublication, StopPublisher, BeginRouter, StepRouter, FailRouter, StopRouter;
    hide BeginTurn, StepTurn, TakeTurn, StopTurn, BeginTask, StepTask, RunJob, StopTask, DeliverOutput, DeliverResult, Follow;
    hide RowsShaped, RowsOwned, BusShaped, QueueShaped, RouterOwned, WorkerOwned, TaskerOwned;
    hide ChoicesStored, RoutedChosen, RouterChosen, WorkerChosen, TurnsDecided;
    match s
    case DoAsk(u) => ReceiveServed(m, u, "", None, Json.Null);
    case DoReceive(u, sourceId, operatorId, payload) => ReceiveServed(m, u, sourceId, operatorId, payload);
    case DoPostInput(u, now) => PostInputServed(m, u, now);
    case DoCreateTask(token, source, owner, executor, posts, now) => CreateTaskServed(m, token, source, owner, executor, posts, now);
    case DoClaim(keys, now) => PublisherServed(m, keys, Accepted, now);
    case DoPublish(publication) => PublisherServed(m, [], publication, 0);
    case DoMarkPublication(now) => PublisherServed(m, [], Accepted, now);
    case DoStopPublisher => PublisherServed(m, [], Accepted, 0);
    case DoBeginRouter(i, input) => RoutingServed(m, i, input);
    case DoStepRouter(now) => StepRouterServed(m, now);
    case DoFailRouter => RoutingServed(m, 0, NoInput());
    case DoStopRouter => RoutingServed(m, 0, NoInput());
    case DoBeginTurn(i) => BeginTurnServed(m, i);
    case DoStepTurn(now) => StepTurnServed(m, now);
    case DoTakeTurn(run) => TakeTurnServed(m, run);
    case DoStopTurn => StopTurnServed(m);
    case DoBeginTask(i) => BeginTaskServed(m, i);
    case DoStepTask(now) => StepTaskServed(m, now);
    case DoRunJob(outcome, now) => RunJobServed(m, outcome, now);
    case DoStopTask => RunJobServed(m, JobError(""), 0);
    case DoDeliverOutput(i, listing, accepts, budget, now) => DeliveryServed(m, i, listing, accepts, budget, now);
    case DoDeliverResult(i, listing, accepts, budget, now) => DeliveryServed(m, i, listing, accepts, budget, now);
    case DoFollow(id, follower) => OthersServed(m, id, follower, m.db.world);
    case DoChangeWorld(world) => OthersServed(m, "", Follower(RoutedTask(0), "", false, None, None, 0), world);
  }

  function NoInput(): RouterInput {
    RouterInput(Binding.Config(false, ""), [], None, None, 0, 0)
  }

  lemma {:induction false} RunServed(run: Execution)
    requires IsExecution(run)
    ensures Served(End(run))
    decreases |run.steps|
  {
    hide Do, Shaped, IsChosenAll, Served, IsExecution;
    if run.steps == [] {
      StartServed(run);
    } else {
      var before, s := LastStep(run);
      RunServed(before);
      RunShaped(before);
      RunChosen(before);
      StepServed(End(before), s);
    }
  }

  lemma StartServed(run: Execution)
    requires IsExecution(run) && run.steps == []
    ensures Served(End(run))
  {
    hide Do;
  }

  /**
    At every point of every run, also between any two writes: when an event or its task is
    marked completed, its output row is there and names a run that succeeded for that event.
    No event's task ever waits: the router writes no dependencies.
   */
  lemma CompletedHasOutput(run: Execution, u: int)
    requires IsExecution(run)
    ensures var m := End(run);
      && (u in m.db.routed && m.db.routed[u].status.RoutedCompleted? ==> OutputRow(u) in m.db.rows)
      && (RoutedTask(u) in m.db.tasks && m.db.tasks[RoutedTask(u)].status.Completed? ==> OutputRow(u) in m.db.rows)
      && (RoutedTask(u) in m.db.tasks ==> !m.db.tasks[RoutedTask(u)].status.WaitingDependency?)
      && (OutputRow(u) in m.db.rows ==>
            var e := m.db.rows[OutputRow(u)].payload;
            e.ref.RunRef? && Turn(u, e.session, e.ref.run) in m.log.turns)
  {
    hide IsExecution;
    RunServed(run);
    RunShaped(run);
    var m := End(run);
    assert OutputRow(u) in m.db.rows ==> RowShape(OutputRow(u), m.db.rows[OutputRow(u)].payload);
  }
}

/** What each step may change; everything else it leaves as it was. */
module Frames {
  import opened Text
  import opened Ids
  import opened Records
  import opened Machine
  import D = Delivery
  import F = Followers
  import B = Binding
  import O = OutputRoutes
  import R = Routing
  import Json

  /** Steps that leave the events, their counts and the calls on them alone. */
  predicate IsAside(s: Step) {
    || s.DoAsk? || s.DoPostInput? || s.DoCreateTask? || s.DoClaim? || s.DoPublish? || s.DoMarkPublication? || s.DoStopPublisher? || s.DoBeginTask?
    || s.DoStepTask? || s.DoRunJob? || s.DoStopTask? || s.DoDeliverOutput? || s.DoDeliverResult? || s.DoFollow? || s.DoChangeWorld?
  }

  /** Among them, those that publish or deliver. */
  predicate IsOutward(s: Step) {
    s.DoClaim? || s.DoPublish? || s.DoMarkPublication? || s.DoStopPublisher? || s.DoDeliverOutput? || s.DoDeliverResult?
  }

  /** The events, the calls on them, and what is recorded of them are alike. */
  predicate SameEvents(m: Machine, n: Machine) {
    && n.db.inbound == m.db.inbound && n.db.routed == m.db.routed && n.router == m.router && n.worker == m.worker
    && n.log == m.log.(posted := n.log.posted, sends := n.log.sends, notices := n.log.notices)
  }

  lemma PostFrame(m: Machine, k: RowKey, e: Envelope, now: int)
    ensures var n := Post(m, k, e, now);
      n == m.(db := m.db.(rows := m.db.rows[k := NewRow(e, now)]), log := m.log.(posted := m.log.posted + [Posted(k, e)]))
  {
  }

  lemma MarkFrame(m: Machine, u: int, status: InboundStatus)
    ensures var n := Mark(m, u, status);
      && n == m.(db := m.db.(inbound := n.db.inbound))
      && (u in m.db.inbound ==> n.db.inbound == m.db.inbound[u := m.db.inbound[u].(status := status)])
  {
  }

  lemma PutTaskFrame(m: Machine, k: TaskKey, record: Task)
    ensures PutTask(m, k, record) == m.(db := m.db.(tasks := m.db.tasks[k := record]))
  {
  }

  lemma ReceiveFrame(m: Machine, u: int, sourceId: string, operatorId: Option<string>, payload: Json.Json)
    ensures var n := Receive(m, u, sourceId, operatorId, payload);
      n == m.(db := m.db.(inbound := n.db.inbound), requests := n.requests)
  {
  }

  lemma AskFrame(m: Machine, u: int)
    ensures Ask(m, u) == m.(requests := Ask(m, u).requests)
    ensures SameEvents(m, Ask(m, u))
  {
  }

  lemma PostInputFrame(m: Machine, u: int, now: int)
    ensures var n := PostInput(m, u, now);
      n == m.(db := m.db.(rows := n.db.rows), requests := n.requests, log := m.log.(posted := n.log.posted))
    ensures SameEvents(m, PostInput(m, u, now))
  {
    hide InputEnvelope;
  }

  lemma CreateTaskFrame(m: Machine, token: string, source: string, owner: string, executor: string, posts: bool, now: int)
    ensures var n := CreateTask(m, token, source, owner, executor, posts, now);
      n == m.(db := m.db.(tasks := n.db.tasks, rows := n.db.rows), log := m.log.(posted := n.log.posted))
    ensures SameEvents(m, CreateTask(m, token, source, owner, executor, posts, now))
  {
    hide CreatedEnvelope, NewTask;
  }

  lemma ClaimFrame(m: Machine, keys: seq<RowKey>, now: int)
    ensures var n := Claim(m, keys, now);
      n == m.(db := m.db.(rows := n.db.rows), publisher := n.publisher)
    ensures SameEvents(m, Claim(m, keys, now))
  {
    hide IsClaim, ClaimRows;
  }

  lemma PublishFrame(m: Machine, outcome: Publication)
    ensures var n := Publish(m, outcome);
      n == m.(bus := n.bus, publisher := n.publisher)
    ensures SameEvents(m, Publish(m, outcome))
  {
  }

  lemma MarkPublicationFrame(m: Machine, now: int)
    ensures var n := MarkPublication(m, now);
      n == m.(db := m.db.(rows := n.db.rows), publisher := n.publisher)
    ensures SameEvents(m, MarkPublication(m, now))
  {
    hide MarkedRow;
  }

  lemma WithTablesFrame(m: Machine, world: World, routes: map<string, Route>, router: Router)
    ensures var n := WithTables(m, world, routes, router);
      n == m.(db := m.db.(world := world, routes := routes), router := router)
  {
  }

  lemma JoinRoutesFrame(m: Machine, u: int, inbound: Inbound, rule: Rule, d: R.Decision, t: B.Tables, now: int)
    ensures LeadsIn(m, JoinRoutes(m, u, inbound, rule, d, t, now), u)
  {
    hide WithTables, O.Materialize, RoutedRecord;
    var p := O.Materialize(t.world, t.routes, d, now, t.budget);
    WithTablesFrame(m, t.world, p.routes, RouterBusy(u, PutRouted(RoutedRecord(rule, d, inbound, now))));
    WithTablesFrame(m, t.world, p.routes, RouterBusy(u, MarkFailed));
  }

  /** The start of a router call: it ends before the call's first write to the events. */
  predicate LeadsIn(m: Machine, n: Machine, u: int) {
    && n == m.(db := m.db.(world := n.db.world, routes := n.db.routes), router := n.router, log := m.log.(choices := n.log.choices))
    && (n.router == m.router || (n.router.RouterBusy? && n.router.update == u && !IsRouting(n.router.todo)))
  }

  lemma RouteEventFrame(m: Machine, u: int, inbound: Inbound, a: RouterInput)
    ensures LeadsIn(m, RouteEvent(m, u, inbound, a), u)
  {
    hide Bound, WithTables, JoinRoutes, R.IsRuleListing, R.ResolveRoute;
    var t := Bound(m, inbound, a);
    WithTablesFrame(m, t.world, t.routes, m.router);
    WithTablesFrame(m, t.world, t.routes, RouterBusy(u, PostDead));
    WithTablesFrame(m, t.world, t.routes, RouterBusy(u, MarkFailed));
    match R.ResolveRoute(inbound, a.listing)
    case Matched(rule, d) => JoinRoutesFrame(m, u, inbound, rule, d, t, a.now);
    case _ =>
  }

  lemma BeginRouterFrame(m: Machine, i: nat, a: RouterInput)
    ensures var n := BeginRouter(m, i, a);
      && n == m.(db := m.db.(world := n.db.world, routes := n.db.routes), router := n.router, log := m.log.(choices := n.log.choices))
      && (n.router == m.router || (
            && m.router.RouterIdle? && n.router.RouterBusy? && !IsRouting(n.router.todo) && n.router.update in m.db.inbound
            && !m.db.inbound[n.router.update].status.InboundProcessed?))
  {
    hide RouteEvent, Hears, IsControlCommand;
    if m.router.RouterIdle? && Hears(m, i, EventBus.ROUTER_FILTER) {
      HearsInBus(m, i, EventBus.ROUTER_FILTER);
      var e := m.bus[i].payload;
      if e.kind.MessageReceived? && e.ref.InboundRef? && e.ref.update in m.db.inbound {
        RouteEventFrame(m, e.ref.update, m.db.inbound[e.ref.update], a);
      }
    }
  }

  lemma HearsInBus(m: Machine, i: nat, filter: string)
    requires Hears(m, i, filter)
    ensures i < |m.bus|
  {
  }

  function NextTodo(u: int, todo: RouterTodo): Router {
    match todo
    case MarkFailed => RouterIdle
    case PostDead => RouterBusy(u, MarkFailed)
    case PutRouted(record) => RouterBusy(u, PostRouted(record.session))
    case PostRouted(_) => RouterBusy(u, MarkProcessed(true))
    case MarkProcessed(_) => RouterIdle
  }

  /** Only the write of the routed event opens one, and only the last write marks the inbound event. */
  lemma StepRouterFrame(m: Machine, now: int)
    ensures var n := StepRouter(m, now);
      n == m.(db := m.db.(inbound := n.db.inbound, routed := n.db.routed, rows := n.db.rows), router := n.router,
              log := m.log.(posted := n.log.posted, resets := n.log.resets))
    ensures var n := StepRouter(m, now);
      var opens := m.router.RouterBusy? && m.router.todo.PutRouted?;
      && n.db.routed == (if opens then m.db.routed[m.router.update := m.router.todo.record] else m.db.routed)
      && n.log.resets == (if opens then m.log.resets + multiset{m.router.update} else m.log.resets)
    ensures var n := StepRouter(m, now);
      var marks := m.router.RouterBusy? && (m.router.todo.MarkFailed? || m.router.todo.MarkProcessed?);
      var status := if m.router.RouterBusy? && m.router.todo.MarkFailed? then InboundFailed else InboundProcessed;
      n.db.inbound == (if marks then Mark(m, m.router.update, status).db.inbound else m.db.inbound)
    ensures if m.router.RouterBusy? then StepRouter(m, now).router == NextTodo(m.router.update, m.router.todo)
            else StepRouter(m, now) == m
  {
    hide Post, Mark, DeadEnvelope, RoutedEnvelope;
    if m.router.RouterBusy? {
      var u := m.router.update;
      match m.router.todo
      case MarkFailed => MarkFrame(m, u, InboundFailed);
      case PostDead => PostFrame(m, DeadLetterRow(u), DeadEnvelope(u, now), now);
      case PutRouted(_) =>
      case PostRouted(session) => PostFrame(m, RoutedRow(u), RoutedEnvelope(u, session, now), now);
      case MarkProcessed(_) => MarkFrame(m, u, InboundProcessed);
    }
  }

  lemma StepRouterParts(m: Machine, now: int)
    ensures var n := StepRouter(m, now);
      n == m.(db := m.db.(inbound := n.db.inbound, routed := n.db.routed, rows := n.db.rows), router := n.router,
              log := m.log.(posted := n.log.posted, resets := n.log.resets))
  {
    hide StepRouter;
    StepRouterFrame(m, now);
  }

  lemma FailRouterFrame(m: Machine)
    ensures FailRouter(m) == m.(router := FailRouter(m).router, log := m.log.(routerLost := FailRouter(m).log.routerLost))
    ensures StopRouter(m) == m.(router := RouterIdle, log := m.log.(routerLost := StopRouter(m).log.routerLost))
    ensures m.log.routerLost <= FailRouter(m).log.routerLost && m.log.routerLost <= StopRouter(m).log.routerLost
  {
  }

  lemma BeginTurnFrame(m: Machine, i: nat)
    ensures BeginTurn(m, i) == m.(worker := BeginTurn(m, i).worker)
  {
    hide Hears;
  }

  lemma StepTurnFrame(m: Machine, now: int)
    ensures var n := StepTurn(m, now);
      n == m.(db := m.db.(rows := n.db.rows, routed := n.db.routed, tasks := n.db.tasks), worker := n.worker,
              log := m.log.(posted := n.log.posted, committed := n.log.committed))
    ensures var n := StepTurn(m, now);
      if m.worker.SessionBusy? && m.worker.stage.Completing? then
        var record := m.worker.record.(status := RoutedCompleted, publishedAt := Some(now));
        && n.db.routed == m.db.routed[m.worker.update := record] && n.log.committed == m.log.committed + multiset{m.worker.update}
        && n.worker == SessionBusy(m.worker.update, m.worker.record, Closing(m.worker.stage.run))
      else
        n.db.routed == m.db.routed && n.log.committed == m.log.committed
  {
    hide Post, PutTask, OutputEnvelope, TurnTask;
    if m.worker.SessionBusy? {
      var u, record := m.worker.update, m.worker.record;
      match m.worker.stage
      case Starting =>
        PutTaskFrame(m, RoutedTask(u), TurnTask(record, WaitingDependency, None, now));
        PutTaskFrame(m, RoutedTask(u), TurnTask(record, Running, None, now));
      case Thinking =>
      case Emitting(run) => PostFrame(m, OutputRow(u), OutputEnvelope(u, record.session, run, now), now);
      case Completing(_) =>
      case Closing(run) => PutTaskFrame(m, RoutedTask(u), TurnTask(record, Completed, Some(run), now));
    }
  }

  lemma StepTurnParts(m: Machine, now: int)
    ensures var n := StepTurn(m, now);
      n == m.(db := m.db.(rows := n.db.rows, routed := n.db.routed, tasks := n.db.tasks), worker := n.worker,
              log := m.log.(posted := n.log.posted, committed := n.log.committed))
  {
    hide StepTurn;
    StepTurnFrame(m, now);
  }

  lemma TakeTurnFrame(m: Machine, run: Option<string>)
    ensures var n := TakeTurn(m, run);
      n == m.(worker := n.worker, log := m.log.(turns := n.log.turns, turned := n.log.turned))
    ensures StopTurn(m) == m.(worker := SessionIdle, log := m.log.(turnLost := StopTurn(m).log.turnLost))
  {
    hide MessageText;
  }

  lemma BeginTaskFrame(m: Machine, i: nat)
    ensures BeginTask(m, i) == m.(tasker := BeginTask(m, i).tasker)
    ensures SameEvents(m, BeginTask(m, i))
  {
    hide Hears;
  }

  lemma StepTaskFrame(m: Machine, now: int)
    ensures var n := StepTask(m, now);
      n == m.(db := m.db.(tasks := n.db.tasks, rows := n.db.rows), tasker := n.tasker, log := m.log.(posted := n.log.posted))
    ensures SameEvents(m, StepTask(m, now))
  {
    hide Post, PutTask, ResultEnvelope, Launched;
    if m.tasker.TaskerBusy? {
      var t, record := m.tasker.task, m.tasker.record;
      match m.tasker.stage
      case Launching => PutTaskFrame(m, t, Launched(record, now));
      case Executing =>
      case Settling(settled, _) => PutTaskFrame(m, t, settled);
      case Posting(kind) => PostFrame(m, ResultRow(t), ResultEnvelope(t, kind, now), now);
    }
  }

  lemma RunJobFrame(m: Machine, outcome: JobOutcome, now: int)
    ensures RunJob(m, outcome, now) == m.(tasker := RunJob(m, outcome, now).tasker)
    ensures StopTask(m) == m.(tasker := TaskerIdle)
    ensures SameEvents(m, RunJob(m, outcome, now)) && SameEvents(m, StopTask(m))
  {
    hide SettledTask;
  }

  lemma DeliverOutputFrame(m: Machine, i: nat, listing: seq<string>, accepts: set<string>, budget: nat, now: int)
    ensures var n := DeliverOutput(m, i, listing, accepts, budget, now);
      n == m.(db := m.db.(routes := n.db.routes, deliveries := n.db.deliveries), log := m.log.(sends := n.log.sends))
    ensures SameEvents(m, DeliverOutput(m, i, listing, accepts, budget, now))
  {
    hide Hears, OutgoingOf, D.DeliverToFirst, D.IsListing;
  }

  lemma DeliverResultFrame(m: Machine, i: nat, listing: seq<string>, accepts: set<string>, budget: nat, now: int)
    ensures var n := DeliverResult(m, i, listing, accepts, budget, now);
      n == m.(db := m.db.(followers := n.db.followers, deliveries := n.db.deliveries), log := m.log.(notices := n.log.notices))
    ensures SameEvents(m, DeliverResult(m, i, listing, accepts, budget, now))
  {
    hide Hears, ResultOf, IsResultKind, F.RelayToFirst, F.IsFollowerListing, RowOf;
  }

  lemma StopPublisherFrame(m: Machine)
    ensures StopPublisher(m) == m.(publisher := PublisherIdle)
    ensures SameEvents(m, StopPublisher(m))
  {
  }

  lemma FollowFrame(m: Machine, id: string, f: Follower, world: World)
    ensures Follow(m, id, f) == m.(db := m.db.(followers := Follow(m, id, f).db.followers))
    ensures SameEvents(m, Follow(m, id, f)) && SameEvents(m, m.(db := m.db.(world := world)))
  {
  }

  lemma AsideFrameOutward(m: Machine, s: Step)
    requires IsOutward(s)
    ensures SameEvents(m, Do(m, s))
  {
    hide SameEvents, StopPublisher, CreateTask, Claim, Publish, MarkPublication, BeginTask, StepTask, RunJob, StopTask, DeliverOutput, DeliverResult;
    hide Ask, Receive, PostInput, BeginRouter, StepRouter, FailRouter, StopRouter, BeginTurn, StepTurn, TakeTurn, StopTurn, Follow;
    match s
    case DoClaim(keys, now) => ClaimFrame(m, keys, now);
    case DoPublish(publication) => PublishFrame(m, publication);
    case DoMarkPublication(now) => MarkPublicationFrame(m, now);
    case DoStopPublisher => StopPublisherFrame(m);
    case DoDeliverOutput(i, listing, accepts, budget, now) => DeliverOutputFrame(m, i, listing, accepts, budget, now);
    case DoDeliverResult(i, listing, accepts, budget, now) => DeliverResultFrame(m, i, listing, accepts, budget, now);
  }

  lemma AsideFrameInward(m: Machine, s: Step)
    requires IsAside(s) && !IsOutward(s)
    ensures SameEvents(m, Do(m, s))
  {
    hide SameEvents, StopPublisher, CreateTask, Claim, Publish, MarkPublication, BeginTask, StepTask, RunJob, StopTask, DeliverOutput, DeliverResult;
    hide Ask, Receive, PostInput, BeginRouter, StepRouter, FailRouter, StopRouter, BeginTurn, StepTurn, TakeTurn, StopTurn, Follow;
    match s
    case DoAsk(u) => AskFrame(m, u);
    case DoPostInput(u, now) => PostInputFrame(m, u, now);
    case DoCreateTask(token, source, owner, executor, posts, now) => CreateTaskFrame(m, token, source, owner, executor, posts, now);
    case DoBeginTask(i) => BeginTaskFrame(m, i);
    case DoStepTask(now) => StepTaskFrame(m, now);
    case DoRunJob(outcome, now) => RunJobFrame(m, outcome, now);
    case DoStopTask => RunJobFrame(m, JobError(""), 0);
    case DoFollow(id, f) => FollowFrame(m, id, f, m.db.world);
    case DoChangeWorld(world) => FollowFrame(m, "", Follower(RoutedTask(0), "", false, None, None, 0), world);
  }

  /** Such a step may touch rows and tasks, routes and followers, and what is sent. */
  lemma AsideFrame(m: Machine, s: Step)
    requires IsAside(s)
    ensures SameEvents(m, Do(m, s))
  {
    hide SameEvents, RoutesKept, FollowersKept, Do;
    if IsOutward(s) {
      AsideFrameOutward(m, s);
    } else {
      AsideFrameInward(m, s);
    }
  }

  /** The routes and the sends on them are alike. */
  predicate RoutesKept(m: Machine, n: Machine) {
    n.db.routes == m.db.routes && n.log.sends == m.log.sends
  }

  /** The followers and the notices to them are alike. */
  predicate FollowersKept(m: Machine, n: Machine) {
    n.db.followers == m.db.followers && n.log.notices == m.log.notices
  }

  predicate IsEventStep(s: Step) {
    || s.DoReceive? || s.DoBeginRouter? || s.DoStepRouter? || s.DoFailRouter? || s.DoStopRouter?
    || s.DoBeginTurn? || s.DoStepTurn? || s.DoTakeTurn? || s.DoStopTurn?
  }

  lemma EventKept(m: Machine, s: Step)
    requires IsEventStep(s)
    ensures FollowersKept(m, Do(m, s)) && (!s.DoBeginRouter? ==> RoutesKept(m, Do(m, s)))
  {
    hide Ask, Receive, PostInput, CreateTask, Claim, Publish, MarkPublication, StopPublisher, BeginRouter, StepRouter, FailRouter, StopRouter;
    hide BeginTurn, StepTurn, TakeTurn, StopTurn, BeginTask, StepTask, RunJob, StopTask, DeliverOutput, DeliverResult, Follow;
    match s
    case DoReceive(u, sourceId, operatorId, payload) => ReceiveFrame(m, u, sourceId, operatorId, payload);
    case DoBeginRouter(i, input) => BeginRouterFrame(m, i, input);
    case DoStepRouter(now) => StepRouterParts(m, now);
    case DoFailRouter => FailRouterFrame(m);
    case DoStopRouter => FailRouterFrame(m);
    case DoBeginTurn(i) => BeginTurnFrame(m, i);
    case DoStepTurn(now) => StepTurnParts(m, now);
    case DoTakeTurn(run) => TakeTurnFrame(m, run);
    case DoStopTurn => TakeTurnFrame(m, None);
  }

  lemma AsideKeptOutward(m: Machine, s: Step)
    requires IsOutward(s)
    ensures !s.DoDeliverOutput? ==> RoutesKept(m, Do(m, s))
    ensures !s.DoDeliverResult? && !s.DoFollow? ==> FollowersKept(m, Do(m, s))
  {
    hide SameEvents, StopPublisher, CreateTask, Claim, Publish, MarkPublication, BeginTask, StepTask, RunJob, StopTask, DeliverOutput, DeliverResult;
    hide Ask, Receive, PostInput, BeginRouter, StepRouter, FailRouter, StopRouter, BeginTurn, StepTurn, TakeTurn, StopTurn, Follow;
    match s
    case DoClaim(keys, now) => ClaimFrame(m, keys, now);
    case DoPublish(publication) => PublishFrame(m, publication);
    case DoMarkPublication(now) => MarkPublicationFrame(m, now);
    case DoStopPublisher => StopPublisherFrame(m);
    case DoDeliverOutput(i, listing, accepts, budget, now) => DeliverOutputFrame(m, i, listing, accepts, budget, now);
    case DoDeliverResult(i, listing, accepts, budget, now) => DeliverResultFrame(m, i, listing, accepts, budget, now);
  }

  lemma AsideKeptInward(m: Machine, s: Step)
    requires IsAside(s) && !IsOutward(s)
    ensures !s.DoDeliverOutput? ==> RoutesKept(m, Do(m, s))
    ensures !s.DoDeliverResult? && !s.DoFollow? ==> FollowersKept(m, Do(m, s))
  {
    hide SameEvents, StopPublisher, CreateTask, Claim, Publish, MarkPublication, BeginTask, StepTask, RunJob, StopTask, DeliverOutput, DeliverResult;
    hide Ask, Receive, PostInput, BeginRouter, StepRouter, FailRouter, StopRouter, BeginTurn, StepTurn, TakeTurn, StopTurn, Follow;
    match s
    case DoAsk(u) => AskFrame(m, u);
    case DoPostInput(u, now) => PostInputFrame(m, u, now);
    case DoCreateTask(token, source, owner, executor, posts, now) => CreateTaskFrame(m, token, source, owner, executor, posts, now);
    case DoBeginTask(i) => BeginTaskFrame(m, i);
    case DoStepTask(now) => StepTaskFrame(m, now);
    case DoRunJob(outcome, now) => RunJobFrame(m, outcome, now);
    case DoStopTask => RunJobFrame(m, JobError(""), 0);
    case DoFollow(id, f) => FollowFrame(m, id, f, m.db.world);
    case DoChangeWorld(_) =>
  }

  lemma AsideKept(m: Machine, s: Step)
    requires IsAside(s)
    ensures !s.DoDeliverOutput? ==> RoutesKept(m, Do(m, s))
    ensures !s.DoDeliverResult? && !s.DoFollow? ==> FollowersKept(m, Do(m, s))
  {
    hide SameEvents, RoutesKept, FollowersKept, Do;
    if IsOutward(s) {
      AsideKeptOutward(m, s);
    } else {
      AsideKeptInward(m, s);
    }
  }

  /** Only the start of a router call and a delivery touch the routes; only a delivery and an operator the followers. */
  lemma DeliveryPartsKept(m: Machine, s: Step)
    ensures !s.DoBeginRouter? && !s.DoDeliverOutput? ==> RoutesKept(m, Do(m, s))
    ensures !s.DoDeliverResult? && !s.DoFollow? ==> FollowersKept(m, Do(m, s))
  {
    hide RoutesKept, FollowersKept, Do;
    if IsEventStep(s) {
      EventKept(m, s);
    } else {
      AsideKept(m, s);
    }
  }
}

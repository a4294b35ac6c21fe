/** No watermark falls, and no transcript goes out twice on a route but for a call cut short. */
module Watermarks {
  import opened Records
  import opened OutputRoutes
  import opened Machine
  import opened Frames
  import B = Binding
  import D = Delivery
  import R = Routing
  import E = EventBus

  predicate Ordered(m: Machine) {
    D.SendsInOrder(m.db.routes, m.log.sends) && WatermarksWhole(m.db.routes)
  }

  /** The routes only advance and the sends stay in order. */
  predicate Advances(m: Machine, n: Machine) {
    RoutesAdvance(m.db.routes, n.db.routes) && Ordered(n)
  }

  lemma SameRoutes(m: Machine, n: Machine)
    requires Ordered(m) && n.db.routes == m.db.routes && n.log.sends == m.log.sends
    ensures Advances(m, n)
  {
    hide D.SendsInOrder, WatermarksWhole;
    NoAdvance(m.db.routes);
  }

  lemma FreshRoutesAdvance(before: map<string, Route>, after: map<string, Route>)
    requires B.AddsFreshRoutes(before, after)
    ensures RoutesAdvance(before, after) && (WatermarksWhole(before) ==> WatermarksWhole(after))
  {
  }

  lemma BoundAdvances(m: Machine, inbound: Inbound, a: RouterInput)
    ensures var t := Bound(m, inbound, a);
      RoutesAdvance(m.db.routes, t.routes) && (WatermarksWhole(m.db.routes) ==> WatermarksWhole(t.routes))
  {
    hide B.Bind, B.AddsFreshRoutes, RoutesAdvance, WatermarksWhole;
    NoAdvance(m.db.routes);
    var t := B.Tables(m.db.world, m.db.routes, a.budget, B.Unbound);
    B.BindAdvances(a.config, t, inbound.payload, a.created, inbound.sourceId, a.now);
    if inbound.sourceKind == "telegram" {
      FreshRoutesAdvance(m.db.routes, Bound(m, inbound, a).routes);
    }
  }

  lemma JoinRoutesAdvances(m: Machine, u: int, inbound: Inbound, rule: Rule, d: R.Decision, t: B.Tables, now: int)
    ensures var n := JoinRoutes(m, u, inbound, rule, d, t, now);
      && RoutesAdvance(t.routes, n.db.routes) && (WatermarksWhole(t.routes) ==> WatermarksWhole(n.db.routes))
      && n.log.sends == m.log.sends
  {
    hide Materialize, RoutesAdvance, WatermarksWhole, RoutedRecord;
    MaterializeAdvances(t.world, t.routes, d, now, t.budget);
  }

  lemma RouteEventAdvances(m: Machine, u: int, inbound: Inbound, a: RouterInput)
    ensures var n := RouteEvent(m, u, inbound, a);
      && RoutesAdvance(m.db.routes, n.db.routes) && (WatermarksWhole(m.db.routes) ==> WatermarksWhole(n.db.routes))
      && n.log.sends == m.log.sends
  {
    hide Bound, JoinRoutes, WithTables, RoutesAdvance, WatermarksWhole, R.IsRuleListing, R.ResolveRoute;
    NoAdvance(m.db.routes);
    var t := Bound(m, inbound, a);
    WithTablesFrame(m, t.world, t.routes, m.router);
    WithTablesFrame(m, t.world, t.routes, RouterBusy(u, PostDead));
    WithTablesFrame(m, t.world, t.routes, RouterBusy(u, MarkFailed));
    BoundAdvances(m, inbound, a);
    match R.ResolveRoute(inbound, a.listing)
    case Matched(rule, d) =>
      JoinRoutesAdvances(m, u, inbound, rule, d, t, a.now);
      AdvanceTransitive(m.db.routes, t.routes, JoinRoutes(m, u, inbound, rule, d, t, a.now).db.routes);
    case _ =>
  }

  lemma BeginRouterAdvances(m: Machine, i: nat, a: RouterInput)
    requires Ordered(m)
    ensures Advances(m, BeginRouter(m, i, a))
  {
    hide RouteEvent, Hears, IsControlCommand, RoutesAdvance, WatermarksWhole, D.SendsInOrder;
    SameRoutes(m, m);
    if m.router.RouterIdle? && Hears(m, i, E.ROUTER_FILTER) {
      HearsInBus(m, i, E.ROUTER_FILTER);
      var e := m.bus[i].payload;
      if e.kind.MessageReceived? && e.ref.InboundRef? && e.ref.update in m.db.inbound {
        var n := RouteEvent(m, e.ref.update, m.db.inbound[e.ref.update], a);
        RouteEventAdvances(m, e.ref.update, m.db.inbound[e.ref.update], a);
        D.SendsStayInOrder(m.db.routes, n.db.routes, m.log.sends);
      }
    }
  }

  lemma DeliverOutputAdvances(m: Machine, i: nat, listing: seq<string>, accepts: set<string>, budget: nat, now: int)
    requires Ordered(m)
    ensures Advances(m, DeliverOutput(m, i, listing, accepts, budget, now))
  {
    hide Hears, OutgoingOf, D.DeliverToFirst, RoutesAdvance, WatermarksWhole, D.SendsInOrder;
    SameRoutes(m, m);
    HearsLength(m, i, E.DELIVERY_FILTER);
    if Hears(m, i, E.DELIVERY_FILTER) && OutgoingOf(m.db, m.bus[i].payload.event).Ready? {
      var out := OutgoingOf(m.db, m.bus[i].payload.event).value;
      if D.IsListing(m.db.routes, out.session, listing) {
        D.CallKeeps(m.db.world.targets, out, D.Dispatch(m.db.routes, m.db.deliveries, m.log.sends, budget, 0, 0, 0, false),
                    m.db.routes, listing, |listing|, accepts, now);
      }
    }
  }

  lemma HearsLength(m: Machine, i: nat, filter: string)
    ensures Hears(m, i, filter) ==> i < |m.bus|
  {
  }

  lemma StepAdvances(m: Machine, s: Step)
    requires Ordered(m)
    ensures Advances(m, Do(m, s))
  {
    hide Ordered, Advances, Ask, Receive, PostInput, CreateTask, Claim, Publish, MarkPublication, StopPublisher, BeginRouter, StepRouter, FailRouter, StopRouter;
    hide BeginTurn, StepTurn, TakeTurn, StopTurn, BeginTask, StepTask, RunJob, StopTask, DeliverOutput, DeliverResult, Follow;
    if s.DoBeginRouter? {
      BeginRouterAdvances(m, s.i, s.input);
    } else if s.DoDeliverOutput? {
      DeliverOutputAdvances(m, s.i, s.listing, s.accepts, s.budget, s.now);
    } else {
      DeliveryPartsKept(m, s);
      SameRoutes(m, Do(m, s));
    }
  }

  lemma {:induction false} RunOrdered(run: Execution)
    requires IsExecution(run)
    ensures Ordered(End(run))
    decreases |run.steps|
  {
    hide Do, Ordered, IsExecution;
    if run.steps == [] {
      StartOrdered(run);
    } else {
      var before, s := LastStep(run);
      RunOrdered(before);
      StepAdvances(End(before), s);
      AdvancesOrdered(End(before), Do(End(before), s));
    }
  }

  lemma AdvancesOrdered(m: Machine, n: Machine)
    requires Advances(m, n)
    ensures Ordered(n) && RoutesAdvance(m.db.routes, n.db.routes)
  {
  }

  lemma StartOrdered(run: Execution)
    requires IsExecution(run) && run.steps == []
    ensures Ordered(End(run))
  {
    hide Do;
  }

  /** Over every run, a route stays and its watermark never falls. */
  lemma {:induction false} WatermarksRise(run: Execution, n: nat)
    requires IsExecution(run) && n <= |run.steps|
    ensures RoutesAdvance(run.states[n].db.routes, End(run).db.routes)
    decreases |run.steps|
  {
    hide Do, Ordered, RoutesAdvance, Advances;
    if n == |run.steps| {
      NoAdvance(End(run).db.routes);
    } else {
      var before, s := LastStep(run);
      WatermarksRise(before, n);
      RunOrdered(before);
      StepAdvances(End(before), s);
      AdvancesOrdered(End(before), End(run));
      AdvanceTransitive(run.states[n].db.routes, End(before).db.routes, End(run).db.routes);
    }
  }

  predicate IsOf(s: D.Send, route: string, t: Transcript) {
    s.routeId == route && s.out.transcript == t
  }

  /** The number of sends of a transcript on a route, and of those whose watermark was not raised. */
  function SendsOf(sends: seq<D.Send>, route: string, t: Transcript): nat {
    if sends == [] then 0
    else SendsOf(sends[..|sends| - 1], route, t) + if IsOf(sends[|sends| - 1], route, t) then 1 else 0
  }

  function LostOf(sends: seq<D.Send>, route: string, t: Transcript): nat {
    if sends == [] then 0
    else LostOf(sends[..|sends| - 1], route, t)
         + if IsOf(sends[|sends| - 1], route, t) && !sends[|sends| - 1].committed then 1 else 0
  }

  predicate IsCommittedOn(sends: seq<D.Send>, route: string, t: Transcript) {
    exists i | 0 <= i < |sends| :: IsOf(sends[i], route, t) && sends[i].committed
  }

  /** Of the sends of one transcript on one route, at most the last is committed. */
  lemma {:induction false} OneCommitted(routes: map<string, Route>, sends: seq<D.Send>, route: string, t: Transcript)
    requires D.SendsInOrder(routes, sends)
    ensures SendsOf(sends, route, t) == LostOf(sends, route, t) + if IsCommittedOn(sends, route, t) then 1 else 0
  {
    if sends != [] {
      var last := sends[|sends| - 1];
      var before := sends[..|sends| - 1];
      forall i | 0 <= i < |before|
        ensures before[i] == sends[i]
      {
      }
      OneCommitted(routes, before, route, t);
      if IsCommittedOn(before, route, t) {
        var i :| 0 <= i < |before| && IsOf(before[i], route, t) && before[i].committed;
        assert sends[i] == before[i];
        assert IsCommittedOn(sends, route, t);
        assert !IsOf(last, route, t);
      } else if IsCommittedOn(sends, route, t) {
        var i :| 0 <= i < |sends| && IsOf(sends[i], route, t) && sends[i].committed;
        assert i == |before|;
      }
    }
  }

  /**
    Over every run, with any redelivery and any crash or failed write: one transcript is sent on
    one route at most once, plus once for every send whose watermark was then not raised.
   */
  lemma SendsBounded(run: Execution, route: string, t: Transcript)
    requires IsExecution(run)
    ensures SendsOf(End(run).log.sends, route, t) <= 1 + LostOf(End(run).log.sends, route, t)
  {
    hide IsExecution, D.SendsInOrder, WatermarksWhole;
    RunOrdered(run);
    OneCommitted(End(run).db.routes, End(run).log.sends, route, t);
  }

  /** No delivery call of the run is cut short: each has the two writes for every route it lists. */
  predicate DeliversWhole(s: Step) {
    s.DoDeliverOutput? ==> s.budget >= 2 * |s.listing|
  }

  predicate AllCommitted(sends: seq<D.Send>) {
    forall i | 0 <= i < |sends| :: sends[i].committed
  }

  lemma DeliverOutputCommits(m: Machine, i: nat, listing: seq<string>, accepts: set<string>, budget: nat, now: int)
    requires AllCommitted(m.log.sends) && budget >= 2 * |listing|
    ensures AllCommitted(DeliverOutput(m, i, listing, accepts, budget, now).log.sends)
  {
    hide Hears, OutgoingOf, D.DeliverToFirst, D.IsSendOn;
    HearsLength(m, i, E.DELIVERY_FILTER);
    if Hears(m, i, E.DELIVERY_FILTER) && OutgoingOf(m.db, m.bus[i].payload.event).Ready? {
      var out := OutgoingOf(m.db, m.bus[i].payload.event).value;
      if D.IsListing(m.db.routes, out.session, listing) {
        var d := D.Dispatch(m.db.routes, m.db.deliveries, m.log.sends, budget, 0, 0, 0, false);
        var e := D.DeliverToFirst(m.db.world.targets, out, d, m.db.routes, listing, |listing|, accepts, now);
        D.CallSteps(m.db.world.targets, out, d, m.db.routes, listing, |listing|, accepts, now);
        D.CallCounts(m.db.world.targets, out, d, m.db.routes, listing, |listing|, accepts, now);
        forall k | 0 <= k < |e.sends|
          ensures e.sends[k].committed
        {
          if k < |m.log.sends| {
            assert e.sends[k] == e.sends[..|m.log.sends|][k];
          }
        }
      }
    }
  }

  lemma {:induction false} RunCommits(run: Execution)
    requires IsExecution(run) && forall s | s in run.steps :: DeliversWhole(s)
    ensures AllCommitted(End(run).log.sends)
    decreases |run.steps|
  {
    hide Do;
    if run.steps != [] {
      var before, s := LastStep(run);
      hide IsExecution;
      RunCommits(before);
      assert DeliversWhole(s);
      StepCommits(End(before), s);
    }
  }

  lemma StepCommits(m: Machine, s: Step)
    requires AllCommitted(m.log.sends) && DeliversWhole(s)
    ensures AllCommitted(Do(m, s).log.sends)
  {
    hide AllCommitted, Ask, Receive, PostInput, CreateTask, Claim, Publish, MarkPublication, StopPublisher, BeginRouter, StepRouter, FailRouter, StopRouter;
    hide BeginTurn, StepTurn, TakeTurn, StopTurn, BeginTask, StepTask, RunJob, StopTask, DeliverOutput, DeliverResult, Follow;
    if s.DoDeliverOutput? {
      DeliverOutputCommits(m, s.i, s.listing, s.accepts, s.budget, s.now);
    } else if s.DoBeginRouter? {
      BeginRouterFrame(m, s.i, s.input);
    } else {
      DeliveryPartsKept(m, s);
    }
  }

  /** When no delivery call is cut short, the transcripts sent on a route have strictly rising creation times. */
  lemma SendsRise(run: Execution, i: nat, j: nat)
    requires IsExecution(run) && forall s | s in run.steps :: DeliversWhole(s)
    requires i < j < |End(run).log.sends| && End(run).log.sends[i].routeId == End(run).log.sends[j].routeId
    ensures End(run).log.sends[i].out.transcript.createdAt < End(run).log.sends[j].out.transcript.createdAt
  {
    hide IsExecution, WatermarksWhole;
    RunCommits(run);
    RunOrdered(run);
  }
}

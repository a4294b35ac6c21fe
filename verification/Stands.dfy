/** Where a watermark stands: at the last transcript that was recorded as sent, or where its route began. */
module Stands {
  import opened Text
  import opened Records
  import opened OutputRoutes
  import opened Machine
  import opened Frames
  import B = Binding
  import D = Delivery
  import R = Routing
  import E = EventBus
  import T = Transcripts
  import Json

  predicate AreMarked(routes: map<string, Route>) {
    forall id | id in routes :: routes[id].deliveredAt.Some? && routes[id].deliveredId.Some?
  }

  predicate IsMark(r: Route, at: int, id: string) {
    r.deliveredAt == Some(at) && r.deliveredId == Some(id)
  }

  predicate IsLatestOf(ts: seq<Transcript>, session: string, t: Transcript) {
    t in ts && t.session == session
    && forall u | u in ts && u.session == session :: u.createdAt < t.createdAt || (u.createdAt == t.createdAt && T.TextLe(u.id, t.id))
  }

  predicate HasNone(ts: seq<Transcript>, session: string) {
    forall u | u in ts :: u.session != session
  }

  /**
    A route begins behind the latest transcript of its session, or at nothing when the session
    has none; the route of a bound chat always begins at nothing.
   */
  ghost predicate IsBegun(ts: seq<Transcript>, id: string, r: Route) {
    exists session: string, target: string | id == "route-" + session + "-" + target ::
      || (exists t :: IsLatestOf(ts, session, t) && IsMark(r, t.createdAt, t.id))
      || ((HasNone(ts, session) || exists chat :: target == B.TargetId(chat)) && IsMark(r, 0, ""))
  }

  predicate IsKept(before: map<string, Route>, id: string, r: Route) {
    id in before && r.deliveredAt == before[id].deliveredAt && r.deliveredId == before[id].deliveredId
  }

  /** Routes keep their watermarks, and new ones begin. */
  ghost predicate BegunOrKept(ts: seq<Transcript>, before: map<string, Route>, after: map<string, Route>) {
    AreMarked(after) && forall id | id in after :: IsKept(before, id, after[id]) || (id !in before && IsBegun(ts, id, after[id]))
  }

  lemma AllKept(ts: seq<Transcript>, routes: map<string, Route>)
    requires AreMarked(routes)
    ensures BegunOrKept(ts, routes, routes)
  {
  }

  lemma BegunAs(ts: seq<Transcript>, id: string, a: Route, b: Route)
    requires IsBegun(ts, id, a) && b.deliveredAt == a.deliveredAt && b.deliveredId == a.deliveredId
    ensures IsBegun(ts, id, b)
  {
    hide IsLatestOf, HasNone, B.TargetId;
    var session: string, target: string :| id == "route-" + session + "-" + target
      && ((exists t :: IsLatestOf(ts, session, t) && IsMark(a, t.createdAt, t.id))
          || ((HasNone(ts, session) || exists chat :: target == B.TargetId(chat)) && IsMark(a, 0, "")));
    if t :| IsLatestOf(ts, session, t) && IsMark(a, t.createdAt, t.id) {
      assert IsMark(b, t.createdAt, t.id);
    } else {
      assert IsMark(b, 0, "");
    }
  }

  lemma BegunTransitive(ts: seq<Transcript>, a: map<string, Route>, b: map<string, Route>, c: map<string, Route>)
    requires BegunOrKept(ts, a, b) && BegunOrKept(ts, b, c) && forall id | id in a :: id in b
    ensures BegunOrKept(ts, a, c)
  {
    hide IsBegun;
    forall id | id in c
      ensures IsKept(a, id, c[id]) || (id !in a && IsBegun(ts, id, c[id]))
    {
      if id in b && id !in a && IsKept(b, id, c[id]) {
        BegunAs(ts, id, b[id], c[id]);
      }
    }
  }

  // The router

  lemma LatestOf(ts: seq<Transcript>, session: string)
    ensures var latest := T.Latest(T.OfSession(ts, session));
      if latest.None? then HasNone(ts, session) else IsLatestOf(ts, session, latest.value)
  {
    var found := T.OfSession(ts, session);
    T.LatestIsLatest(found);
    forall u | u in ts && u.session == session ensures u in found { }
  }

  lemma RefreshBegins(ts: seq<Transcript>, d: R.Decision, target: string, now: int)
    ensures IsBegun(ts, RouteId(d.session, target), RefreshedRoute(None, d, target, T.Latest(T.OfSession(ts, d.session)), now))
  {
    hide IsLatestOf, HasNone, B.TargetId;
    LatestOf(ts, d.session);
    var latest := T.Latest(T.OfSession(ts, d.session));
    var r := RefreshedRoute(None, d, target, latest, now);
    assert RouteId(d.session, target) == "route-" + d.session + "-" + target;
    if latest.Some? {
      assert IsMark(r, latest.value.createdAt, latest.value.id);
    } else {
      assert IsMark(r, 0, "");
    }
  }

  lemma RouteToStands(ts: seq<Transcript>, targets: map<string, Target>, p: Progress, d: R.Decision, target: string, now: int)
    requires AreMarked(p.routes)
    ensures var q := RouteTo(targets, p, d, target, T.Latest(T.OfSession(ts, d.session)), now);
      BegunOrKept(ts, p.routes, q.routes) && forall id | id in p.routes :: id in q.routes
  {
    hide ExistingRoute, RouteId, IsBegun, T.Latest, T.OfSession;
    RefreshBegins(ts, d, target, now);
    var existing := ExistingRoute(p.routes, d.session, target);
    if existing.None? {
      CanonicalIsNew(p.routes, d.session, target);
    }
  }

  lemma CanonicalIsNew(routes: map<string, Route>, session: string, target: string)
    requires ExistingRoute(routes, session, target).None?
    ensures RouteId(session, target) !in routes
  {
    hide RouteId;
  }

  lemma {:induction false} RouteToFirstStands(ts: seq<Transcript>, targets: map<string, Target>, p: Progress, d: R.Decision, n: nat, now: int)
    requires n <= |d.targets| && AreMarked(p.routes)
    ensures var q := RouteToFirst(targets, p, d, n, T.Latest(T.OfSession(ts, d.session)), now);
      BegunOrKept(ts, p.routes, q.routes) && forall id | id in p.routes :: id in q.routes
  {
    hide RouteTo, IsBegun, IsKept;
    if n == 0 {
      AllKept(ts, p.routes);
    } else {
      RouteToFirstStands(ts, targets, p, d, n - 1, now);
      var q := RouteToFirst(targets, p, d, n - 1, T.Latest(T.OfSession(ts, d.session)), now);
      RouteToStands(ts, targets, q, d, d.targets[n - 1], now);
      BegunTransitive(ts, p.routes, q.routes, RouteTo(targets, q, d, d.targets[n - 1], T.Latest(T.OfSession(ts, d.session)), now).routes);
    }
  }

  lemma BindToBegins(ts: seq<Transcript>, t: B.Tables, chat: int, b: Records.Binding, session: string, sourceId: string, now: int)
    requires AreMarked(t.routes)
    ensures var u := B.BindTo(t, chat, b, session, sourceId, now);
      && BegunOrKept(ts, t.routes, u.routes) && (forall id | id in t.routes :: id in u.routes)
      && u.world.transcripts == t.world.transcripts
  {
    hide B.AdmittingTarget, B.NewTarget, B.BindingRule, B.RuleId, IsBegun, B.TargetId, RouteId;
    NewRouteBegins(ts, chat, session, now);
  }

  lemma NewRouteBegins(ts: seq<Transcript>, chat: int, session: string, now: int)
    ensures IsBegun(ts, RouteId(session, B.TargetId(chat)), B.NewRoute(chat, session, now))
  {
    hide IsLatestOf, HasNone, B.TargetId;
    assert RouteId(session, B.TargetId(chat)) == "route-" + session + "-" + B.TargetId(chat);
    assert IsMark(B.NewRoute(chat, session, now), 0, "");
  }

  lemma CreateBegins(config: B.Config, t: B.Tables, payload: Json.Json, chat: int, created: Option<B.Created>, sourceId: string, now: int)
    requires AreMarked(t.routes)
    ensures var u := B.Create(config, t, payload, chat, created, sourceId, now);
      && BegunOrKept(t.world.transcripts, t.routes, u.routes) && (forall id | id in t.routes :: id in u.routes)
      && u.world.transcripts == t.world.transcripts
  {
    hide B.BindTo, B.PrivateBinding, Json.GetInteger, BegunOrKept, AreMarked;
    AllKept(t.world.transcripts, t.routes);
    if B.MayCreate(config, t.world, payload) && created.Some? && t.budget > 0 {
      var bindings := t.world.bindings;
      var existing := if chat in bindings then Some(bindings[chat]) else None;
      var session := created.value.id;
      var b := B.PrivateBinding(config, existing, Json.GetInteger(payload, "telegram_user_id").value, session);
      var housed := t.(world := t.world.(sessions := t.world.sessions[session := created.value.session]));
      var bound := housed.(world := housed.world.(bindings := bindings[chat := b]), budget := t.budget - 1);
      BindToBegins(t.world.transcripts, bound, chat, b, session, sourceId, now);
    }
  }

  lemma BindBegins(config: B.Config, t: B.Tables, payload: Parsed<Json.Json>, created: Option<B.Created>, sourceId: string, now: int)
    requires AreMarked(t.routes)
    ensures var u := B.Bind(config, t, payload, created, sourceId, now);
      && BegunOrKept(t.world.transcripts, t.routes, u.routes) && (forall id | id in t.routes :: id in u.routes)
      && u.world.transcripts == t.world.transcripts
  {
    hide B.BindTo, B.Create, Json.GetInteger, BegunOrKept, AreMarked;
    AllKept(t.world.transcripts, t.routes);
    if payload.Parsed? && Json.GetInteger(payload.value, "chat_id").Some? {
      var chat := Json.GetInteger(payload.value, "chat_id").value;
      if chat in t.world.bindings && t.world.bindings[chat].session.Some? {
        BindToBegins(t.world.transcripts, t, chat, t.world.bindings[chat], t.world.bindings[chat].session.value, sourceId, now);
      } else {
        CreateBegins(config, t, payload.value, chat, created, sourceId, now);
      }
    }
  }

  lemma BoundBegins(m: Machine, inbound: Inbound, a: RouterInput)
    requires AreMarked(m.db.routes)
    ensures var t := Bound(m, inbound, a);
      && BegunOrKept(m.db.world.transcripts, m.db.routes, t.routes) && (forall id | id in m.db.routes :: id in t.routes)
      && t.world.transcripts == m.db.world.transcripts
  {
    hide B.Bind, BegunOrKept, AreMarked;
    AllKept(m.db.world.transcripts, m.db.routes);
    BindBegins(a.config, B.Tables(m.db.world, m.db.routes, a.budget, B.Unbound), inbound.payload, a.created, inbound.sourceId, a.now);
  }

  lemma MaterializeStands(world: World, routes: map<string, Route>, d: R.Decision, now: int, budget: nat)
    requires AreMarked(routes)
    ensures BegunOrKept(world.transcripts, routes, Materialize(world, routes, d, now, budget).routes)
  {
    hide RouteToFirst, BegunOrKept, AreMarked;
    RouteToFirstStands(world.transcripts, world.targets, Progress(routes, budget, Done), d, |d.targets|, now);
  }

  lemma JoinRoutesStands(m: Machine, u: int, inbound: Inbound, rule: Rule, d: R.Decision, t: B.Tables, now: int)
    requires AreMarked(t.routes)
    ensures BegunOrKept(t.world.transcripts, t.routes, JoinRoutes(m, u, inbound, rule, d, t, now).db.routes)
  {
    hide Materialize, BegunOrKept, AreMarked, RoutedRecord;
    MaterializeStands(t.world, t.routes, d, now, t.budget);
  }

  lemma RouteEventStands(m: Machine, u: int, inbound: Inbound, a: RouterInput)
    requires AreMarked(m.db.routes)
    ensures BegunOrKept(m.db.world.transcripts, m.db.routes, RouteEvent(m, u, inbound, a).db.routes)
  {
    hide Bound, JoinRoutes, WithTables, BegunOrKept, R.IsRuleListing, R.ResolveRoute, AreMarked;
    var t := Bound(m, inbound, a);
    WithTablesFrame(m, t.world, t.routes, m.router);
    WithTablesFrame(m, t.world, t.routes, RouterBusy(u, PostDead));
    WithTablesFrame(m, t.world, t.routes, RouterBusy(u, MarkFailed));
    AllKept(m.db.world.transcripts, m.db.routes);
    BoundBegins(m, inbound, a);
    MarkedThen(m.db.world.transcripts, m.db.routes, t.routes);
    match R.ResolveRoute(inbound, a.listing)
    case Matched(rule, d) =>
      JoinRoutesStands(m, u, inbound, rule, d, t, a.now);
      BegunTransitive(m.db.world.transcripts, m.db.routes, t.routes, JoinRoutes(m, u, inbound, rule, d, t, a.now).db.routes);
    case _ =>
  }

  lemma MarkedThen(ts: seq<Transcript>, before: map<string, Route>, after: map<string, Route>)
    requires BegunOrKept(ts, before, after)
    ensures AreMarked(after)
  {
  }

  lemma BeginRouterStands(m: Machine, i: nat, a: RouterInput)
    requires AreMarked(m.db.routes)
    ensures BegunOrKept(m.db.world.transcripts, m.db.routes, BeginRouter(m, i, a).db.routes)
  {
    hide RouteEvent, Hears, IsControlCommand, BegunOrKept, AreMarked;
    AllKept(m.db.world.transcripts, m.db.routes);
    if m.router.RouterIdle? && Hears(m, i, E.ROUTER_FILTER) {
      HearsInBus(m, i, E.ROUTER_FILTER);
      var e := m.bus[i].payload;
      if e.kind.MessageReceived? && e.ref.InboundRef? && e.ref.update in m.db.inbound {
        RouteEventStands(m, e.ref.update, m.db.inbound[e.ref.update], a);
      }
    }
  }

  // Delivery

  /** A send that was recorded, and where it left the watermark of its route. */
  predicate IsSentAt(sends: seq<D.Send>, k: nat, id: string, r: Route) {
    k < |sends| && sends[k].routeId == id && sends[k].committed
    && IsMark(r, sends[k].out.transcript.createdAt, sends[k].out.transcript.id)
  }

  ghost predicate SentOrKept(before: map<string, Route>, after: map<string, Route>, start: nat, sends: seq<D.Send>) {
    && AreMarked(after) && after.Keys == before.Keys
    && forall id | id in after :: IsKept(before, id, after[id]) || exists k: nat | start <= k :: IsSentAt(sends, k, id, after[id])
  }

  lemma DeliverToStands(targets: map<string, Target>, out: D.Outgoing, d: D.Dispatch, id: string, r: Route, accepts: bool, now: int)
    requires AreMarked(d.routes) && (d.stopped || (id in d.routes && d.routes[id] == r))
    ensures var e := D.DeliverTo(targets, out, d, id, r, accepts, now);
      && |d.sends| <= |e.sends| && e.sends[..|d.sends|] == d.sends
      && SentOrKept(d.routes, e.routes, |d.sends|, e.sends)
  {
    hide D.RouteVerdict, D.DeliveryId;
    var e := D.DeliverTo(targets, out, d, id, r, accepts, now);
    if !d.stopped && accepts && D.RouteVerdict(targets, out, r).Sendable? {
      if d.budget >= 2 {
        assert IsSentAt(e.sends, |d.sends|, id, e.routes[id]);
      }
    }
  }

  lemma SentOn(routes: map<string, Route>, before: map<string, Route>, after: map<string, Route>, start: nat, middle: nat,
               sends: seq<D.Send>, more: seq<D.Send>)
    requires start <= middle == |sends| <= |more| && more[..middle] == sends
    requires SentOrKept(routes, before, start, sends) && SentOrKept(before, after, middle, more)
    ensures SentOrKept(routes, after, start, more)
  {
    forall id | id in after && !IsKept(routes, id, after[id])
      ensures exists k: nat | start <= k :: IsSentAt(more, k, id, after[id])
    {
      if IsKept(before, id, after[id]) {
        var k: nat :| start <= k && IsSentAt(sends, k, id, before[id]);
        assert more[k] == sends[k];
        assert IsSentAt(more, k, id, after[id]);
      }
    }
  }

  lemma {:induction false} DeliverToFirstStands(targets: map<string, Target>, out: D.Outgoing, d: D.Dispatch, routes: map<string, Route>,
                                                listing: seq<string>, n: nat, accepts: set<string>, now: int)
    requires n <= |listing| && (forall id | id in listing :: id in routes) && D.AreDistinct(listing)
    requires d.routes == routes && AreMarked(routes)
    ensures var e := D.DeliverToFirst(targets, out, d, routes, listing, n, accepts, now);
      && |d.sends| <= |e.sends| && e.sends[..|d.sends|] == d.sends
      && SentOrKept(routes, e.routes, |d.sends|, e.sends)
  {
    hide D.DeliverTo, IsSentAt, D.IsSendOn;
    if n > 0 {
      DeliverToFirstStands(targets, out, d, routes, listing, n - 1, accepts, now);
      D.CallSteps(targets, out, d, routes, listing, n - 1, accepts, now);
      var before := D.DeliverToFirst(targets, out, d, routes, listing, n - 1, accepts, now);
      var id := listing[n - 1];
      var e := D.DeliverTo(targets, out, before, id, routes[id], id in accepts, now);
      DeliverToStands(targets, out, before, id, routes[id], id in accepts, now);
      SentOn(routes, before.routes, e.routes, |d.sends|, |before.sends|, before.sends, e.sends);
      assert e.sends[..|d.sends|] == before.sends[..|d.sends|];
    }
  }

  lemma DeliverOutputStands(m: Machine, i: nat, listing: seq<string>, accepts: set<string>, budget: nat, now: int)
    requires AreMarked(m.db.routes)
    ensures var n := DeliverOutput(m, i, listing, accepts, budget, now);
      && |m.log.sends| <= |n.log.sends| && n.log.sends[..|m.log.sends|] == m.log.sends
      && SentOrKept(m.db.routes, n.db.routes, |m.log.sends|, n.log.sends)
  {
    hide Hears, OutgoingOf, D.DeliverToFirst, IsSentAt;
    if Hears(m, i, E.DELIVERY_FILTER) {
      HearsInBus(m, i, E.DELIVERY_FILTER);
      if OutgoingOf(m.db, m.bus[i].payload.event).Ready? {
        var out := OutgoingOf(m.db, m.bus[i].payload.event).value;
        if D.IsListing(m.db.routes, out.session, listing) {
          DeliverToFirstStands(m.db.world.targets, out, D.Dispatch(m.db.routes, m.db.deliveries, m.log.sends, budget, 0, 0, 0, false),
                               m.db.routes, listing, |listing|, accepts, now);
        }
      }
    }
  }

  // Over runs

  /** One step: a router call lets routes begin, a delivery raises watermarks, and nothing else touches one. */
  lemma StepStands(m: Machine, s: Step)
    requires AreMarked(m.db.routes)
    ensures var n := Do(m, s);
      && |m.log.sends| <= |n.log.sends| && n.log.sends[..|m.log.sends|] == m.log.sends && AreMarked(n.db.routes)
      && (s.DoBeginRouter? ==> BegunOrKept(m.db.world.transcripts, m.db.routes, n.db.routes))
      && (s.DoDeliverOutput? ==> SentOrKept(m.db.routes, n.db.routes, |m.log.sends|, n.log.sends))
      && (!s.DoBeginRouter? && !s.DoDeliverOutput? ==> n.db.routes == m.db.routes)
  {
    hide BegunOrKept, SentOrKept, AreMarked;
    hide Ask, Receive, PostInput, CreateTask, Claim, Publish, MarkPublication, StopPublisher, BeginRouter, StepRouter, FailRouter, StopRouter;
    hide BeginTurn, StepTurn, TakeTurn, StopTurn, BeginTask, StepTask, RunJob, StopTask, DeliverOutput, DeliverResult, Follow;
    if s.DoBeginRouter? {
      BeginRouterStands(m, s.i, s.input);
      MarkedThen(m.db.world.transcripts, m.db.routes, Do(m, s).db.routes);
      BeginRouterFrame(m, s.i, s.input);
      assert m.log.sends[..|m.log.sends|] == m.log.sends;
    } else if s.DoDeliverOutput? {
      DeliverOutputStands(m, s.i, s.listing, s.accepts, s.budget, s.now);
      StillMarked(m.db.routes, Do(m, s).db.routes, |m.log.sends|, Do(m, s).log.sends);
    } else {
      DeliveryPartsKept(m, s);
      assert m.log.sends[..|m.log.sends|] == m.log.sends;
    }
  }

  lemma StillMarked(before: map<string, Route>, after: map<string, Route>, start: nat, sends: seq<D.Send>)
    requires SentOrKept(before, after, start, sends)
    ensures AreMarked(after)
  {
  }

  /** The route began at this step of the run, where its watermark now stands. */
  ghost predicate BeganAt(run: Execution, n: nat, id: string, r: Route) {
    && n < |run.steps| && n + 1 < |run.states| && run.steps[n].DoBeginRouter? && id !in run.states[n].db.routes
    && IsBegun(run.states[n].db.world.transcripts, id, r)
  }

  /**
    Over every run: each watermark stands at a transcript whose send on that route was recorded,
    or where its route began at some step, behind the transcripts its session had there.
   */
  lemma {:induction false} WatermarkStands(run: Execution, id: string)
    requires IsExecution(run)
    ensures AreMarked(End(run).db.routes)
    ensures id in End(run).db.routes ==>
      || (exists k: nat :: IsSentAt(End(run).log.sends, k, id, End(run).db.routes[id]))
      || (exists n: nat :: BeganAt(run, n, id, End(run).db.routes[id]))
    decreases |run.steps|
  {
    hide Do, IsBegun, IsExecution, IsSentAt;
    if run.steps == [] {
      NoRoutes(run);
    } else {
      var before, s := LastStep(run);
      ExecutionStates(run);
      WatermarkStands(before, id);
      var m, n := End(before), End(run);
      StepStands(m, s);
      if id in n.db.routes {
        if IsKept(m.db.routes, id, n.db.routes[id]) {
          StandsOn(run, before, id);
        } else if s.DoBeginRouter? {
          assert BeganAt(run, |run.steps| - 1, id, n.db.routes[id]);
        }
      }
    }
  }

  lemma NoRoutes(run: Execution)
    requires IsExecution(run) && run.steps == []
    ensures End(run).db.routes == map[]
  {
    hide Do;
  }

  lemma StandsOn(run: Execution, before: Execution, id: string)
    requires id in End(run).db.routes && IsKept(End(before).db.routes, id, End(run).db.routes[id])
    requires before.steps <= run.steps && before.states <= run.states
    requires End(before).log.sends <= End(run).log.sends
    requires (exists k: nat :: IsSentAt(End(before).log.sends, k, id, End(before).db.routes[id]))
          || (exists n: nat :: BeganAt(before, n, id, End(before).db.routes[id]))
    ensures (exists k: nat :: IsSentAt(End(run).log.sends, k, id, End(run).db.routes[id]))
         || (exists n: nat :: BeganAt(run, n, id, End(run).db.routes[id]))
  {
    hide IsBegun;
    var a, b := End(before).db.routes[id], End(run).db.routes[id];
    if k: nat :| IsSentAt(End(before).log.sends, k, id, a) {
      assert End(run).log.sends[k] == End(before).log.sends[k];
      assert IsSentAt(End(run).log.sends, k, id, b);
    } else {
      var n: nat :| BeganAt(before, n, id, a);
      BegunAs(before.states[n].db.world.transcripts, id, a, b);
      assert BeganAt(run, n, id, b);
    }
  }
}

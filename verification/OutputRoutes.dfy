/** The output routes a routed event asks for, and the watermark each route keeps. */
module OutputRoutes {
  import opened Text
  import opened Records
  import opened Routing
  import opened Transcripts

  /** `b` has delivered at least as far as `a`. */
  predicate NoFurther(a: Option<int>, b: Option<int>) {
    a.None? || (b.Some? && a.value <= b.value)
  }

  /** No route is dropped, and no watermark falls. */
  predicate RoutesAdvance(before: map<string, Route>, after: map<string, Route>) {
    forall id | id in before :: id in after && NoFurther(before[id].deliveredAt, after[id].deliveredAt)
  }

  /** The two fields of every watermark are set together. */
  predicate WatermarksWhole(routes: map<string, Route>) {
    forall id | id in routes :: routes[id].deliveredAt.Some? <==> routes[id].deliveredId.Some?
  }

  lemma AdvanceTransitive(a: map<string, Route>, b: map<string, Route>, c: map<string, Route>)
    requires RoutesAdvance(a, b) && RoutesAdvance(b, c)
    ensures RoutesAdvance(a, c)
  {
    forall id | id in a
      ensures id in c && NoFurther(a[id].deliveredAt, c[id].deliveredAt)
    {
      assert id in b;
    }
  }

  function RouteId(session: string, target: string): string {
    "route-" + session + "-" + target
  }

  predicate IsCandidate(routes: map<string, Route>, id: string, session: string, target: string) {
    id in routes && routes[id].enabled && routes[id].session == session && routes[id].target == target
  }

  /** The order in which the store lists routes. */
  predicate Precedes(routes: map<string, Route>, a: string, b: string)
    requires a in routes && b in routes
  {
    routes[a].updatedAt < routes[b].updatedAt || (routes[a].updatedAt == routes[b].updatedAt && TextLe(a, b))
  }

  ghost predicate IsFirstRoute(routes: map<string, Route>, session: string, target: string, first: string) {
    && IsCandidate(routes, first, session, target)
    && forall id | IsCandidate(routes, id, session, target) :: Precedes(routes, first, id)
  }

  /** The first enabled route of the session to the target. */
  ghost function FirstRoute(routes: map<string, Route>, session: string, target: string): (r: Option<string>)
    ensures r.Some? ==> IsFirstRoute(routes, session, target, r.value)
  {
    if exists id :: IsFirstRoute(routes, session, target, id)
    then var id :| IsFirstRoute(routes, session, target, id); Some(id)
    else None
  }

  lemma FirstRouteUnique(routes: map<string, Route>, session: string, target: string, id: string)
    requires IsFirstRoute(routes, session, target, id)
    ensures FirstRoute(routes, session, target) == Some(id)
  {
    var first := FirstRoute(routes, session, target).value;
    TextLeAntisymmetricIf(first, id);
  }

  lemma NoFirstRoute(routes: map<string, Route>, session: string, target: string)
    requires forall id :: !IsCandidate(routes, id, session, target)
    ensures FirstRoute(routes, session, target) == None
  {
  }

  /** The route that is refreshed: the canonical one if it exists, else the first listed. */
  ghost function ExistingRoute(routes: map<string, Route>, session: string, target: string): (existing: Option<string>)
    ensures existing.Some? ==> existing.value in routes
  {
    if RouteId(session, target) in routes then Some(RouteId(session, target))
    else FirstRoute(routes, session, target)
  }

  /** The search as the router makes it: the canonical route, else the first of `listing` to the target. */
  method FindExistingOutputRoute(routes: map<string, Route>, listing: seq<string>, session: string, target: string)
    returns (existing: Option<string>)
    requires forall id | id in listing :: id in routes && routes[id].enabled && routes[id].session == session
    requires forall id | id in routes && routes[id].enabled && routes[id].session == session :: id in listing
    requires forall i, j | 0 <= i < j < |listing| :: Precedes(routes, listing[i], listing[j])
    ensures existing == ExistingRoute(routes, session, target)
  {
    if RouteId(session, target) in routes {
      return Some(RouteId(session, target));
    }
    for i := 0 to |listing|
      invariant forall j | 0 <= j < i :: routes[listing[j]].target != target
    {
      if routes[listing[i]].target == target {
        FirstInListing(routes, listing, session, target, i);
        return Some(listing[i]);
      }
    }
    NoFirstRoute(routes, session, target);
    return None;
  }

  lemma FirstInListing(routes: map<string, Route>, listing: seq<string>, session: string, target: string, i: nat)
    requires i < |listing|
    requires forall id | id in listing :: id in routes && routes[id].enabled && routes[id].session == session
    requires forall id | id in routes && routes[id].enabled && routes[id].session == session :: id in listing
    requires forall i, j | 0 <= i < j < |listing| :: Precedes(routes, listing[i], listing[j])
    requires routes[listing[i]].target == target
    requires forall j | 0 <= j < i :: routes[listing[j]].target != target
    ensures FirstRoute(routes, session, target) == Some(listing[i])
  {
    forall id | IsCandidate(routes, id, session, target)
      ensures Precedes(routes, listing[i], id)
    {
      var j :| 0 <= j < |listing| && listing[j] == id;
      TextLeTotal(id, id);
    }
    FirstRouteUnique(routes, session, target, listing[i]);
  }

  function Or<T>(a: Option<T>, b: Option<T>): Option<T> {
    if a.Some? then a else b
  }

  function RefreshedRoute(existing: Option<Route>, d: Decision, target: string, latest: Option<Transcript>, now: int): Route {
    Route(
      d.session,
      target,
      d.format,
      true,
      Or(Or(if existing.Some? then existing.value.deliveredAt else None,
            if latest.Some? then Some(latest.value.createdAt) else None), Some(0)),
      Or(Or(if existing.Some? then existing.value.deliveredId else None,
            if latest.Some? then Some(latest.value.id) else None), Some("")),
      if existing.Some? then existing.value.createdAt else now,
      now)
  }

  datatype Outcome = Done | MissingTarget | StoreFailed

  /** How far the route writes have come; `budget` is the number of writes that will still succeed. */
  datatype Progress = Progress(routes: map<string, Route>, budget: nat, outcome: Outcome)

  ghost function RouteTo(targets: map<string, Target>, p: Progress, d: Decision, target: string,
                         latest: Option<Transcript>, now: int): Progress {
    if !p.outcome.Done? then p
    else if target !in targets then p.(outcome := MissingTarget)
    else if p.budget == 0 then p.(outcome := StoreFailed)
    else
      var existing := ExistingRoute(p.routes, d.session, target);
      var id := if existing.Some? then existing.value else RouteId(d.session, target);
      var before := if existing.Some? then Some(p.routes[existing.value]) else None;
      p.(routes := p.routes[id := RefreshedRoute(before, d, target, latest, now)], budget := p.budget - 1)
  }

  /** The routes to the first `n` targets of the decision, one after the other. */
  ghost function RouteToFirst(targets: map<string, Target>, p: Progress, d: Decision, n: nat,
                              latest: Option<Transcript>, now: int): Progress
    requires n <= |d.targets|
  {
    if n == 0 then p
    else RouteTo(targets, RouteToFirst(targets, p, d, n - 1, latest, now), d, d.targets[n - 1], latest, now)
  }

  ghost function Materialize(world: World, routes: map<string, Route>, d: Decision, now: int, budget: nat): Progress {
    RouteToFirst(world.targets, Progress(routes, budget, Done), d, |d.targets|,
                 Latest(OfSession(world.transcripts, d.session)), now)
  }

  lemma RouteToAdvances(targets: map<string, Target>, p: Progress, d: Decision, target: string,
                        latest: Option<Transcript>, now: int)
    ensures var q := RouteTo(targets, p, d, target, latest, now);
      && RoutesAdvance(p.routes, q.routes)
      && (WatermarksWhole(p.routes) ==> WatermarksWhole(q.routes))
      && q.budget <= p.budget
  {
    hide FirstRoute, RouteId;
  }

  lemma {:induction false} RouteToFirstAdvances(targets: map<string, Target>, p: Progress, d: Decision, n: nat,
                                                latest: Option<Transcript>, now: int)
    requires n <= |d.targets|
    ensures var q := RouteToFirst(targets, p, d, n, latest, now);
      && RoutesAdvance(p.routes, q.routes)
      && (WatermarksWhole(p.routes) ==> WatermarksWhole(q.routes))
      && q.budget <= p.budget
  {
    hide RouteTo, RoutesAdvance, WatermarksWhole;
    if n == 0 {
      NoAdvance(p.routes);
    } else {
      var q := RouteToFirst(targets, p, d, n - 1, latest, now);
      RouteToFirstAdvances(targets, p, d, n - 1, latest, now);
      RouteToAdvances(targets, q, d, d.targets[n - 1], latest, now);
      AdvanceTransitive(p.routes, q.routes, RouteTo(targets, q, d, d.targets[n - 1], latest, now).routes);
    }
  }

  lemma NoAdvance(routes: map<string, Route>)
    ensures RoutesAdvance(routes, routes)
  {
  }

  /** However many of its writes succeed, routing never lowers a watermark or splits one. */
  lemma MaterializeAdvances(world: World, routes: map<string, Route>, d: Decision, now: int, budget: nat)
    ensures var m := Materialize(world, routes, d, now, budget);
      && RoutesAdvance(routes, m.routes)
      && (WatermarksWhole(routes) ==> WatermarksWhole(m.routes))
  {
    hide RoutesAdvance, WatermarksWhole;
    RouteToFirstAdvances(world.targets, Progress(routes, budget, Done), d, |d.targets|,
                         Latest(OfSession(world.transcripts, d.session)), now);
  }

  /** Every route under a canonical name joins the session and the target of that name. */
  predicate AreTidy(routes: map<string, Route>, session: string, targets: seq<string>) {
    forall t | t in targets && RouteId(session, t) in routes ::
      routes[RouteId(session, t)].session == session && routes[RouteId(session, t)].target == t
  }

  /** The session has an enabled route to the target, refreshed now and in the format decided on. */
  predicate IsReached(routes: map<string, Route>, d: Decision, target: string, now: int) {
    exists id | id in routes :: IsCandidate(routes, id, d.session, target) && routes[id].format == d.format && routes[id].updatedAt == now
  }

  lemma RouteIdInjective(session: string, a: string, b: string)
    requires RouteId(session, a) == RouteId(session, b)
    ensures a == b
  {
    var n := |"route-" + session + "-"|;
    assert RouteId(session, a)[n..] == a && RouteId(session, b)[n..] == b;
  }

  /** Where a target's route is written: its canonical name, or a route that is its own already. */
  lemma RefreshedAt(routes: map<string, Route>, session: string, target: string)
    ensures var existing := ExistingRoute(routes, session, target);
      existing.Some? && existing.value != RouteId(session, target) ==>
        RouteId(session, target) !in routes && IsCandidate(routes, existing.value, session, target)
  {
    hide RouteId;
  }

  lemma OneMoreReached(targets: map<string, Target>, p: Progress, d: Decision, target: string, latest: Option<Transcript>, now: int,
                       other: string)
    requires p.outcome.Done? && target in targets && p.budget > 0
    requires AreTidy(p.routes, d.session, d.targets) && target in d.targets && other in d.targets
    ensures var q := RouteTo(targets, p, d, target, latest, now);
      && AreTidy(q.routes, d.session, d.targets) && IsReached(q.routes, d, target, now)
      && (IsReached(p.routes, d, other, now) ==> IsReached(q.routes, d, other, now))
  {
    hide RouteId, ExistingRoute;
    RefreshedAt(p.routes, d.session, target);
    var existing := ExistingRoute(p.routes, d.session, target);
    var id := if existing.Some? then existing.value else RouteId(d.session, target);
    var q := RouteTo(targets, p, d, target, latest, now);
    assert IsCandidate(q.routes, id, d.session, target);
    forall t | t in d.targets && RouteId(d.session, t) in q.routes
      ensures q.routes[RouteId(d.session, t)].session == d.session && q.routes[RouteId(d.session, t)].target == t
    {
      if RouteId(d.session, t) == RouteId(d.session, target) {
        RouteIdInjective(d.session, t, target);
      }
    }
    if IsReached(p.routes, d, other, now) && other != target {
      var k :| k in p.routes && IsCandidate(p.routes, k, d.session, other) && p.routes[k].format == d.format && p.routes[k].updatedAt == now;
      assert k != id;
      assert IsCandidate(q.routes, k, d.session, other);
    }
  }

  /** All of the first `n` targets are known, and there are writes enough for them. */
  predicate CanRoute(targets: map<string, Target>, d: Decision, n: nat, budget: nat)
    requires n <= |d.targets|
  {
    n <= budget && forall i | 0 <= i < n :: d.targets[i] in targets
  }

  lemma {:induction false} RouteToFirstReaches(targets: map<string, Target>, p: Progress, d: Decision, n: nat,
                                               latest: Option<Transcript>, now: int)
    requires n <= |d.targets| && p.outcome.Done?
    ensures var q := RouteToFirst(targets, p, d, n, latest, now);
      && (q.outcome.Done? <==> CanRoute(targets, d, n, p.budget))
      && (q.outcome.Done? ==> q.budget == p.budget - n)
      && (q.outcome.Done? && AreTidy(p.routes, d.session, d.targets) ==>
            AreTidy(q.routes, d.session, d.targets) && forall i | 0 <= i < n :: IsReached(q.routes, d, d.targets[i], now))
  {
    hide RouteId, ExistingRoute, IsReached, AreTidy, RefreshedRoute;
    if n > 0 {
      RouteToFirstReaches(targets, p, d, n - 1, latest, now);
      var q := RouteToFirst(targets, p, d, n - 1, latest, now);
      if q.outcome.Done? && d.targets[n - 1] in targets && q.budget > 0 && AreTidy(p.routes, d.session, d.targets) {
        forall i | 0 <= i < n
          ensures AreTidy(RouteTo(targets, q, d, d.targets[n - 1], latest, now).routes, d.session, d.targets)
          ensures IsReached(RouteTo(targets, q, d, d.targets[n - 1], latest, now).routes, d, d.targets[i], now)
        {
          OneMoreReached(targets, q, d, d.targets[n - 1], latest, now, d.targets[i]);
        }
      }
    }
  }

  /**
    Routing ends well exactly when every target is known and every write succeeds; the session
    then has an enabled route to each target, refreshed in the decision's format, unless a route
    had another's canonical name.
   */
  lemma EveryTargetReached(world: World, routes: map<string, Route>, d: Decision, now: int, budget: nat)
    ensures var m := Materialize(world, routes, d, now, budget);
      && (m.outcome.Done? <==> CanRoute(world.targets, d, |d.targets|, budget))
      && (m.outcome.Done? && AreTidy(routes, d.session, d.targets) ==>
            forall t | t in d.targets :: IsReached(m.routes, d, t, now))
  {
    hide RouteToFirst, RouteId, IsReached, AreTidy;
    RouteToFirstReaches(world.targets, Progress(routes, budget, Done), d, |d.targets|,
                        Latest(OfSession(world.transcripts, d.session)), now);
  }
}

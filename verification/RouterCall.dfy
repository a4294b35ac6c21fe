/** The router's call as it is written: bind the chat, choose a rule, refresh its routes, write the event. */
module RouterCall {
  import opened Text
  import opened Json
  import opened Ids
  import opened Records
  import opened OutputRoutes
  import opened Machine
  import opened EventStore
  import B = Binding
  import R = Routing
  import T = Transcripts

  // Binding

  /** What the store holds of the tables that binding writes; `spare` is left as long as no write failed. */
  ghost predicate Holds(store: Store, t: B.Tables, spare: nat)
    reads store
  {
    && store.world == t.world && store.routes == t.routes
    && (!t.outcome.BindFailed? ==> store.writes == t.budget && store.spare == spare)
  }

  method BindTarget(store: Store, chat: int, b: Binding, session: string, now: int, ghost t: B.Tables) returns (ok: bool)
    requires Holds(store, t, store.spare) && !t.outcome.BindFailed?
    modifies store`world, store`writes, store`spare
    ensures var u := B.BindTarget(t, chat, b, session, now);
      Holds(store, u, old(store.spare)) && ok == !u.outcome.BindFailed? && (ok ==> u.outcome == t.outcome)
  {
    hide B.TargetId, B.AdmittingTarget, B.NewTarget;
    var id := B.TargetId(chat);
    var targets := store.world.targets;
    var wanted := if id in targets then B.AdmittingTarget(targets[id], session, now) else B.NewTarget(chat, b, session, now);
    ok := true;
    if id !in targets || wanted != targets[id] {
      ok := store.PutWorld(store.world.(targets := targets[id := wanted]));
    }
  }

  method BindRoute(store: Store, chat: int, session: string, now: int, ghost t: B.Tables) returns (ok: bool)
    requires Holds(store, t, store.spare) && !t.outcome.BindFailed?
    modifies store`routes, store`writes, store`spare
    ensures var u := B.BindRoute(t, chat, session, now);
      Holds(store, u, old(store.spare)) && ok == !u.outcome.BindFailed? && (ok ==> u.outcome == t.outcome)
  {
    hide B.TargetId, RouteId, B.NewRoute;
    var id := RouteId(session, B.TargetId(chat));
    ok := true;
    if id !in store.routes {
      ok := store.PutSessionOutputRoute(id, B.NewRoute(chat, session, now));
    }
  }

  method BindRule(store: Store, chat: int, b: Binding, session: string, sourceId: string, now: int, ghost t: B.Tables) returns (ok: bool)
    requires Holds(store, t, store.spare) && !t.outcome.BindFailed?
    modifies store`world, store`writes, store`spare
    ensures var u := B.BindRule(t, chat, b, session, sourceId, now);
      Holds(store, u, old(store.spare)) && ok == u.outcome.Bound? && ok == !u.outcome.BindFailed?
  {
    hide B.RuleId, B.BindingRule;
    var rules := store.world.rules;
    var existing := if B.RuleId(chat) in rules then Some(rules[B.RuleId(chat)]) else None;
    ok := store.PutWorld(store.world.(rules := rules[B.RuleId(chat) := B.BindingRule(existing, chat, b, session, sourceId, now)]));
  }

  method BindTo(store: Store, chat: int, b: Binding, session: string, sourceId: string, now: int, ghost t: B.Tables) returns (ok: bool)
    requires Holds(store, t, store.spare) && !t.outcome.BindFailed?
    modifies store`world, store`routes, store`writes, store`spare
    ensures var u := B.BindTo(t, chat, b, session, sourceId, now);
      Holds(store, u, old(store.spare)) && ok == u.outcome.Bound? && ok == !u.outcome.BindFailed?
  {
    hide B.BindTarget, B.BindRoute, B.BindRule;
    ghost var u := B.BindTarget(t, chat, b, session, now);
    FailedStays(u, chat, b, session, sourceId, now);
    ok := BindTarget(store, chat, b, session, now, t);
    if !ok {
      return;
    }
    ghost var v := B.BindRoute(u, chat, session, now);
    FailedStays(v, chat, b, session, sourceId, now);
    ok := BindRoute(store, chat, session, now, u);
    if !ok {
      return;
    }
    ok := BindRule(store, chat, b, session, sourceId, now, v);
  }

  lemma FailedStays(t: B.Tables, chat: int, b: Binding, session: string, sourceId: string, now: int)
    ensures t.outcome.BindFailed? ==> B.BindRoute(t, chat, session, now) == t && B.BindRule(t, chat, b, session, sourceId, now) == t
  {
  }

  /** `created` is the session that creating one for a private chat yields, if that succeeds. */
  method EnsureTelegramBindingRoute(store: Store, config: B.Config, payload: Parsed<Json>, created: Option<B.Created>, sourceId: string, now: int)
    returns (outcome: B.BindOutcome)
    modifies store`world, store`routes, store`writes, store`spare
    ensures var t := B.Bind(config, B.Tables(old(store.world), old(store.routes), old(store.writes), B.Unbound), payload, created, sourceId, now);
      Holds(store, t, old(store.spare)) && outcome == t.outcome
  {
    hide B.BindTo, B.MayCreate, B.PrivateBinding, GetInteger;
    ghost var t := B.Tables(store.world, store.routes, store.writes, B.Unbound);
    if payload.Malformed? {
      return B.BindFailed;
    }
    var chat := GetInteger(payload.value, "chat_id");
    if chat.None? {
      return B.Unbound;
    }
    var bindings := store.world.bindings;
    if chat.value in bindings && bindings[chat.value].session.Some? {
      var binding := bindings[chat.value];
      var ok := BindTo(store, chat.value, binding, binding.session.value, sourceId, now, t);
      return if ok then B.Bound else B.BindFailed;
    }
    outcome := MaterializePrivateBinding(store, config, payload.value, chat.value, created, sourceId, now, t);
  }

  method MaterializePrivateBinding(store: Store, config: B.Config, payload: Json, chat: int, created: Option<B.Created>, sourceId: string,
                                   now: int, ghost t: B.Tables)
    returns (outcome: B.BindOutcome)
    requires Holds(store, t, store.spare) && t.outcome.Unbound?
    modifies store`world, store`routes, store`writes, store`spare
    ensures var u := B.Create(config, t, payload, chat, created, sourceId, now);
      Holds(store, u, old(store.spare)) && outcome == u.outcome
  {
    hide B.BindTo, B.PrivateBinding, GetInteger;
    var bindings := store.world.bindings;
    var existing := if chat in bindings then Some(bindings[chat]) else None;
    if !B.MayCreate(config, store.world, payload) {
      return B.Unbound;
    }
    if created.None? {
      return B.BindFailed;
    }
    var session := created.value.id;
    store.world := store.world.(sessions := store.world.sessions[session := created.value.session]);
    var binding := B.PrivateBinding(config, existing, GetInteger(payload, "telegram_user_id").value, session);
    ghost var housed := t.(world := store.world);
    var ok := store.PutWorld(store.world.(bindings := bindings[chat := binding]));
    if !ok {
      return B.BindFailed;
    }
    ok := BindTo(store, chat, binding, session, sourceId, now, housed.(world := store.world, budget := store.writes));
    outcome := if ok then B.Bound else B.BindFailed;
  }

  // Output routes

  method MaterializeOutputRoutes(store: Store, d: R.Decision, now: int) returns (outcome: Outcome)
    modifies store`routes, store`writes, store`spare
    ensures var p := Materialize(store.world, old(store.routes), d, now, old(store.writes));
      && store.routes == p.routes && outcome == p.outcome
      && store.writes == (if outcome.StoreFailed? then old(store.spare) else p.budget)
      && store.spare == (if outcome.StoreFailed? then 0 else old(store.spare))
  {
    hide RouteTo, T.Latest, T.OfSession;
    var latest := T.Latest(T.OfSession(store.world.transcripts, d.session));
    ghost var start := Progress(store.routes, store.writes, Done);
    for i := 0 to |d.targets|
      invariant RouteToFirst(store.world.targets, start, d, i, latest, now) == Progress(store.routes, store.writes, Done)
      invariant store.spare == old(store.spare)
    {
      outcome := RefreshRoute(store, d, d.targets[i], latest, now);
      if outcome != Done {
        Stays(store.world.targets, start, d, i + 1, |d.targets|, latest, now);
        return;
      }
    }
    outcome := Done;
  }

  lemma {:induction false} Stays(targets: map<string, Target>, p: Progress, d: R.Decision, i: nat, n: nat, latest: Option<Transcript>, now: int)
    requires i <= n <= |d.targets| && !RouteToFirst(targets, p, d, i, latest, now).outcome.Done?
    ensures RouteToFirst(targets, p, d, n, latest, now) == RouteToFirst(targets, p, d, i, latest, now)
    decreases n
  {
    hide ExistingRoute, RefreshedRoute;
    if i < n {
      Stays(targets, p, d, i, n - 1, latest, now);
    }
  }

  method RefreshRoute(store: Store, d: R.Decision, target: string, latest: Option<Transcript>, now: int) returns (outcome: Outcome)
    modifies store`routes, store`writes, store`spare
    ensures RouteTo(store.world.targets, Progress(old(store.routes), old(store.writes), Done), d, target, latest, now)
         == Progress(store.routes, if outcome.StoreFailed? then 0 else store.writes, outcome)
    ensures store.spare == if outcome.StoreFailed? then 0 else old(store.spare)
    ensures outcome.StoreFailed? ==> store.writes == old(store.spare)
  {
    hide ExistingRoute, RefreshedRoute, RouteId;
    if target !in store.world.targets {
      return MissingTarget;
    }
    var listing := store.ListEnabledSessionOutputRoutes(d.session);
    var existing := FindExistingOutputRoute(store.routes, listing, d.session, target);
    var id := if existing.Some? then existing.value else RouteId(d.session, target);
    var before := if existing.Some? then Some(store.routes[existing.value]) else None;
    var ok := store.PutSessionOutputRoute(id, RefreshedRoute(before, d, target, latest, now));
    outcome := if ok then Done else StoreFailed;
  }

  // The call

  function Rank(r: Router): nat {
    match r
    case RouterIdle => 0
    case RouterBusy(_, todo) =>
      match todo
      case MarkFailed => 1
      case PostDead => 2
      case PutRouted(_) => 3
      case PostRouted(_) => 2
      case MarkProcessed(_) => 1
  }

  /** The rest of a call run through without anyone in between, with the store's `writes` and `spare`. */
  function Finish(m: Machine, now: int, writes: nat, spare: nat): Machine
    decreases Rank(m.router)
  {
    if m.router.RouterIdle? then m
    else if writes == 0 then Finish(FailRouter(m), now, spare, 0)
    else Finish(StepRouter(m, now), now, writes - 1, spare)
  }

  lemma FinishFails(m: Machine, now: int, spare: nat)
    requires m.router.RouterBusy?
    ensures Finish(m, now, 0, spare) == Finish(FailRouter(m), now, spare, 0) && FailRouter(m).db == m.db
    ensures FailRouter(m).router == if m.router.todo.MarkFailed? || m.router.todo.MarkProcessed? then RouterIdle
                                    else RouterBusy(m.router.update, MarkFailed)
  {
    hide StepRouter;
  }

  lemma FinishSteps(m: Machine, now: int, writes: nat, spare: nat)
    requires m.router.RouterBusy? && writes > 0
    ensures Finish(m, now, writes, spare) == Finish(StepRouter(m, now), now, writes - 1, spare)
  {
    hide StepRouter, FailRouter;
  }

  lemma FinishEnds(m: Machine, now: int, writes: nat, spare: nat)
    requires m.router.RouterIdle?
    ensures Finish(m, now, writes, spare) == m
  {
    hide StepRouter, FailRouter;
  }

  /** What each remaining write does to the store, and what is left to do behind it. */
  lemma RouterWrites(m: Machine, u: int, now: int)
    requires m.router.RouterBusy? && m.router.update == u && u in m.db.inbound
    ensures var n := StepRouter(m, now);
      var marked := (status: InboundStatus) => m.db.(inbound := m.db.inbound[u := m.db.inbound[u].(status := status)]);
      match m.router.todo
      case MarkFailed => n.router.RouterIdle? && n.db == marked(InboundFailed)
      case PostDead => n.router == RouterBusy(u, MarkFailed)
        && n.db == m.db.(rows := m.db.rows[DeadLetterRow(u) := NewRow(DeadEnvelope(u, now), now)])
      case PutRouted(record) => n.router == RouterBusy(u, PostRouted(record.session))
        && n.db == m.db.(routed := m.db.routed[u := record])
      case PostRouted(session) => n.router == RouterBusy(u, MarkProcessed(true))
        && n.db == m.db.(rows := m.db.rows[RoutedRow(u) := NewRow(RoutedEnvelope(u, session, now), now)])
      case MarkProcessed(_) => n.router.RouterIdle? && n.db == marked(InboundProcessed)
  {
    hide DeadEnvelope, RoutedEnvelope;
  }

  /** One more write behind which the call is at `next`. */
  ghost predicate IsAt(store: Store, m: Machine, u: int, todo: RouterTodo)
    reads store
  {
    m.db == store.View() && m.router == RouterBusy(u, todo) && u in m.db.inbound
  }

  /** A routed event, its row, and the mark on its inbound event. */
  method WriteRoutedEvent(store: Store, u: int, record: Routed, now: int, ghost m: Machine) returns (ok: bool)
    requires IsAt(store, m, u, PutRouted(record))
    modifies store
    ensures store.View() == Finish(m, now, old(store.writes), old(store.spare)).db
    ensures ok ==> u in store.View().inbound && store.View().inbound[u].status.InboundProcessed?
    ensures ok ==> u in store.View().routed && store.View().routed[u] == record && RoutedRow(u) in store.View().rows
  {
    hide Finish, StepRouter, RoutedEnvelope, Store.View;
    ghost var n, writes, spare := m, store.writes, store.spare;
    RouterWrites(n, u, now);
    ok := store.PutRoutedEvent(u, record);
    if !ok {
      FinishFails(n, now, spare);
      MarkFailedQuietly(store, u, now, FailRouter(n));
      return;
    }
    FinishSteps(n, now, writes, spare);
    n, writes := StepRouter(n, now), store.writes;
    RouterWrites(n, u, now);
    ok := store.PutEventOutbox(RoutedRow(u), RoutedEnvelope(u, record.session, now), now);
    if !ok {
      FinishFails(n, now, spare);
      MarkFailedQuietly(store, u, now, FailRouter(n));
      return;
    }
    FinishSteps(n, now, writes, spare);
    n := StepRouter(n, now);
    ok := MarkInbound(store, u, MarkProcessed(true), now, n);
  }

  /** The mark after a failed write, whose own failure is passed over. */
  method MarkFailedQuietly(store: Store, u: int, now: int, ghost m: Machine)
    requires IsAt(store, m, u, MarkFailed)
    modifies store
    ensures store.View() == Finish(m, now, old(store.writes), old(store.spare)).db
  {
    var _ := MarkInbound(store, u, MarkFailed, now, m);
  }

  method MarkInbound(store: Store, u: int, todo: RouterTodo, now: int, ghost m: Machine) returns (ok: bool)
    requires IsAt(store, m, u, todo) && (todo.MarkFailed? || todo.MarkProcessed?)
    modifies store
    ensures store.View() == Finish(m, now, old(store.writes), old(store.spare)).db
    ensures ok ==> u in store.View().inbound && (store.View().inbound[u].status.InboundProcessed? <==> todo.MarkProcessed?)
    ensures store.View().routed == old(store.View()).routed && store.View().rows == old(store.View()).rows
  {
    hide Finish, StepRouter, Store.View;
    ghost var writes, spare := store.writes, store.spare;
    RouterWrites(m, u, now);
    ok := store.MarkInboundEventStatus(u, if todo.MarkFailed? then InboundFailed else InboundProcessed);
    if !ok {
      FinishFails(m, now, spare);
      FinishEnds(FailRouter(m), now, spare, 0);
      return;
    }
    FinishSteps(m, now, writes, spare);
    FinishEnds(StepRouter(m, now), now, store.writes, spare);
  }

  method PersistRouteFailure(store: Store, u: int, now: int, ghost m: Machine)
    requires IsAt(store, m, u, PostDead)
    modifies store
    ensures store.View() == Finish(m, now, old(store.writes), old(store.spare)).db
  {
    hide Finish, StepRouter, DeadEnvelope, Store.View;
    ghost var writes, spare := store.writes, store.spare;
    RouterWrites(m, u, now);
    var ok := store.PutEventOutbox(DeadLetterRow(u), DeadEnvelope(u, now), now);
    if !ok {
      FinishFails(m, now, spare);
      MarkFailedQuietly(store, u, now, FailRouter(m));
      return;
    }
    FinishSteps(m, now, writes, spare);
    ok := MarkInbound(store, u, MarkFailed, now, StepRouter(m, now));
  }

  /** The rest of a call behind the output routes of its rule; where their writes gave out only `spare` is left. */
  ghost function Joined(m: Machine, u: int, inbound: Inbound, rule: Rule, d: R.Decision, t: B.Tables, now: int, spare: nat): Machine {
    var p := Materialize(t.world, t.routes, d, now, t.budget);
    var n := JoinRoutes(m, u, inbound, rule, d, t, now);
    if p.outcome.StoreFailed? then Finish(n, now, spare, 0) else Finish(n, now, p.budget, spare)
  }

  /** The whole call on a stored event, run through without anyone in between. */
  ghost function Ended(m: Machine, u: int, a: RouterInput, spare: nat): Machine
    requires u in m.db.inbound
  {
    var inbound := m.db.inbound[u];
    var t := Bound(m, inbound, a);
    if t.outcome.BindFailed? || !R.IsRuleListing(t.world.rules, a.listing) then RouteEvent(m, u, inbound, a)
    else
      match R.ResolveRoute(inbound, a.listing)
      case Matched(rule, d) => Joined(m, u, inbound, rule, d, t, a.now, spare)
      case _ => Finish(RouteEvent(m, u, inbound, a), a.now, t.budget, spare)
  }

  /** `a.listing` is the store's listing of rules once the chat is bound. */
  ghost predicate IsListed(m: Machine, u: int, a: RouterInput)
    requires u in m.db.inbound
  {
    var t := Bound(m, m.db.inbound[u], a);
    t.outcome.BindFailed? || R.IsRuleListing(t.world.rules, a.listing)
  }

  /** What binding leaves for the rest of the call. */
  lemma EndedCases(m: Machine, u: int, a: RouterInput, spare: nat)
    requires m.router.RouterIdle? && u in m.db.inbound && IsListed(m, u, a)
    ensures var inbound := m.db.inbound[u];
      var t := Bound(m, inbound, a);
      if t.outcome.BindFailed? then Ended(m, u, a, spare).db == m.db.(world := t.world, routes := t.routes)
      else
        match R.ResolveRoute(inbound, a.listing)
        case Unmatched =>
          Ended(m, u, a, spare) == Finish(WithTables(m, t.world, t.routes, RouterBusy(u, PostDead)), a.now, t.budget, spare)
        case Invalid =>
          Ended(m, u, a, spare) == Finish(WithTables(m, t.world, t.routes, RouterBusy(u, MarkFailed)), a.now, t.budget, spare)
        case Matched(rule, d) => Ended(m, u, a, spare) == Joined(m, u, inbound, rule, d, t, a.now, spare)
  {
    hide Finish, Bound, R.ResolveRoute, R.IsRuleListing, Joined, JoinRoutes;
  }

  method RouteInputEvent(store: Store, u: int, a: RouterInput, ghost m: Machine) returns (routed: bool)
    requires m.router.RouterIdle? && m.db == store.View() && u in m.db.inbound && a.budget == store.writes
    requires IsListed(m, u, a)
    modifies store
    ensures store.View() == Ended(m, u, a, old(store.spare)).db
    ensures routed ==> u in store.View().inbound && store.View().inbound[u].status.InboundProcessed?
    ensures routed ==> u in store.View().routed && RoutedRow(u) in store.View().rows
  {
    hide Finish, Ended, IsListed, B.Bind, R.ResolveRoute, Materialize, JoinRoutes;
    routed := false;
    var inbound := store.inbound[u];
    EndedCases(m, u, a, store.spare);
    ghost var t := Bound(m, inbound, a);
    if inbound.sourceKind == "telegram" {
      var bound := EnsureTelegramBindingRoute(store, a.config, inbound.payload, a.created, inbound.sourceId, a.now);
      if bound.BindFailed? {
        return;
      }
    }
    hide Bound;
    routed := RouteBoundEvent(store, u, inbound, a, t, m);
  }

  /** The event of a chat that is bound, or that needs no binding. */
  method RouteBoundEvent(store: Store, u: int, inbound: Inbound, a: RouterInput, ghost t: B.Tables, ghost m: Machine) returns (routed: bool)
    requires m.router.RouterIdle? && u in m.db.inbound && inbound == m.db.inbound[u]
    requires t == Bound(m, inbound, a) && !t.outcome.BindFailed? && IsListed(m, u, a)
    requires store.View() == m.db.(world := t.world, routes := t.routes) && store.writes == t.budget
    modifies store
    ensures store.View() == Ended(m, u, a, old(store.spare)).db
    ensures routed ==> u in store.View().inbound && store.View().inbound[u].status.InboundProcessed?
    ensures routed ==> u in store.View().routed && RoutedRow(u) in store.View().rows
  {
    hide Finish, Ended, IsListed, Bound, R.ResolveRoute, Materialize, JoinRoutes, RoutedRecord;
    routed := false;
    EndedCases(m, u, a, store.spare);
    var resolution := R.Resolve(inbound, a.listing);
    match resolution {
      case Unmatched => PersistRouteFailure(store, u, a.now, WithTables(m, t.world, t.routes, RouterBusy(u, PostDead)));
      case Invalid => var _ := MarkInbound(store, u, MarkFailed, a.now, WithTables(m, t.world, t.routes, RouterBusy(u, MarkFailed)));
      case Matched(rule, d) => routed := RouteMatched(store, u, inbound, rule, d, a.now, t, m);
    }
  }

  method RouteMatched(store: Store, u: int, inbound: Inbound, rule: Rule, d: R.Decision, now: int, ghost t: B.Tables, ghost m: Machine)
    returns (routed: bool)
    requires u in m.db.inbound && store.View() == m.db.(world := t.world, routes := t.routes) && store.writes == t.budget
    modifies store
    ensures store.View() == Joined(m, u, inbound, rule, d, t, now, old(store.spare)).db
    ensures routed ==> u in store.View().inbound && store.View().inbound[u].status.InboundProcessed?
    ensures routed ==> u in store.View().routed && RoutedRow(u) in store.View().rows
  {
    hide Finish, Materialize, RoutedRecord;
    routed := false;
    var outcome := MaterializeOutputRoutes(store, d, now);
    ghost var n := JoinRoutes(m, u, inbound, rule, d, t, now);
    if outcome.Done? {
      routed := WriteRoutedEvent(store, u, RoutedRecord(rule, d, inbound, now), now, n);
    } else {
      var _ := MarkInbound(store, u, MarkFailed, now, n);
    }
  }

  /** The handling of a message about a stored event: processed ones are dropped, commands are not routed. */
  ghost function Handled(m: Machine, u: int, a: RouterInput, spare: nat): Machine
    requires u in m.db.inbound
  {
    var inbound := m.db.inbound[u];
    if inbound.status.InboundProcessed? then m
    else if IsControlCommand(inbound.payload) then
      if a.command.None? then m
      else Finish(m.(router := RouterBusy(u, if a.command.value then MarkProcessed(false) else MarkFailed)), a.now, a.budget, spare)
    else Ended(m, u, a, spare)
  }

  /** `a.command` is what handling a control command comes to, when its update can be rebuilt. */
  method HandleWebhookMessage(store: Store, u: int, a: RouterInput, ghost m: Machine)
    requires m.router.RouterIdle? && m.db == store.View() && u in m.db.inbound && a.budget == store.writes
    requires IsListed(m, u, a)
    modifies store
    ensures store.View() == Handled(m, u, a, old(store.spare)).db
    ensures m.db.inbound[u].status.InboundProcessed? ==> store.View() == m.db
    ensures IsControlCommand(m.db.inbound[u].payload) ==>
      store.View().routed == m.db.routed && store.View().rows == m.db.rows
  {
    hide Finish, Ended, IsListed, IsControlCommand;
    var inbound := store.inbound[u];
    if inbound.status.InboundProcessed? {
      return;
    }
    if IsControlCommand(inbound.payload) {
      if a.command.Some? {
        var todo := if a.command.value then MarkProcessed(false) else MarkFailed;
        var _ := MarkInbound(store, u, todo, a.now, m.(router := RouterBusy(u, todo)));
      }
    } else {
      var _ := RouteInputEvent(store, u, a, m);
    }
  }

  lemma BeginIsStep(m: Machine, i: nat, a: RouterInput)
    requires m.router.RouterIdle? && Hears(m, i, EventBus.ROUTER_FILTER)
    requires m.bus[i].payload.kind.MessageReceived? && m.bus[i].payload.ref.InboundRef? && m.bus[i].payload.ref.update in m.db.inbound
    requires var inbound := m.db.inbound[m.bus[i].payload.ref.update];
      !inbound.status.InboundProcessed? && !IsControlCommand(inbound.payload)
    ensures var u := m.bus[i].payload.ref.update;
      BeginRouter(m, i, a) == RouteEvent(m, u, m.db.inbound[u], a)
  {
    hide Hears, RouteEvent, IsControlCommand;
  }

  /** A call run through is a run of the machine, so what holds of every run holds of it. */
  lemma {:induction false} FinishIsRun(run: Execution, now: int, writes: nat, spare: nat) returns (more: Execution)
    requires IsExecution(run)
    ensures IsExecution(more) && run.steps <= more.steps && run.states <= more.states
    ensures End(more) == Finish(End(run), now, writes, spare)
    decreases Rank(End(run).router)
  {
    hide Do, StepRouter, FailRouter, IsExecution;
    ExecutionStates(run);
    var m := End(run);
    if m.router.RouterIdle? {
      more := run;
    } else {
      var s := if writes == 0 then DoFailRouter else DoStepRouter(now);
      AppendIsExecution(run, s);
      RouterSteps(m, s);
      RankFalls(m, now);
      more := FinishIsRun(Append(run, s), now, if writes == 0 then spare else writes - 1, if writes == 0 then 0 else spare);
    }
  }

  lemma RouterSteps(m: Machine, s: Step)
    ensures s.DoStepRouter? ==> Do(m, s) == StepRouter(m, s.now)
    ensures s.DoFailRouter? ==> Do(m, s) == FailRouter(m)
  {
    hide StepRouter, FailRouter;
  }

  lemma RankFalls(m: Machine, now: int)
    requires m.router.RouterBusy?
    ensures Rank(StepRouter(m, now).router) < Rank(m.router) && Rank(FailRouter(m).router) < Rank(m.router)
  {
    hide Post, Mark, DeadEnvelope, RoutedEnvelope;
  }
}

/**
  The binding of a chat to a session. Before an event of a bound chat is routed, the chat gets
  a delivery target, an output route to it, and a rule that sends the chat's events to the session.
 */
module Binding {
  import opened Text
  import opened Json
  import opened Ids
  import opened Records
  import opened Routing
  import opened OutputRoutes

  datatype Config = Config(autoCreate: bool, queueMode: string)

  /** A session made for a private chat. */
  datatype Created = Created(id: string, session: Session)

  datatype BindOutcome = Bound | Unbound | BindFailed

  /** The tables that binding writes; `budget` is the number of writes that will still succeed. */
  datatype Tables = Tables(world: World, routes: map<string, Route>, budget: nat, outcome: BindOutcome)

  function TargetId(chat: int): string {
    "telegram-" + NumericIdToken(chat)
  }

  function RuleId(chat: int): string {
    "rule-telegram-binding-" + NumericIdToken(chat)
  }

  function UserId(user: int): string {
    "telegram-user-" + NumericIdToken(user)
  }

  function AgentOf(b: Records.Binding): string {
    if b.agent.Some? then b.agent.value else "default"
  }

  function Sessions(t: Target): seq<string> {
    if t.allowedSessions.Parsed? then t.allowedSessions.value else []
  }

  /** The target with the session added to a list of allowed sessions that leaves it out. */
  function AdmittingTarget(t: Target, session: string, now: int): Target {
    if Sessions(t) != [] && session !in Sessions(t)
    then t.(allowedSessions := Parsed(Sessions(t) + [session]), updatedAt := now)
    else t
  }

  function NewTarget(chat: int, b: Records.Binding, session: string, now: int): Target {
    Target("telegram", Integer(chat), b.scope,
           if b.owner.Some? then Some(UserId(b.owner.value)) else None,
           Parsed([]), Parsed([session]), "full_text", now)
  }

  function NewRoute(chat: int, session: string, now: int): Route {
    Route(session, TargetId(chat), "full_text", true, Some(0), Some(""), now, now)
  }

  function BindingPolicy(chat: int, b: Records.Binding, session: string): Policy {
    Policy(Some(session), Some(AgentOf(b)), Some(b.queueMode), Some([TargetId(chat)]), Some("full_text"))
  }

  function SourceFilter(sourceId: string): Parsed<Json> {
    Parsed(Obj([Field("source_id", Str(sourceId))]))
  }

  function BindingRule(existing: Option<Rule>, chat: int, b: Records.Binding, session: string, sourceId: string, now: int): Rule {
    if existing.Some? then
      existing.value.(enabled := true, sourceFilter := SourceFilter(sourceId),
                      policy := Parsed(BindingPolicy(chat, b, session)), updatedAt := now)
    else
      Rule(RuleId(chat), 900_000, true, SourceFilter(sourceId), Parsed(Obj([])), Parsed(Obj([])),
           Parsed(BindingPolicy(chat, b, session)), now)
  }

  function BindTarget(t: Tables, chat: int, b: Records.Binding, session: string, now: int): Tables {
    var id := TargetId(chat);
    var targets := t.world.targets;
    var wanted := if id in targets then AdmittingTarget(targets[id], session, now) else NewTarget(chat, b, session, now);
    if id in targets && wanted == targets[id] then t
    else if t.budget == 0 then t.(outcome := BindFailed)
    else t.(world := t.world.(targets := targets[id := wanted]), budget := t.budget - 1)
  }

  function BindRoute(t: Tables, chat: int, session: string, now: int): Tables {
    var id := RouteId(session, TargetId(chat));
    if t.outcome.BindFailed? || id in t.routes then t
    else if t.budget == 0 then t.(outcome := BindFailed)
    else t.(routes := t.routes[id := NewRoute(chat, session, now)], budget := t.budget - 1)
  }

  function BindRule(t: Tables, chat: int, b: Records.Binding, session: string, sourceId: string, now: int): Tables {
    var rules := t.world.rules;
    var existing := if RuleId(chat) in rules then Some(rules[RuleId(chat)]) else None;
    if t.outcome.BindFailed? then t
    else if t.budget == 0 then t.(outcome := BindFailed)
    else t.(world := t.world.(rules := rules[RuleId(chat) := BindingRule(existing, chat, b, session, sourceId, now)]),
            budget := t.budget - 1, outcome := Bound)
  }

  /** The writes for a chat whose binding names a session: target, then route, then rule. */
  function BindTo(t: Tables, chat: int, b: Records.Binding, session: string, sourceId: string, now: int): Tables {
    BindRule(BindRoute(BindTarget(t, chat, b, session, now), chat, session, now), chat, b, session, sourceId, now)
  }

  /** A private chat of an activated user may be given a session of its own. */
  predicate MayCreate(config: Config, world: World, payload: Json) {
    var chatType := GetString(payload, "chat_type");
    var user := GetInteger(payload, "telegram_user_id");
    && config.autoCreate
    && (chatType.Some? ==> chatType.value == "private")
    && user.Some? && user.value in world.activated
  }

  function PrivateBinding(config: Config, existing: Option<Records.Binding>, user: int, session: string): Records.Binding {
    Records.Binding(
      "private",
      Some(user),
      Some(session),
      if existing.Some? then existing.value.agent else None,
      if existing.Some? then existing.value.queueMode else config.queueMode,
      Or(if existing.Some? then existing.value.deliveredAt else None, Some(0)),
      Or(if existing.Some? then existing.value.deliveredId else None, Some("")))
  }

  /** `created` is the session that creating one yields, if that succeeds. */
  function Create(config: Config, t: Tables, payload: Json, chat: int, created: Option<Created>, sourceId: string, now: int): Tables {
    var bindings := t.world.bindings;
    var existing := if chat in bindings then Some(bindings[chat]) else None;
    if !MayCreate(config, t.world, payload) then t.(outcome := Unbound)
    else if created.None? then t.(outcome := BindFailed)
    else
      var user := GetInteger(payload, "telegram_user_id").value;
      var session := created.value.id;
      var b := PrivateBinding(config, existing, user, session);
      var housed := t.(world := t.world.(sessions := t.world.sessions[session := created.value.session]));
      if t.budget == 0 then housed.(outcome := BindFailed)
      else
        BindTo(housed.(world := housed.world.(bindings := bindings[chat := b]), budget := t.budget - 1),
               chat, b, session, sourceId, now)
  }

  function Bind(config: Config, t: Tables, payload: Parsed<Json>, created: Option<Created>, sourceId: string, now: int): Tables {
    if payload.Malformed? then t.(outcome := BindFailed)
    else
      var chat := GetInteger(payload.value, "chat_id");
      if chat.None? then t.(outcome := Unbound)
      else
        var bindings := t.world.bindings;
        if chat.value in bindings && bindings[chat.value].session.Some?
        then BindTo(t, chat.value, bindings[chat.value], bindings[chat.value].session.value, sourceId, now)
        else Create(config, t, payload.value, chat.value, created, sourceId, now)
  }

  /** Two chats never share a target. */
  lemma TargetIdInjective(a: int, b: int)
    requires TargetId(a) == TargetId(b)
    ensures a == b
  {
    hide NumericIdToken;
    SamePrefix("telegram-", NumericIdToken(a), NumericIdToken(b));
    NumericIdTokenInjective(a, b);
  }

  /** `after` adds routes to `before` that have delivered nothing yet, and touches no other. */
  predicate AddsFreshRoutes(before: map<string, Route>, after: map<string, Route>) {
    && (forall id | id in before :: id in after && after[id] == before[id])
    && (forall id | id in after && id !in before ::
          after[id].deliveredAt == Some(0) && after[id].deliveredId == Some(""))
  }

  lemma BindToAdvances(t: Tables, chat: int, b: Records.Binding, session: string, sourceId: string, now: int)
    ensures var u := BindTo(t, chat, b, session, sourceId, now);
      AddsFreshRoutes(t.routes, u.routes) && u.budget <= t.budget
  {
    hide RouteId, TargetId, RuleId, AdmittingTarget, NewTarget, BindingRule;
  }

  lemma BindAdvances(config: Config, t: Tables, payload: Parsed<Json>, created: Option<Created>, sourceId: string, now: int)
    ensures var u := Bind(config, t, payload, created, sourceId, now);
      AddsFreshRoutes(t.routes, u.routes) && u.budget <= t.budget
  {
    hide AddsFreshRoutes, BindTo, MayCreate, PrivateBinding, GetInteger;
    NothingAdded(t.routes);
    if payload.Parsed? && GetInteger(payload.value, "chat_id").Some? {
      var chat := GetInteger(payload.value, "chat_id").value;
      if chat in t.world.bindings && t.world.bindings[chat].session.Some? {
        BindToAdvances(t, chat, t.world.bindings[chat], t.world.bindings[chat].session.value, sourceId, now);
      } else {
        CreateAdvances(config, t, payload.value, chat, created, sourceId, now);
      }
    }
  }

  lemma NothingAdded(routes: map<string, Route>)
    ensures AddsFreshRoutes(routes, routes)
  {
  }

  lemma CreateAdvances(config: Config, t: Tables, payload: Json, chat: int, created: Option<Created>, sourceId: string, now: int)
    ensures var u := Create(config, t, payload, chat, created, sourceId, now);
      AddsFreshRoutes(t.routes, u.routes) && u.budget <= t.budget
  {
    hide AddsFreshRoutes, BindTo, PrivateBinding, GetInteger;
    NothingAdded(t.routes);
    if MayCreate(config, t.world, payload) && created.Some? && t.budget > 0 {
      var bindings := t.world.bindings;
      var existing := if chat in bindings then Some(bindings[chat]) else None;
      var session := created.value.id;
      var b := PrivateBinding(config, existing, GetInteger(payload, "telegram_user_id").value, session);
      var housed := t.(world := t.world.(sessions := t.world.sessions[session := created.value.session]));
      var bound := housed.(world := housed.world.(bindings := bindings[chat := b]), budget := t.budget - 1);
      BindToAdvances(bound, chat, b, session, sourceId, now);
    }
  }

  /** The target admits the session: its list of sessions is well-formed and empty or names it. */
  predicate Admits(t: Target, session: string) {
    t.allowedSessions.Parsed? && (t.allowedSessions.value == [] || session in t.allowedSessions.value)
  }

  /** A chat is bound to a session when nothing is left for binding to write but timestamps. */
  predicate IsBound(world: World, routes: map<string, Route>, chat: int, b: Records.Binding, session: string, sourceId: string) {
    && TargetId(chat) in world.targets
    && AdmittingTarget(world.targets[TargetId(chat)], session, 0) == world.targets[TargetId(chat)]
    && RouteId(session, TargetId(chat)) in routes
    && RuleId(chat) in world.rules
    && var rule := world.rules[RuleId(chat)];
    && rule.enabled && rule.sourceFilter == SourceFilter(sourceId)
    && rule.policy == Parsed(BindingPolicy(chat, b, session))
  }

  lemma AdmittingAgain(t: Target, session: string, now: int, later: int)
    ensures AdmittingTarget(AdmittingTarget(t, session, now), session, later) == AdmittingTarget(t, session, now)
    ensures AdmittingTarget(t, session, now) == t <==> (Sessions(t) == [] || session in Sessions(t))
    ensures t.allowedSessions.Parsed? ==> Admits(AdmittingTarget(t, session, now), session)
  {
    var s := Sessions(t);
    if s != [] && session !in s {
      assert (s + [session])[|s|] == session;
      assert |s + [session]| > |s|;
    }
  }

  lemma BindTargetAdmits(t: Tables, chat: int, b: Records.Binding, session: string, now: int)
    ensures var u := BindTarget(t, chat, b, session, now);
      && u.routes == t.routes && u.world.rules == t.world.rules && (u.outcome == t.outcome || u.outcome.BindFailed?)
      && (u.outcome.BindFailed? || (
            && TargetId(chat) in u.world.targets
            && AdmittingTarget(u.world.targets[TargetId(chat)], session, 0) == u.world.targets[TargetId(chat)]
            && (!(TargetId(chat) in t.world.targets && t.world.targets[TargetId(chat)].allowedSessions.Malformed?)
                ==> Admits(u.world.targets[TargetId(chat)], session))))
  {
    hide TargetId, AdmittingTarget;
    if TargetId(chat) in t.world.targets {
      AdmittingAgain(t.world.targets[TargetId(chat)], session, now, 0);
    } else {
      AdmittingAgain(NewTarget(chat, b, session, now), session, now, 0);
    }
  }

  lemma BoundIsBound(t: Tables, chat: int, b: Records.Binding, session: string, sourceId: string, now: int)
    requires BindTo(t, chat, b, session, sourceId, now).outcome.Bound? && !t.outcome.BindFailed?
    ensures var u := BindTo(t, chat, b, session, sourceId, now);
      && IsBound(u.world, u.routes, chat, b, session, sourceId)
      && (!(TargetId(chat) in t.world.targets && t.world.targets[TargetId(chat)].allowedSessions.Malformed?)
          ==> Admits(u.world.targets[TargetId(chat)], session))
  {
    hide RouteId, TargetId, RuleId, AdmittingTarget, SourceFilter, BindingPolicy, BindTarget, Admits;
    BindTargetAdmits(t, chat, b, session, now);
  }

  /** Binding a bound chat again changes nothing but the rule's time of update. */
  lemma BindAgain(t: Tables, chat: int, b: Records.Binding, session: string, sourceId: string, now: int)
    requires IsBound(t.world, t.routes, chat, b, session, sourceId) && t.budget > 0 && !t.outcome.BindFailed?
    ensures var u := BindTo(t, chat, b, session, sourceId, now);
      var id := RuleId(chat);
      && u == t.(world := t.world.(rules := t.world.rules[id := t.world.rules[id].(updatedAt := now)]),
                 budget := t.budget - 1, outcome := Bound)
  {
    hide RouteId, TargetId, RuleId, AdmittingTarget, SourceFilter, BindingPolicy;
    AdmittingAgain(t.world.targets[TargetId(chat)], session, 0, 0);
    AdmittingAgain(t.world.targets[TargetId(chat)], session, now, 0);
  }

  /** The decision of a bound chat's rule: the chat's session and the chat's target. */
  lemma BoundDecision(world: World, routes: map<string, Route>, chat: int, b: Records.Binding, session: string,
                      sourceId: string)
    requires IsBound(world, routes, chat, b, session, sourceId)
    ensures var d := DecisionOf(world.rules[RuleId(chat)]);
      && (d.Some? <==> !IsBlank(session) && !IsBlank(AgentOf(b)))
      && (d.Some? ==> d.value.session == session && d.value.targets == [TargetId(chat)])
  {
    hide RouteId, TargetId, RuleId, AdmittingTarget, SourceFilter, IsBlank, AgentOf;
    FullTextIsFormat();
  }

  lemma FullTextIsFormat()
    ensures FormatOf(Some("full_text")) == Some("full_text")
  {
    assert !IsWhite('f') && !IsWhite('t');
    assert TrimStart("full_text") == "full_text";
  }

  /** Routing to one target leaves its canonical route enabled and joined to the session. */
  lemma OneTargetReached(world: World, routes: map<string, Route>, d: Decision, target: string, now: int, budget: nat)
    requires d.targets == [target] && target in world.targets && budget > 0
    requires RouteId(d.session, target) in routes
    ensures var m := Materialize(world, routes, d, now, budget);
      && m.outcome.Done? && RouteId(d.session, target) in m.routes
      && IsCandidate(m.routes, RouteId(d.session, target), d.session, target)
  {
    hide RouteId, FirstRoute;
    var latest := Transcripts.Latest(Transcripts.OfSession(world.transcripts, d.session));
    var p := Progress(routes, budget, Done);
    assert RouteToFirst(world.targets, p, d, 0, latest, now) == p;
    assert d.targets[0] == target;
  }

  /**
    An event of a bound chat whose rule is the first that takes it: after binding and routing,
    the session has an enabled route to the chat's target, and the target admits the session
    exactly when its list was not malformed to begin with.
   */
  lemma BoundChatIsReached(t: Tables, chat: int, b: Records.Binding, session: string, sourceId: string, now: int,
                           inbound: Inbound, listing: seq<Rule>)
    requires !t.outcome.BindFailed? && BindTo(t, chat, b, session, sourceId, now).outcome.Bound?
    requires var u := BindTo(t, chat, b, session, sourceId, now);
      && u.budget > 0 && IsRuleListing(u.world.rules, listing)
      && var r := ResolveRoute(inbound, listing);
      r.Matched? && r.rule.id == RuleId(chat)
    ensures var u := BindTo(t, chat, b, session, sourceId, now);
      var d := ResolveRoute(inbound, listing).decision;
      var m := Materialize(u.world, u.routes, d, now, u.budget);
      && d.session == session && m.outcome.Done?
      && IsCandidate(m.routes, RouteId(session, TargetId(chat)), session, TargetId(chat))
      && TargetId(chat) in u.world.targets
      && (Admits(u.world.targets[TargetId(chat)], session)
          <==> (TargetId(chat) in t.world.targets ==> t.world.targets[TargetId(chat)].allowedSessions.Parsed?))
  {
    hide BindTo, Materialize, RouteId, TargetId, RuleId, ResolveRoute, AdmittingTarget, DecisionOf;
    var u := BindTo(t, chat, b, session, sourceId, now);
    BoundIsBound(t, chat, b, session, sourceId, now);
    if TargetId(chat) in t.world.targets && t.world.targets[TargetId(chat)].allowedSessions.Malformed? {
      StillMalformed(t, chat, b, session, sourceId, now);
    }
    MatchedRule(u.world.rules, listing, inbound);
    BoundDecision(u.world, u.routes, chat, b, session, sourceId);
    var d := ResolveRoute(inbound, listing).decision;
    OneTargetReached(u.world, u.routes, d, TargetId(chat), now, u.budget);
  }

  /** A malformed list reads as an empty one and is left as it is. */
  lemma StillMalformed(t: Tables, chat: int, b: Records.Binding, session: string, sourceId: string, now: int)
    requires TargetId(chat) in t.world.targets && t.world.targets[TargetId(chat)].allowedSessions.Malformed?
    ensures var u := BindTo(t, chat, b, session, sourceId, now);
      u.world.targets == t.world.targets
  {
    hide RouteId, TargetId, RuleId, SourceFilter, BindingPolicy;
  }
}

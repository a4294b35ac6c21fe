/** What binding a chat writes: where its target sends, what its route starts with, and what its rule decides. */
module BindingWritten {
  import opened Text
  import opened Json
  import opened Ids
  import opened Records
  import opened Routing
  import opened OutputRoutes
  import opened Binding
  import Admission

  predicate AreDigits(s: string) {
    s != "" && forall i | 0 <= i < |s| :: IsDigit(s[i])
  }

  /** The text reads as this integer. */
  predicate IsDecimalOf(s: string, n: int) {
    if n < 0 then s != "" && s[0] == '-' && AreDigits(s[1..]) && Value(s[1..]) == -n
    else AreDigits(s) && Value(s) == n
  }

  lemma IntegerReads(n: int)
    ensures IsDecimalOf(Integer(n), n)
  {
    hide Decimal, Value;
    ValueOfDecimal(if n < 0 then -n else n);
  }

  /** How a number stands in an identifier: its digits, with an `n` in front when it is negative. */
  predicate IsTokenOf(s: string, n: int) {
    if n < 0 then s != "" && s[0] == 'n' && AreDigits(s[1..]) && Value(s[1..]) == -n
    else AreDigits(s) && Value(s) == n
  }

  lemma TokenReads(n: int)
    ensures IsTokenOf(NumericIdToken(n), n)
  {
    hide Decimal, Value;
    ValueOfDecimal(if n < 0 then -n else n);
  }

  /** An identifier of a chat or a user: a prefix and the number's token. */
  predicate IsIdOf(id: string, prefix: string, n: int) {
    |prefix| <= |id| && id[..|prefix|] == prefix && IsTokenOf(id[|prefix|..], n)
  }

  lemma PrefixedId(prefix: string, n: int)
    ensures IsIdOf(prefix + NumericIdToken(n), prefix, n)
  {
    TokenReads(n);
    hide NumericIdToken, IsTokenOf;
    assert (prefix + NumericIdToken(n))[|prefix|..] == NumericIdToken(n);
  }

  // The target

  /** A target that sends to the chat, for its owner and session, with everything in full. */
  predicate SendsTo(t: Target, chat: int, b: Records.Binding, session: string, now: int) {
    && t.kind == "telegram" && IsDecimalOf(t.address, chat) && t.scope == b.scope
    && (match b.owner
        case None => t.owner == None
        case Some(user) => t.owner.Some? && IsIdOf(t.owner.value, "telegram-user-", user))
    && t.allowedAgents == Parsed([]) && t.allowedSessions == Parsed([session]) && t.format == "full_text" && t.updatedAt == now
  }

  /** A target that was there keeps all but its list of sessions, to which the session is added where it is missing from one. */
  predicate KeepsTarget(before: Target, after: Target, session: string, now: int) {
    if before.allowedSessions.Parsed? && before.allowedSessions.value != [] && session !in before.allowedSessions.value
    then after == before.(allowedSessions := Parsed(before.allowedSessions.value + [session]), updatedAt := now)
    else after == before
  }

  lemma NewTargetSends(chat: int, b: Records.Binding, session: string, now: int)
    ensures SendsTo(NewTarget(chat, b, session, now), chat, b, session, now)
  {
    hide IsDecimalOf, Integer, NumericIdToken, IsIdOf;
    IntegerReads(chat);
    if b.owner.Some? {
      PrefixedId("telegram-user-", b.owner.value);
    }
  }

  // The route

  /** A route to the target from which all that the session says from now on goes out. */
  predicate StartsFresh(r: Route, target: string, session: string, now: int) {
    r.session == session && r.target == target && r.format == "full_text" && r.enabled && r.deliveredAt == Some(0) && r.deliveredId == Some("")
    && r.createdAt == now && r.updatedAt == now
  }

  // The rule

  /** The rule takes what comes from the source for the binding's session, agent and queue, and sends answers to the target in full. */
  ghost predicate RoutesTo(rule: Rule, target: string, b: Records.Binding, session: string, sourceId: string) {
    && rule.enabled
    && (forall inbound :: Admission.SourceAdmits(rule.sourceFilter, inbound) <==> inbound.sourceId == sourceId)
    && rule.policy == Parsed(Policy(Some(session),
         Some(match b.agent case Some(agent) => agent case None => "default"), Some(b.queueMode), Some([target]), Some("full_text")))
  }

  /** A new rule comes behind all of a lower number and asks nothing else; one that was there keeps its place and what else it asks. */
  predicate KeepsPlace(before: Option<Rule>, after: Rule) {
    match before
    case None => after.priority == 900_000 && after.operatorFilter == Parsed(Obj([])) && after.condition == Parsed(Obj([]))
    case Some(rule) => after.id == rule.id && after.priority == rule.priority && after.operatorFilter == rule.operatorFilter && after.condition == rule.condition
  }

  lemma SourceFilterIs(sourceId: string)
    ensures forall inbound :: Admission.SourceAdmits(SourceFilter(sourceId), inbound) <==> inbound.sourceId == sourceId
  {
    hide Admission.SourceAdmits, SourceMatches;
    forall inbound
      ensures Admission.SourceAdmits(SourceFilter(sourceId), inbound) <==> inbound.sourceId == sourceId
    {
      SourceIdFilter(sourceId, inbound);
      Admission.SourceIff(SourceFilter(sourceId), inbound);
    }
  }

  lemma BindingRuleRoutes(existing: Option<Rule>, chat: int, b: Records.Binding, session: string, sourceId: string, now: int)
    ensures var rule := BindingRule(existing, chat, b, session, sourceId, now);
      RoutesTo(rule, TargetId(chat), b, session, sourceId) && KeepsPlace(existing, rule)
  {
    hide SourceFilter, TargetId, RuleId;
    SourceFilterIs(sourceId);
  }

  // All three

  /** What binding has written, against what was there: target, route and rule of the chat, under its identifiers. */
  ghost predicate IsWritten(before: Tables, after: Tables, chat: int, b: Records.Binding, session: string, sourceId: string, now: int) {
    exists target, rule :: IsIdOf(target, "telegram-", chat) && IsIdOf(rule, "rule-telegram-binding-", chat)
      && AreWritten(before, after, target, "route-" + session + "-" + target, rule, chat, b, session, sourceId, now)
  }

  ghost predicate AreWritten(before: Tables, after: Tables, target: string, route: string, rule: string,
                             chat: int, b: Records.Binding, session: string, sourceId: string, now: int) {
    && target in after.world.targets && route in after.routes && rule in after.world.rules
    && (if target in before.world.targets then KeepsTarget(before.world.targets[target], after.world.targets[target], session, now)
        else SendsTo(after.world.targets[target], chat, b, session, now))
    && (if route in before.routes then after.routes[route] == before.routes[route]
        else StartsFresh(after.routes[route], target, session, now))
    && RoutesTo(after.world.rules[rule], target, b, session, sourceId)
    && KeepsPlace(if rule in before.world.rules then Some(before.world.rules[rule]) else None, after.world.rules[rule])
  }

  lemma TargetWritten(t: Tables, chat: int, b: Records.Binding, session: string, now: int)
    ensures var u := BindTarget(t, chat, b, session, now);
      var id := TargetId(chat);
      && u.routes == t.routes && u.world == t.world.(targets := u.world.targets)
      && (!u.outcome.BindFailed? ==>
            && id in u.world.targets
            && (if id in t.world.targets then KeepsTarget(t.world.targets[id], u.world.targets[id], session, now)
                else SendsTo(u.world.targets[id], chat, b, session, now)))
  {
    hide TargetId, NewTarget, SendsTo;
    NewTargetSends(chat, b, session, now);
  }

  /** Binding that ends well has written all of it. */
  lemma BindToWrites(t: Tables, chat: int, b: Records.Binding, session: string, sourceId: string, now: int)
    requires !t.outcome.BindFailed? && BindTo(t, chat, b, session, sourceId, now).outcome.Bound?
    ensures IsWritten(t, BindTo(t, chat, b, session, sourceId, now), chat, b, session, sourceId, now)
  {
    hide TargetId, RuleId, NumericIdToken, IsIdOf, BindTarget, BindingRule, SendsTo, KeepsTarget, RoutesTo, KeepsPlace;
    var u := BindTo(t, chat, b, session, sourceId, now);
    IdsAre(chat);
    TargetWritten(t, chat, b, session, now);
    var existing := if RuleId(chat) in t.world.rules then Some(t.world.rules[RuleId(chat)]) else None;
    BindingRuleRoutes(existing, chat, b, session, sourceId, now);
    assert AreWritten(t, u, TargetId(chat), "route-" + session + "-" + TargetId(chat), RuleId(chat), chat, b, session, sourceId, now);
  }

  lemma IdsAre(chat: int)
    ensures IsIdOf(TargetId(chat), "telegram-", chat) && IsIdOf(RuleId(chat), "rule-telegram-binding-", chat)
  {
    PrefixedId("telegram-", chat);
    PrefixedId("rule-telegram-binding-", chat);
  }

  /** The binding of a private chat that is given a session keeps what the chat's old one held. */
  predicate IsPrivateBinding(b: Records.Binding, config: Config, earlier: Option<Records.Binding>, user: int, session: string) {
    && b.scope == "private" && b.owner == Some(user) && b.session == Some(session)
    && (match earlier
        case None => b.agent == None && b.queueMode == config.queueMode && b.deliveredAt == Some(0) && b.deliveredId == Some("")
        case Some(o) =>
          && b.agent == o.agent && b.queueMode == o.queueMode
          && b.deliveredAt == (if o.deliveredAt.Some? then o.deliveredAt else Some(0))
          && b.deliveredId == (if o.deliveredId.Some? then o.deliveredId else Some("")))
  }

  /** A chat that has no session is given one only when it is private, of an activated user, and the program may do so. */
  ghost predicate IsGiven(config: Config, t: Tables, payload: Json, chat: int, created: Created, b: Records.Binding, u: Tables) {
    && config.autoCreate
    && (forall kind | Admission.HasField(payload, "chat_type", Str(kind)) :: kind == "private")
    && GetInteger(payload, "telegram_user_id").Some? && GetInteger(payload, "telegram_user_id").value in t.world.activated
    && IsPrivateBinding(b, config, if chat in t.world.bindings then Some(t.world.bindings[chat]) else None,
                        GetInteger(payload, "telegram_user_id").value, created.id)
    && chat in u.world.bindings && u.world.bindings[chat] == b
    && created.id in u.world.sessions && u.world.sessions[created.id] == created.session
  }

  /** Binding that ends well is of the payload's chat, to the session of its stored binding or of one it is given now. */
  lemma BindWrites(config: Config, t: Tables, payload: Parsed<Json>, created: Option<Created>, sourceId: string, now: int)
    returns (chat: int, b: Records.Binding, session: string)
    requires !t.outcome.BindFailed? && Bind(config, t, payload, created, sourceId, now).outcome.Bound? && t.outcome.Unbound?
    ensures payload.Parsed? && GetInteger(payload.value, "chat_id") == Some(chat) && b.session == Some(session)
    ensures var u := Bind(config, t, payload, created, sourceId, now);
      && IsWritten(t, u, chat, b, session, sourceId, now)
      && (if chat in t.world.bindings && t.world.bindings[chat].session.Some? then b == t.world.bindings[chat]
          else created.Some? && session == created.value.id && IsGiven(config, t, payload.value, chat, created.value, b, u))
  {
    hide BindTo, MayCreate, PrivateBinding, GetInteger, IsGiven, IsWritten;
    chat := GetInteger(payload.value, "chat_id").value;
    if chat in t.world.bindings && t.world.bindings[chat].session.Some? {
      b := t.world.bindings[chat];
      session := b.session.value;
      BindToWrites(t, chat, b, session, sourceId, now);
    } else {
      session := created.value.id;
      b := GivenWrites(config, t, payload.value, chat, created.value, sourceId, now);
    }
  }

  lemma GivenWrites(config: Config, t: Tables, payload: Json, chat: int, created: Created, sourceId: string, now: int)
    returns (b: Records.Binding)
    requires t.outcome.Unbound? && Create(config, t, payload, chat, Some(created), sourceId, now).outcome.Bound?
    ensures var u := Create(config, t, payload, chat, Some(created), sourceId, now);
      IsWritten(t, u, chat, b, created.id, sourceId, now) && IsGiven(config, t, payload, chat, created, b, u) && b.session == Some(created.id)
  {
    hide BindTo, GetInteger, IsWritten, Admission.HasField, GetString;
    var earlier := if chat in t.world.bindings then Some(t.world.bindings[chat]) else None;
    var user := GetInteger(payload, "telegram_user_id").value;
    b := PrivateBinding(config, earlier, user, created.id);
    var housed := t.(world := t.world.(sessions := t.world.sessions[created.id := created.session]));
    var bound := housed.(world := housed.world.(bindings := housed.world.bindings[chat := b]), budget := t.budget - 1);
    var u := BindTo(bound, chat, b, created.id, sourceId, now);
    assert Create(config, t, payload, chat, Some(created), sourceId, now) == u;
    BindToWrites(bound, chat, b, created.id, sourceId, now);
    WrittenSince(t, bound, u, chat, b, created.id, sourceId, now);
    BindToKeeps(bound, chat, b, created.id, sourceId, now);
    forall kind ensures GetString(payload, "chat_type") == Some(kind) <==> Admission.HasField(payload, "chat_type", Str(kind)) {
      Admission.GetStringIs(payload, "chat_type", kind);
    }
  }

  lemma WrittenSince(t: Tables, bound: Tables, u: Tables, chat: int, b: Records.Binding, session: string, sourceId: string, now: int)
    requires IsWritten(bound, u, chat, b, session, sourceId, now)
    requires bound.world.targets == t.world.targets && bound.world.rules == t.world.rules && bound.routes == t.routes
    ensures IsWritten(t, u, chat, b, session, sourceId, now)
  {
    hide SendsTo, KeepsTarget, RoutesTo, KeepsPlace, StartsFresh, IsIdOf;
    var target, rule :| IsIdOf(target, "telegram-", chat) && IsIdOf(rule, "rule-telegram-binding-", chat)
      && AreWritten(bound, u, target, "route-" + session + "-" + target, rule, chat, b, session, sourceId, now);
    assert AreWritten(t, u, target, "route-" + session + "-" + target, rule, chat, b, session, sourceId, now);
  }

  lemma BindToKeeps(t: Tables, chat: int, b: Records.Binding, session: string, sourceId: string, now: int)
    ensures var u := BindTo(t, chat, b, session, sourceId, now);
      u.world.bindings == t.world.bindings && u.world.sessions == t.world.sessions
  {
    hide TargetId, RuleId, AdmittingTarget, NewTarget, BindingRule, RouteId;
  }
}

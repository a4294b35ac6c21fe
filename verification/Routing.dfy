/** Choosing a rule for an inbound event, and the output routes that the rule asks for. */
module Routing {
  import opened Text
  import opened Json
  import opened Records

  datatype Check = Yes | No | Wrong

  datatype Decision = Decision(
    session: string,
    agent: string,
    queuePolicy: string,
    priority: int,
    targets: seq<string>,
    format: string)

  /** What one rule says of an event: pass it over, refuse it as ill-formed, or take it. */
  datatype Verdict = Skip | Bad | Take(decision: Decision)

  datatype Resolution = Unmatched | Invalid | Matched(rule: Rule, decision: Decision)

  function SourceMatches(filter: Parsed<Json>, inbound: Inbound): Check {
    if filter.Malformed? then Wrong
    else if !filter.value.Obj? then No
    else
      var id := GetString(filter.value, "source_id");
      var kind := GetString(filter.value, "source_kind");
      if id.Some? && inbound.sourceId != id.value then No
      else if kind.Some? && inbound.sourceKind != kind.value then No
      else Yes
  }

  function OperatorMatches(filter: Parsed<Json>, inbound: Inbound): Check {
    if filter.Malformed? then Wrong
    else if !filter.value.Obj? then No
    else
      var operator := GetString(filter.value, "operator_id");
      if operator.Some? && inbound.operatorId != operator then No else Yes
  }

  predicate PartAt(text: string, i: nat, part: string) {
    i + |part| <= |text| && text[i..i + |part|] == part
  }

  predicate Contains(text: string, part: string) {
    exists i | 0 <= i <= |text| :: PartAt(text, i, part)
  }

  function PayloadOf(inbound: Inbound): Json {
    if inbound.payload.Parsed? then inbound.payload.value else Obj([])
  }

  predicate TextAllows(condition: Json, payload: Json) {
    var expected := GetString(condition, "text_contains");
    var text := GetString(payload, "text");
    expected.Some? ==> text.Some? && Contains(text.value, expected.value)
  }

  predicate FieldsAllow(expected: seq<Field>, payload: Json) {
    forall f | f in expected :: Get(payload, f.key) == Some(f.value)
  }

  predicate KeysSupported(fields: seq<Field>) {
    forall f | f in fields :: f.key == "text_contains" || f.key == "payload"
  }

  function ConditionMatches(condition: Parsed<Json>, inbound: Inbound): Check {
    if condition.Malformed? then Wrong
    else if !condition.value.Obj? then No
    else if condition.value.fields == [] then Yes
    else
      var payload := PayloadOf(inbound);
      var expected := Get(condition.value, "payload");
      if !TextAllows(condition.value, payload) then No
      else if expected.Some? && !expected.value.Obj? then Wrong
      else if expected.Some? && !FieldsAllow(expected.value.fields, payload) then No
      else if KeysSupported(condition.value.fields) then Yes
      else Wrong
  }

  function FormatOf(name: Option<string>): Option<string> {
    var f := Trim(if name.Some? then name.value else "full_text");
    if f == "full" || f == "full_text" then Some("full_text")
    else if f == "summary" || f == "status_only" || f == "errors_only" then Some(f)
    else None
  }

  predicate IsGiven(field: Option<string>) {
    field.Some? && !IsBlank(field.value)
  }

  function DecisionOf(rule: Rule): Option<Decision> {
    if rule.policy.Malformed? then None
    else
      var p := rule.policy.value;
      var format := FormatOf(p.format);
      if !IsGiven(p.session) || !IsGiven(p.agent) || format.None? then None
      else Some(Decision(p.session.value, p.agent.value,
                         if p.queuePolicy.Some? then p.queuePolicy.value else "fifo",
                         rule.priority,
                         if p.targets.Some? then p.targets.value else [],
                         format.value))
  }

  /** The three checks in order; an ill-formed one counts only when the ones before it hold. */
  function Combined(source: Check, operator: Check, condition: Check): Check {
    if source != Yes then source else if operator != Yes then operator else condition
  }

  function CheckOf(rule: Rule, inbound: Inbound): Check {
    Combined(SourceMatches(rule.sourceFilter, inbound), OperatorMatches(rule.operatorFilter, inbound),
             ConditionMatches(rule.condition, inbound))
  }

  function VerdictOf(rule: Rule, inbound: Inbound): Verdict {
    match CheckOf(rule, inbound)
    case No => Skip
    case Wrong => Bad
    case Yes => if DecisionOf(rule).Some? then Take(DecisionOf(rule).value) else Bad
  }

  function ResolveRoute(inbound: Inbound, rules: seq<Rule>): Resolution {
    if rules == [] then Unmatched
    else
      match VerdictOf(rules[0], inbound)
      case Skip => ResolveRoute(inbound, rules[1..])
      case Bad => Invalid
      case Take(decision) => Matched(rules[0], decision)
  }

  /** The first rule that is not passed over decides, and all before it were passed over. */
  lemma {:induction false} FirstRuleDecides(inbound: Inbound, rules: seq<Rule>) returns (first: nat)
    ensures first <= |rules|
    ensures forall i | 0 <= i < first :: VerdictOf(rules[i], inbound) == Skip
    ensures first < |rules| ==> VerdictOf(rules[first], inbound) != Skip
    ensures var r := ResolveRoute(inbound, rules);
      if first == |rules| then r == Unmatched
      else r == match VerdictOf(rules[first], inbound)
                case Take(decision) => Matched(rules[first], decision)
                case _ => Invalid
  {
    hide VerdictOf;
    if rules == [] {
      first := 0;
    } else if VerdictOf(rules[0], inbound) == Skip {
      var f := FirstRuleDecides(inbound, rules[1..]);
      first := f + 1;
      forall i | 0 <= i < first
        ensures VerdictOf(rules[i], inbound) == Skip
      {
        if i > 0 {
          assert rules[i] == rules[1..][i - 1];
        }
      }
    } else {
      first := 0;
    }
  }

  predicate NoSooner(a: Rule, b: Rule) {
    a.priority < b.priority || (a.priority == b.priority && a.updatedAt >= b.updatedAt)
  }

  /** A listing of the enabled rules as the store orders them; rules that tie may come in any order. */
  predicate IsRuleListing(rules: map<string, Rule>, listing: seq<Rule>) {
    && (forall r | r in listing :: r.id in rules && rules[r.id] == r && r.enabled)
    && (forall id | id in rules && rules[id].enabled :: rules[id] in listing)
    && (forall i, j | 0 <= i < j < |listing| :: NoSooner(listing[i], listing[j]) && listing[i] != listing[j])
  }

  /** A matched rule is enabled, its filters admit the event, and no rule that must come first takes it. */
  lemma MatchedRule(rules: map<string, Rule>, listing: seq<Rule>, inbound: Inbound)
    requires IsRuleListing(rules, listing) && ResolveRoute(inbound, listing).Matched?
    ensures var m := ResolveRoute(inbound, listing);
      && m.rule.id in rules && rules[m.rule.id] == m.rule && m.rule.enabled
      && CheckOf(m.rule, inbound) == Yes && DecisionOf(m.rule) == Some(m.decision)
      && forall id | id in rules && rules[id].enabled && !NoSooner(m.rule, rules[id]) ::
           VerdictOf(rules[id], inbound) == Skip
  {
    hide VerdictOf, CheckOf, DecisionOf;
    var first := FirstRuleDecides(inbound, listing);
    TakenRule(listing[first], inbound);
    forall id | id in rules && rules[id].enabled && !NoSooner(listing[first], rules[id])
      ensures VerdictOf(rules[id], inbound) == Skip
    {
      var i :| 0 <= i < |listing| && listing[i] == rules[id];
      NoSoonerSelf(listing[first]);
    }
  }

  lemma NoSoonerSelf(r: Rule)
    ensures NoSooner(r, r)
  {
  }

  lemma TakenRule(rule: Rule, inbound: Inbound)
    ensures VerdictOf(rule, inbound).Take? ==>
      CheckOf(rule, inbound) == Yes && DecisionOf(rule) == Some(VerdictOf(rule, inbound).decision)
  {
    hide CheckOf, DecisionOf;
  }

  /** No rule took or refused the event exactly when every enabled rule passes it over. */
  lemma UnmatchedIff(rules: map<string, Rule>, listing: seq<Rule>, inbound: Inbound)
    requires IsRuleListing(rules, listing)
    ensures ResolveRoute(inbound, listing).Unmatched?
       <==> forall id | id in rules && rules[id].enabled :: VerdictOf(rules[id], inbound) == Skip
  {
    hide VerdictOf;
    var first := FirstRuleDecides(inbound, listing);
    if first < |listing| {
      assert listing[first] in listing;
    } else {
      forall id | id in rules && rules[id].enabled
        ensures VerdictOf(rules[id], inbound) == Skip
      {
        var i :| 0 <= i < |listing| && listing[i] == rules[id];
      }
    }
  }

  /** A filter on the source alone lets through exactly what comes from that source, whatever the event holds otherwise. */
  lemma SourceIdFilter(chat: string, inbound: Inbound)
    ensures var source := SourceMatches(Parsed(Obj([Field("source_id", Str(chat))])), inbound);
      source == if inbound.sourceId == chat then Yes else No
    ensures OperatorMatches(Parsed(Obj([])), inbound) == Yes
    ensures ConditionMatches(Parsed(Obj([])), inbound) == Yes
  {
    var fields := [Field("source_id", Str(chat))];
    assert Find(fields, "source_id") == Some(Str(chat));
    assert "source_id" != "source_kind" by { assert |"source_id"| == 9 && |"source_kind"| == 11; }
    assert fields[1..] == [];
    assert Find(fields, "source_kind") == None;
    assert Find([], "operator_id") == None;
  }

  method Resolve(inbound: Inbound, rules: seq<Rule>) returns (resolution: Resolution)
    ensures resolution == ResolveRoute(inbound, rules)
  {
    hide VerdictOf;
    for i := 0 to |rules|
      invariant ResolveRoute(inbound, rules) == ResolveRoute(inbound, rules[i..])
    {
      assert rules[i..][1..] == rules[i + 1..];
      match VerdictOf(rules[i], inbound) {
        case Skip =>
        case Bad => return Invalid;
        case Take(decision) => return Matched(rules[i], decision);
      }
    }
    return Unmatched;
  }
}

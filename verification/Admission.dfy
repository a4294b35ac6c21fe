/** When a rule takes an event, said over its JSON, and what the routed event takes from the rule. */
module Admission {
  import opened Text
  import opened Json
  import opened Records
  import opened Routing
  import opened Machine
  import opened Provenance
  import opened Traces
  import Renderings

  // Fields of JSON objects

  /** `v` is an object whose first field of that key has this value. */
  ghost predicate HasField(v: Json, key: string, x: Json) {
    v.Obj? && exists i :: IsFirstAt(v.fields, i, key, x)
  }

  predicate IsFirstAt(fields: seq<Field>, i: int, key: string, x: Json) {
    0 <= i < |fields| && fields[i] == Field(key, x) && forall j | 0 <= j < i :: fields[j].key != key
  }

  lemma {:induction false} FindIs(fields: seq<Field>, key: string, x: Json)
    ensures Find(fields, key) == Some(x) <==> HasField(Obj(fields), key, x)
  {
    if fields != [] {
      if fields[0].key != key {
        FindIs(fields[1..], key, x);
      }
      hide IsFirstAt, Find;
      FieldUnfolds(fields, key, x);
      FindUnfolds(fields, key);
    }
  }

  lemma FindUnfolds(fields: seq<Field>, key: string)
    requires fields != []
    ensures Find(fields, key) == if fields[0].key == key then Some(fields[0].value) else Find(fields[1..], key)
  {
  }

  lemma FieldUnfolds(fields: seq<Field>, key: string, x: Json)
    requires fields != []
    ensures HasField(Obj(fields), key, x) <==> if fields[0].key == key then fields[0].value == x else HasField(Obj(fields[1..]), key, x)
  {
    forall i: int ensures IsFirstAt(fields, i, key, x)
      <==> if fields[0].key == key then i == 0 && fields[0].value == x else IsFirstAt(fields[1..], i - 1, key, x)
    {
      FirstUnfolds(fields, i, key, x);
    }
    hide IsFirstAt;
    if fields[0].key == key {
      assert fields[0].value == x ==> IsFirstAt(fields, 0, key, x);
    } else {
      forall i: int ensures IsFirstAt(fields[1..], i, key, x) <==> IsFirstAt(fields, i + 1, key, x) { }
    }
  }

  lemma FirstUnfolds(fields: seq<Field>, i: int, key: string, x: Json)
    requires fields != []
    ensures IsFirstAt(fields, i, key, x)
       <==> if fields[0].key == key then i == 0 && fields[0].value == x else IsFirstAt(fields[1..], i - 1, key, x)
  {
    if 0 < i < |fields| {
      assert forall j | 0 < j <= i :: fields[j] == fields[1..][j - 1];
    }
  }

  lemma GetIs(v: Json, key: string, x: Json)
    ensures Get(v, key) == Some(x) <==> HasField(v, key, x)
  {
    hide Find;
    if v.Obj? {
      FindIs(v.fields, key, x);
    }
  }

  lemma GetStringIs(v: Json, key: string, s: string)
    ensures GetString(v, key) == Some(s) <==> HasField(v, key, Str(s))
  {
    hide Get, HasField;
    GetIs(v, key, Str(s));
  }

  /** Behind its white space the text begins with a slash. */
  predicate BeginsWithSlash(said: string) {
    exists i | 0 <= i < |said| :: said[i] == '/' && Renderings.IsAllWhite(said[..i])
  }

  /** The message is a command: its text, or its caption where it has nothing under `text`, begins with a slash. */
  ghost predicate IsCommand(payload: Parsed<Json>) {
    payload.Parsed? && exists said ::
      && BeginsWithSlash(said)
      && (HasField(payload.value, "text", Str(said)) || (HasNoField(payload.value, "text") && HasField(payload.value, "caption", Str(said))))
  }

  ghost predicate HasNoField(v: Json, key: string) {
    forall x :: !HasField(v, key, x)
  }

  lemma SlashFirst(said: string)
    ensures BeginsWithSlash(said) <==> var t := TrimStart(said); t != "" && t[0] == '/'
  {
    hide IsWhite, Renderings.IsAllWhite, TrimStart;
    var t := TrimStart(said);
    var n := |said| - |t|;
    if t != "" {
      assert t[0] == said[n];
      WhiteFront(said, n);
    }
    SlashIsInk();
    forall i | 0 <= i < |said| && said[i] == '/' && Renderings.IsAllWhite(said[..i]) ensures i == n {
      WhiteFront(said, i);
    }
  }

  /** White space in front of a place, and behind one, by its characters. */
  lemma WhiteFront(text: string, i: int)
    requires 0 <= i <= |text|
    ensures Renderings.IsAllWhite(text[..i]) <==> forall j | 0 <= j < i :: IsWhite(text[j])
  {
    hide IsWhite;
    assert forall j | 0 <= j < i :: text[..i][j] == text[j];
  }

  lemma WhiteBack(text: string, i: int)
    requires 0 <= i <= |text|
    ensures Renderings.IsAllWhite(text[i..]) <==> forall j | i <= j < |text| :: IsWhite(text[j])
  {
    hide IsWhite;
    assert forall j | i <= j < |text| :: text[i..][j - i] == text[j];
  }

  lemma SlashIsInk()
    ensures !IsWhite('/')
  {
  }

  lemma NoFieldIs(v: Json, key: string)
    ensures Get(v, key).None? <==> HasNoField(v, key)
  {
    hide Get, HasField;
    forall x ensures Get(v, key) == Some(x) <==> HasField(v, key, x) { GetIs(v, key, x); }
    if Get(v, key).Some? {
      assert HasField(v, key, Get(v, key).value);
    }
  }

  /** Commands, and nothing else, are kept from the rules. */
  lemma CommandIff(payload: Parsed<Json>)
    ensures IsControlCommand(payload) <==> IsCommand(payload)
  {
    hide Get, HasField, HasNoField, TrimStart, BeginsWithSlash;
    if payload.Parsed? {
      var v := payload.value;
      NoFieldIs(v, "text");
      forall said ensures Get(v, "text") == Some(Str(said)) <==> HasField(v, "text", Str(said)) { GetIs(v, "text", Str(said)); }
      forall said ensures Get(v, "caption") == Some(Str(said)) <==> HasField(v, "caption", Str(said)) { GetIs(v, "caption", Str(said)); }
      forall said ensures BeginsWithSlash(said) <==> (TrimStart(said) != "" && TrimStart(said)[0] == '/') { SlashFirst(said); }
    }
  }

  /** An integer is a whole number that fits 64 bits with a sign. */
  lemma GetIntegerIs(v: Json, key: string, n: int)
    ensures GetInteger(v, key) == Some(n)
       <==> (0 <= n <= 9_223_372_036_854_775_807 && HasField(v, key, Num(PosInt(n)))) || HasField(v, key, Num(NegInt(n)))
  {
    hide Get, HasField;
    GetIs(v, key, Num(NegInt(n)));
    if n >= 0 {
      GetIs(v, key, Num(PosInt(n)));
    }
  }

  // A rule's three parts

  /** Where the filter is an object, and its texts under `source_id` and `source_kind` are the event's. */
  ghost predicate SourceAdmits(filter: Parsed<Json>, inbound: Inbound) {
    && filter.Parsed? && filter.value.Obj?
    && (forall t | HasField(filter.value, "source_id", Str(t)) :: t == inbound.sourceId)
    && (forall t | HasField(filter.value, "source_kind", Str(t)) :: t == inbound.sourceKind)
  }

  ghost predicate OperatorAdmits(filter: Parsed<Json>, inbound: Inbound) {
    && filter.Parsed? && filter.value.Obj?
    && forall t | HasField(filter.value, "operator_id", Str(t)) :: inbound.operatorId == Some(t)
  }

  ghost predicate Occurs(part: string, text: string) {
    exists front: string, back: string :: text == front + part + back
  }

  function PayloadRead(inbound: Inbound): Json {
    match inbound.payload
    case Malformed => Obj([])
    case Parsed(v) => v
  }

  ghost predicate TextMet(condition: Json, payload: Json) {
    forall t | HasField(condition, "text_contains", Str(t)) ::
      exists said :: HasField(payload, "text", Str(said)) && Occurs(t, said)
  }

  ghost predicate FieldsMet(expected: Json, payload: Json) {
    expected.Obj? && forall f | f in expected.fields :: HasField(payload, f.key, f.value)
  }

  ghost predicate PayloadMet(condition: Json, payload: Json) {
    forall p | HasField(condition, "payload", p) :: FieldsMet(p, payload)
  }

  predicate OnlyKnownKeys(condition: Json)
    requires condition.Obj?
  {
    forall f | f in condition.fields :: f.key == "text_contains" || f.key == "payload"
  }

  /** The condition is empty, or its text occurs in the payload's, every field it expects is there, and it says nothing else. */
  ghost predicate ConditionAdmits(condition: Parsed<Json>, inbound: Inbound) {
    && condition.Parsed? && condition.value.Obj?
    && (condition.value.fields == [] ||
        (TextMet(condition.value, PayloadRead(inbound)) && PayloadMet(condition.value, PayloadRead(inbound)) && OnlyKnownKeys(condition.value)))
  }

  /** A condition that cannot be judged: none of its parts fails, but one is not as it must be. */
  ghost predicate ConditionUnsound(condition: Parsed<Json>, inbound: Inbound) {
    || condition.Malformed?
    || (&& condition.value.Obj? && condition.value.fields != [] && TextMet(condition.value, PayloadRead(inbound))
        && ((exists p :: HasField(condition.value, "payload", p) && !p.Obj?)
            || (PayloadMet(condition.value, PayloadRead(inbound)) && !OnlyKnownKeys(condition.value))))
  }

  lemma SourceIff(filter: Parsed<Json>, inbound: Inbound)
    ensures SourceMatches(filter, inbound) == Yes <==> SourceAdmits(filter, inbound)
    ensures SourceMatches(filter, inbound) == Wrong <==> filter.Malformed?
  {
    hide GetString, HasField;
    if filter.Parsed? {
      forall t ensures GetString(filter.value, "source_id") == Some(t) <==> HasField(filter.value, "source_id", Str(t)) { GetStringIs(filter.value, "source_id", t); }
      forall t ensures GetString(filter.value, "source_kind") == Some(t) <==> HasField(filter.value, "source_kind", Str(t)) { GetStringIs(filter.value, "source_kind", t); }
    }
  }

  lemma OperatorIff(filter: Parsed<Json>, inbound: Inbound)
    ensures OperatorMatches(filter, inbound) == Yes <==> OperatorAdmits(filter, inbound)
    ensures OperatorMatches(filter, inbound) == Wrong <==> filter.Malformed?
  {
    hide GetString, HasField;
    if filter.Parsed? {
      forall t ensures GetString(filter.value, "operator_id") == Some(t) <==> HasField(filter.value, "operator_id", Str(t)) { GetStringIs(filter.value, "operator_id", t); }
    }
  }

  lemma OccursIff(part: string, text: string)
    ensures Contains(text, part) <==> Occurs(part, text)
  {
    if Contains(text, part) {
      var i :| 0 <= i <= |text| && PartAt(text, i, part);
      assert text == text[..i] + part + text[i + |part|..];
    }
    if Occurs(part, text) {
      var front: string, back: string :| text == front + part + back;
      assert PartAt(text, |front|, part);
    }
  }

  lemma TextIff(condition: Json, payload: Json)
    ensures TextAllows(condition, payload) <==> TextMet(condition, payload)
  {
    hide GetString, HasField, Contains, Occurs;
    forall t ensures GetString(condition, "text_contains") == Some(t) <==> HasField(condition, "text_contains", Str(t)) { GetStringIs(condition, "text_contains", t); }
    forall t ensures GetString(payload, "text") == Some(t) <==> HasField(payload, "text", Str(t)) { GetStringIs(payload, "text", t); }
    forall t, said ensures Contains(said, t) <==> Occurs(t, said) { OccursIff(t, said); }
  }

  lemma FieldsIff(expected: seq<Field>, payload: Json)
    ensures FieldsAllow(expected, payload) <==> FieldsMet(Obj(expected), payload)
  {
    hide Get, HasField;
    forall f: Field ensures Get(payload, f.key) == Some(f.value) <==> HasField(payload, f.key, f.value) { GetIs(payload, f.key, f.value); }
  }

  lemma PayloadIff(condition: Json, payload: Json)
    ensures PayloadMet(condition, payload) <==>
      match Get(condition, "payload")
      case None => true
      case Some(p) => p.Obj? && FieldsAllow(p.fields, payload)
  {
    hide Get, HasField, FieldsAllow, FieldsMet;
    forall p ensures Get(condition, "payload") == Some(p) <==> HasField(condition, "payload", p) { GetIs(condition, "payload", p); }
    if Get(condition, "payload").Some? {
      var p := Get(condition, "payload").value;
      NotObject(p, payload);
      if p.Obj? { FieldsIff(p.fields, payload); }
    }
  }

  lemma NotObject(p: Json, payload: Json)
    ensures FieldsMet(p, payload) ==> p.Obj?
  {
  }

  lemma ConditionIff(condition: Parsed<Json>, inbound: Inbound)
    ensures ConditionMatches(condition, inbound) == Yes <==> ConditionAdmits(condition, inbound)
    ensures ConditionMatches(condition, inbound) == Wrong <==> ConditionUnsound(condition, inbound)
  {
    hide Get, HasField, FieldsAllow, TextAllows, TextMet, PayloadMet;
    if condition.Parsed? && condition.value.Obj? {
      var payload := PayloadRead(inbound);
      TextIff(condition.value, payload);
      PayloadIff(condition.value, payload);
      forall p ensures Get(condition.value, "payload") == Some(p) <==> HasField(condition.value, "payload", p) { GetIs(condition.value, "payload", p); }
    }
  }

  /** All three parts of the rule let the event through. */
  ghost predicate IsAdmitted(rule: Rule, inbound: Inbound) {
    SourceAdmits(rule.sourceFilter, inbound) && OperatorAdmits(rule.operatorFilter, inbound) && ConditionAdmits(rule.condition, inbound)
  }

  /** A part that cannot be judged, behind parts that let the event through. */
  ghost predicate IsUnsound(rule: Rule, inbound: Inbound) {
    || rule.sourceFilter.Malformed?
    || (SourceAdmits(rule.sourceFilter, inbound) && rule.operatorFilter.Malformed?)
    || (SourceAdmits(rule.sourceFilter, inbound) && OperatorAdmits(rule.operatorFilter, inbound) && ConditionUnsound(rule.condition, inbound))
  }

  lemma AdmittedIff(rule: Rule, inbound: Inbound)
    ensures CheckOf(rule, inbound) == Yes <==> IsAdmitted(rule, inbound)
    ensures CheckOf(rule, inbound) == Wrong <==> IsUnsound(rule, inbound)
  {
    hide SourceMatches, OperatorMatches, ConditionMatches, SourceAdmits, OperatorAdmits, ConditionAdmits, ConditionUnsound;
    SourceIff(rule.sourceFilter, inbound);
    OperatorIff(rule.operatorFilter, inbound);
    ConditionIff(rule.condition, inbound);
  }

  // Its policy

  /** The text without the white space around it. */
  ghost predicate IsStripped(text: string, core: string) {
    && (exists i, j | 0 <= i <= j <= |text| ::
          text[i..j] == core && Renderings.IsAllWhite(text[..i]) && Renderings.IsAllWhite(text[j..]))
    && (core != "" ==> !IsWhite(core[0]) && !IsWhite(core[|core| - 1]))
  }

  lemma TrimIsStripped(text: string)
    ensures IsStripped(text, Trim(text))
  {
    hide IsWhite, Renderings.IsAllWhite, TrimStart, TrimEnd;
    var t := TrimStart(text);
    var core := TrimEnd(t);
    var i := |text| - |t|;
    var j := i + |core|;
    assert text[i..j] == core;
    assert forall k | j <= k < |text| :: text[k] == t[k - i];
    WhiteFront(text, i);
    WhiteBack(text, j);
    if core != "" { assert core[0] == t[0]; }
  }

  lemma CoreOf(text: string, a: string) returns (i: int, j: int)
    requires IsStripped(text, a)
    ensures 0 <= i <= j <= |text| && text[i..j] == a
    ensures forall x | 0 <= x < i || j <= x < |text| :: IsWhite(text[x])
    ensures i < j ==> !IsWhite(text[i]) && !IsWhite(text[j - 1])
  {
    hide IsWhite, Renderings.IsAllWhite;
    i, j :| 0 <= i <= j <= |text| && text[i..j] == a && Renderings.IsAllWhite(text[..i]) && Renderings.IsAllWhite(text[j..]);
    WhiteFront(text, i);
    WhiteBack(text, j);
  }

  lemma StrippedUnique(text: string, a: string, b: string)
    requires IsStripped(text, a) && IsStripped(text, b)
    ensures a == b
  {
    hide IsWhite, IsStripped;
    var i, j := CoreOf(text, a);
    var k, l := CoreOf(text, b);
    SameCore(text, i, j, k, l);
  }

  lemma SameCore(text: string, i: int, j: int, k: int, l: int)
    requires 0 <= i <= j <= |text| && 0 <= k <= l <= |text|
    requires forall x | 0 <= x < i || j <= x < |text| :: IsWhite(text[x])
    requires forall x | 0 <= x < k || l <= x < |text| :: IsWhite(text[x])
    requires i < j ==> !IsWhite(text[i]) && !IsWhite(text[j - 1])
    requires k < l ==> !IsWhite(text[k]) && !IsWhite(text[l - 1])
    ensures text[i..j] == text[k..l]
  {
    hide IsWhite;
  }

  /** The format that a name stands for; no name stands for the full text. */
  ghost predicate IsFormatName(name: Option<string>, format: string) {
    match name
    case None => format == "full_text"
    case Some(text) =>
      || (format == "full_text" && (IsStripped(text, "full") || IsStripped(text, "full_text")))
      || ((format == "summary" || format == "status_only" || format == "errors_only") && IsStripped(text, format))
  }

  lemma FormatIff(name: Option<string>, format: string)
    ensures FormatOf(name) == Some(format) <==> IsFormatName(name, format)
  {
    hide Trim, IsStripped;
    var text := if name.Some? then name.value else "full_text";
    TrimIsStripped(text);
    forall core | IsStripped(text, core) ensures core == Trim(text) { StrippedUnique(text, core, Trim(text)); }
    FullTextStripped();
  }

  lemma FullTextStripped()
    ensures Trim("full_text") == "full_text"
  {
    assert !IsWhite('f') && !IsWhite('t');
    hide IsWhite;
    assert TrimStart("full_text") == "full_text";
  }

  predicate IsNamed(name: Option<string>, id: string) {
    name == Some(id) && !Renderings.IsAllWhite(id)
  }

  /** What a rule's policy decides. */
  ghost predicate Decides(p: Policy, priority: int, d: Decision) {
    && IsNamed(p.session, d.session) && IsNamed(p.agent, d.agent) && IsFormatName(p.format, d.format)
    && d.queuePolicy == (match p.queuePolicy case Some(q) => q case None => "fifo")
    && d.targets == (match p.targets case Some(t) => t case None => [])
    && d.priority == priority
  }

  lemma DecidesIff(rule: Rule, d: Decision)
    ensures DecisionOf(rule) == Some(d) <==> rule.policy.Parsed? && Decides(rule.policy.value, rule.priority, d)
  {
    hide FormatOf, IsFormatName, IsBlank, Renderings.IsAllWhite;
    if rule.policy.Parsed? {
      var p := rule.policy.value;
      FormatIff(p.format, d.format);
      Renderings.BlankIff(d.session);
      Renderings.BlankIff(d.agent);
      if p.session.Some? { Renderings.BlankIff(p.session.value); }
      if p.agent.Some? { Renderings.BlankIff(p.agent.value); }
    }
  }

  // Over runs

  /** What a routed event takes from the rule and the event it was routed by. */
  ghost predicate IsRoutedBy(record: Routed, rule: Rule, inbound: Inbound) {
    && rule.enabled && IsAdmitted(rule, inbound) && rule.policy.Parsed?
    && (exists format, targets :: Decides(rule.policy.value, rule.priority,
          Decision(record.session, record.agent, record.queuePolicy, record.priority, targets, format)))
    && record.ruleId == rule.id && record.payload == inbound.payload && record.dependencies == []
  }

  /**
    Over every run: each routed event was routed at the start of a router call, by a rule of the
    table that admits its stored inbound event, while every rule ordered before it passes it over.
   */
  lemma RoutedByRule(run: Execution, u: int) returns (n: nat, rule: Rule, inbound: Inbound)
    requires IsExecution(run) && u in End(run).db.routed
    ensures n < |run.steps| && n + 1 < |run.states| && run.steps[n].DoBeginRouter?
    ensures u in run.states[n].db.inbound && run.states[n].db.inbound[u] == inbound
    ensures var rules := run.states[n + 1].db.world.rules;
      && rule.id in rules && rules[rule.id] == rule
      && forall id | id in rules && rules[id].enabled && !NoSooner(rule, rules[id]) ::
           !IsAdmitted(rules[id], inbound) && !IsUnsound(rules[id], inbound)
    ensures IsRoutedBy(End(run).db.routed[u], rule, inbound)
  {
    hide IsExecution, CheckOf, DecisionOf, IsAdmitted, IsUnsound, Decides, IsControlCommand, NoSooner;
    hide ChoicesStored, RouterChosen, WorkerChosen, TurnsDecided;
    RunChosen(run);
    var m := End(run);
    var record := m.db.routed[u];
    assert IsChosen(m.log.choices, u, record);
    var j :| 0 <= j < |m.log.choices| && m.log.choices[j].update == u && Follows(record, m.log.choices[j]);
    n := ChoiceMade(run, j);
    var c := m.log.choices[j];
    rule, inbound := c.rule, c.inbound;
    AdmittedIff(rule, inbound);
    DecidesIff(rule, c.decision);
    DecisionAgain(record, c);
    var rules := run.states[n + 1].db.world.rules;
    forall id | id in rules && rules[id].enabled && !NoSooner(rule, rules[id])
      ensures !IsAdmitted(rules[id], inbound) && !IsUnsound(rules[id], inbound)
    {
      AdmittedIff(rules[id], inbound);
      SkipMeansNo(rules[id], inbound);
    }
  }

  lemma SkipMeansNo(rule: Rule, inbound: Inbound)
    requires VerdictOf(rule, inbound) == Skip
    ensures CheckOf(rule, inbound) == No
  {
    hide CheckOf, DecisionOf;
  }

  lemma DecisionAgain(record: Routed, c: Choice)
    requires Follows(record, c)
    ensures c.decision == Decision(record.session, record.agent, record.queuePolicy, record.priority, c.decision.targets, c.decision.format)
  {
  }
}

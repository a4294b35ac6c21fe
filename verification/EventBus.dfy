/**
  Subjects and streams. An event is published on a subject; a stream keeps the events whose
  subject matches one of its patterns, and a consumer sees those that match its filter.
 */
module EventBus {
  import opened Text

  predicate IsTokenChar(c: char) {
    'a' <= c <= 'z' || 'A' <= c <= 'Z' || '0' <= c <= '9' || c == '-' || c == '_'
  }

  function TokenChar(c: char): char {
    if IsTokenChar(c) then c else '_'
  }

  function SubjectToken(value: string): (token: string)
    ensures token != "" && '.' !in token && '*' !in token
  {
    if value == "" then "_" else seq(|value|, i requires 0 <= i < |value| => TokenChar(value[i]))
  }

  method NormalizeSubjectToken(value: string) returns (normalized: string)
    ensures normalized == SubjectToken(value)
  {
    normalized := "";
    for i := 0 to |value|
      invariant |normalized| == i
      invariant forall k | 0 <= k < i :: normalized[k] == TokenChar(value[k])
    {
      if IsTokenChar(value[i]) {
        normalized := normalized + [value[i]];
      } else {
        normalized := normalized + ['_'];
      }
    }
    if normalized == "" {
      normalized := "_";
    }
  }

  /** Letters, digits, dashes and underscores stay where they are, and every other character is an underscore. */
  lemma TokenKeeps(value: string, i: nat)
    requires i < |value|
    ensures |SubjectToken(value)| == |value|
    ensures SubjectToken(value)[i] == value[i] || SubjectToken(value)[i] == '_'
    ensures SubjectToken(value)[i] == value[i] <==>
      'a' <= value[i] <= 'z' || 'A' <= value[i] <= 'Z' || '0' <= value[i] <= '9' || value[i] == '-' || value[i] == '_'
  {
    assert SubjectToken(value)[i] == TokenChar(value[i]);
  }

  /** Where an event goes. */
  datatype Address =
    | Input(sourceKind: string)
    | SessionInput(session: string)
    | SessionOutput(session: string)
    | Delivery(target: string)
    | Task(task: string)
    | DeadLetter

  function Subject(a: Address): string {
    match a
    case Input(kind) => "teamd.input." + SubjectToken(kind)
    case SessionInput(session) => "teamd.session." + SubjectToken(session) + ".input"
    case SessionOutput(session) => "teamd.session." + SubjectToken(session) + ".output"
    case Delivery(target) => "teamd.delivery." + SubjectToken(target)
    case Task(task) => "teamd.task." + SubjectToken(task)
    case DeadLetter => "teamd.dlq"
  }

  predicate TokenMatches(pattern: string, token: string) {
    if pattern == "*" then token != "" else pattern == token
  }

  predicate TokensMatch(p: seq<string>, s: seq<string>) {
    |p| == |s| && forall i | 0 <= i < |p| :: TokenMatches(p[i], s[i])
  }

  /** A pattern matches token by token; `*` stands for any one token. */
  predicate Matches(pattern: string, subject: string) {
    TokensMatch(Split(pattern, '.'), Split(subject, '.'))
  }

  const ROUTER_FILTER := "teamd.input.telegram"
  const SESSION_FILTER := "teamd.session.*.input"
  const DELIVERY_FILTER := "teamd.session.*.output"
  const TASK_FILTER := "teamd.task.*"

  /** The configured names of the five streams. */
  datatype Streams = Streams(input: string, session: string, delivery: string, task: string, dlq: string) {

    function Names(): seq<string> {
      [input, session, delivery, task, dlq]
    }

    predicate AreDistinct() {
      forall i, j | 0 <= i < j < 5 :: Names()[i] != Names()[j]
    }

    function Subjects(name: string): seq<string> {
      if name == input then ["teamd.input.*"]
      else if name == session then ["teamd.session.*.input", "teamd.session.*.output"]
      else if name == delivery then ["teamd.delivery.*"]
      else if name == task then ["teamd.task.*"]
      else if name == dlq then ["teamd.dlq"]
      else []
    }

    predicate Keeps(name: string, subject: string) {
      exists p | p in Subjects(name) :: Matches(p, subject)
    }

    /** The stream meant for an address. */
    function Owner(a: Address): string {
      match a
      case Input(_) => input
      case SessionInput(_) => session
      case SessionOutput(_) => session
      case Delivery(_) => delivery
      case Task(_) => task
      case DeadLetter => dlq
    }
  }

  function Tokens(a: Address): seq<string> {
    match a
    case Input(kind) => ["teamd", "input", SubjectToken(kind)]
    case SessionInput(session) => ["teamd", "session", SubjectToken(session), "input"]
    case SessionOutput(session) => ["teamd", "session", SubjectToken(session), "output"]
    case Delivery(target) => ["teamd", "delivery", SubjectToken(target)]
    case Task(task) => ["teamd", "task", SubjectToken(task)]
    case DeadLetter => ["teamd", "dlq"]
  }

  lemma SplitTwo(a: string, b: string)
    requires '.' !in a && '.' !in b
    ensures Split(a + "." + b, '.') == [a, b]
  {
    hide Split;
    SplitConcat(a, b, '.');
    SplitPlain(a, '.');
    SplitPlain(b, '.');
  }

  lemma SplitThree(a: string, b: string, c: string)
    requires '.' !in a && '.' !in b && '.' !in c
    ensures Split(a + "." + b + "." + c, '.') == [a, b, c]
  {
    hide Split;
    SplitTwo(a, b);
    SplitConcat(a + "." + b, c, '.');
    SplitPlain(c, '.');
  }

  lemma SplitFour(a: string, b: string, c: string, d: string)
    requires '.' !in a && '.' !in b && '.' !in c && '.' !in d
    ensures Split(a + "." + b + "." + c + "." + d, '.') == [a, b, c, d]
  {
    hide Split;
    SplitThree(a, b, c);
    SplitConcat(a + "." + b + "." + c, d, '.');
    SplitPlain(d, '.');
  }

  lemma InputPrefix()
    ensures "teamd.input." == "teamd" + "." + "input" + "."
  {
  }

  lemma SessionPrefix()
    ensures "teamd.session." == "teamd" + "." + "session" + "."
  {
  }

  lemma SessionSuffixes()
    ensures ".input" == "." + "input" && ".output" == "." + "output"
  {
  }

  lemma DeliveryPrefix()
    ensures "teamd.delivery." == "teamd" + "." + "delivery" + "."
  {
  }

  lemma TaskPrefix()
    ensures "teamd.task." == "teamd" + "." + "task" + "."
  {
  }

  lemma DeadLetterSubject()
    ensures "teamd.dlq" == "teamd" + "." + "dlq"
  {
  }

  lemma ThreeTokens(prefix: string, a: string, b: string, c: string)
    requires '.' !in a && '.' !in b && '.' !in c && prefix == a + "." + b + "."
    ensures Split(prefix + c, '.') == [a, b, c]
  {
    hide Split;
    SplitThree(a, b, c);
  }

  lemma FourTokens(prefix: string, a: string, b: string, c: string, d: string, suffix: string)
    requires '.' !in a && '.' !in b && '.' !in c && '.' !in d
    requires prefix == a + "." + b + "." && suffix == "." + d
    ensures Split(prefix + c + suffix, '.') == [a, b, c, d]
  {
    hide Split;
    SplitFour(a, b, c, d);
    assert prefix + c + suffix == a + "." + b + "." + c + "." + d;
  }

  lemma SessionTokens(token: string)
    requires '.' !in token
    ensures Split("teamd.session." + token + ".input", '.') == ["teamd", "session", token, "input"]
    ensures Split("teamd.session." + token + ".output", '.') == ["teamd", "session", token, "output"]
  {
    hide Split;
    SessionPrefix();
    SessionSuffixes();
    FourTokens("teamd.session.", "teamd", "session", token, "input", ".input");
    FourTokens("teamd.session.", "teamd", "session", token, "output", ".output");
  }

  lemma InputTokens(token: string)
    requires '.' !in token
    ensures Split("teamd.input." + token, '.') == ["teamd", "input", token]
  {
    hide Split;
    InputPrefix();
    ThreeTokens("teamd.input.", "teamd", "input", token);
  }

  lemma DeliveryTokens(token: string)
    requires '.' !in token
    ensures Split("teamd.delivery." + token, '.') == ["teamd", "delivery", token]
  {
    hide Split;
    DeliveryPrefix();
    ThreeTokens("teamd.delivery.", "teamd", "delivery", token);
  }

  lemma TaskTokens(token: string)
    requires '.' !in token
    ensures Split("teamd.task." + token, '.') == ["teamd", "task", token]
  {
    hide Split;
    TaskPrefix();
    ThreeTokens("teamd.task.", "teamd", "task", token);
  }

  lemma DeadLetterTokens()
    ensures Split("teamd.dlq", '.') == ["teamd", "dlq"]
  {
    hide Split;
    DeadLetterSubject();
    SplitTwo("teamd", "dlq");
  }

  lemma SubjectTokens(a: Address)
    ensures Split(Subject(a), '.') == Tokens(a)
  {
    hide Split, SubjectToken;
    match a
    case Input(kind) => InputTokens(SubjectToken(kind));
    case SessionInput(session) => SessionTokens(SubjectToken(session));
    case SessionOutput(session) => SessionTokens(SubjectToken(session));
    case Delivery(target) => DeliveryTokens(SubjectToken(target));
    case Task(task) => TaskTokens(SubjectToken(task));
    case DeadLetter => DeadLetterTokens();
  }

  /** A pattern with a wildcard is a prefix, the wildcard, and a suffix. */
  lemma PatternParts()
    ensures ROUTER_FILTER == "teamd.input." + "telegram" && "teamd.input.*" == "teamd.input." + "*"
    ensures SESSION_FILTER == "teamd.session." + "*" + ".input"
    ensures DELIVERY_FILTER == "teamd.session." + "*" + ".output"
    ensures "teamd.delivery.*" == "teamd.delivery." + "*" && TASK_FILTER == "teamd.task." + "*"
  {
  }

  lemma PatternTokens()
    ensures Split(ROUTER_FILTER, '.') == ["teamd", "input", "telegram"]
    ensures Split("teamd.input.*", '.') == ["teamd", "input", "*"]
    ensures Split(SESSION_FILTER, '.') == ["teamd", "session", "*", "input"]
    ensures Split(DELIVERY_FILTER, '.') == ["teamd", "session", "*", "output"]
    ensures Split("teamd.delivery.*", '.') == ["teamd", "delivery", "*"]
    ensures Split(TASK_FILTER, '.') == ["teamd", "task", "*"]
    ensures Split("teamd.dlq", '.') == ["teamd", "dlq"]
  {
    hide Split, ROUTER_FILTER, SESSION_FILTER, DELIVERY_FILTER, TASK_FILTER;
    PatternParts();
    InputTokens("telegram");
    InputTokens("*");
    SessionTokens("*");
    DeliveryTokens("*");
    TaskTokens("*");
    DeadLetterTokens();
  }

  lemma MatchThree(a: string, b: string, c: string, s: seq<string>)
    ensures TokensMatch([a, b, c], s)
       <==> |s| == 3 && TokenMatches(a, s[0]) && TokenMatches(b, s[1]) && TokenMatches(c, s[2])
  {
    hide TokenMatches;
    var p := [a, b, c];
    assert p[0] == a && p[1] == b && p[2] == c;
  }

  lemma MatchFour(a: string, b: string, c: string, d: string, s: seq<string>)
    ensures TokensMatch([a, b, c, d], s)
       <==> |s| == 4 && TokenMatches(a, s[0]) && TokenMatches(b, s[1]) && TokenMatches(c, s[2]) && TokenMatches(d, s[3])
  {
    hide TokenMatches;
    var p := [a, b, c, d];
    assert p[0] == a && p[1] == b && p[2] == c && p[3] == d;
  }

  lemma MatchTwo(a: string, b: string, s: seq<string>)
    ensures TokensMatch([a, b], s) <==> |s| == 2 && TokenMatches(a, s[0]) && TokenMatches(b, s[1])
  {
    hide TokenMatches;
    var p := [a, b];
    assert p[0] == a && p[1] == b;
  }

  /** What a token of a pattern lets through. */
  lemma TokenCases(token: string)
    ensures TokenMatches("teamd", token) <==> token == "teamd"
    ensures TokenMatches("telegram", token) <==> token == "telegram"
    ensures TokenMatches("input", token) <==> token == "input"
    ensures TokenMatches("output", token) <==> token == "output"
    ensures TokenMatches("session", token) <==> token == "session"
    ensures TokenMatches("delivery", token) <==> token == "delivery"
    ensures TokenMatches("task", token) <==> token == "task"
    ensures TokenMatches("dlq", token) <==> token == "dlq"
    ensures TokenMatches("*", token) <==> token != ""
  {
  }

  lemma KindsDiffer()
    ensures "input" != "session" && "input" != "delivery" && "input" != "task" && "input" != "output"
    ensures "session" != "delivery" && "session" != "task" && "delivery" != "task"
  {
    assert |"input"| == 5 && |"session"| == 7 && |"delivery"| == 8 && |"task"| == 4 && |"output"| == 6;
  }

  /** The patterns of streams and consumers, told apart by the second and the last token. */
  lemma MatchesTokens(a: Address)
    ensures var s := Tokens(a);
      && (Matches(ROUTER_FILTER, Subject(a)) <==> |s| == 3 && s[1] == "input" && s[2] == "telegram")
      && (Matches("teamd.input.*", Subject(a)) <==> |s| == 3 && s[1] == "input")
      && (Matches(SESSION_FILTER, Subject(a)) <==> |s| == 4 && s[1] == "session" && s[3] == "input")
      && (Matches(DELIVERY_FILTER, Subject(a)) <==> |s| == 4 && s[1] == "session" && s[3] == "output")
      && (Matches("teamd.delivery.*", Subject(a)) <==> |s| == 3 && s[1] == "delivery")
      && (Matches(TASK_FILTER, Subject(a)) <==> |s| == 3 && s[1] == "task")
      && (Matches("teamd.dlq", Subject(a)) <==> |s| == 2 && s[1] == "dlq")
  {
    hide Split, Subject, TokensMatch, TokenMatches, SubjectToken, ROUTER_FILTER, SESSION_FILTER, DELIVERY_FILTER, TASK_FILTER;
    SubjectTokens(a);
    PatternTokens();
    var s := Tokens(a);
    MatchThree("teamd", "input", "telegram", s);
    MatchThree("teamd", "input", "*", s);
    MatchFour("teamd", "session", "*", "input", s);
    MatchFour("teamd", "session", "*", "output", s);
    MatchThree("teamd", "delivery", "*", s);
    MatchThree("teamd", "task", "*", s);
    MatchTwo("teamd", "dlq", s);
    forall i | 0 <= i < |s|
      ensures TokenMatches("teamd", s[i]) <==> s[i] == "teamd"
      ensures TokenMatches("*", s[i]) <==> s[i] != ""
    {
      TokenCases(s[i]);
    }
    TokenCases(s[1]);
    TokenCases(s[|s| - 1]);
    TokensNonEmpty(a);
  }

  lemma TokensNonEmpty(a: Address)
    ensures 2 <= |Tokens(a)| <= 4 && Tokens(a)[0] == "teamd"
    ensures forall i | 0 <= i < |Tokens(a)| :: Tokens(a)[i] != ""
  {
  }

  /** Each consumer's filter lets through exactly the addresses meant for it. */
  lemma FiltersSeparate(a: Address)
    ensures Matches(ROUTER_FILTER, Subject(a)) <==> a.Input? && SubjectToken(a.sourceKind) == "telegram"
    ensures Matches(SESSION_FILTER, Subject(a)) <==> a.SessionInput?
    ensures Matches(DELIVERY_FILTER, Subject(a)) <==> a.SessionOutput?
    ensures Matches(TASK_FILTER, Subject(a)) <==> a.Task?
  {
    hide Matches, SubjectToken, Subject, ROUTER_FILTER, SESSION_FILTER, DELIVERY_FILTER, TASK_FILTER;
    MatchesTokens(a);
    KindsDiffer();
  }

  /** The router hears what telegram sends. */
  lemma TelegramIsHeard()
    ensures SubjectToken("telegram") == "telegram"
  {
    var s := "telegram";
    assert forall i | 0 <= i < |s| :: IsTokenChar(s[i]);
  }

  lemma PatternsSeparate(a: Address)
    ensures Matches("teamd.input.*", Subject(a)) <==> a.Input?
    ensures Matches("teamd.delivery.*", Subject(a)) <==> a.Delivery?
    ensures Matches("teamd.dlq", Subject(a)) <==> a.DeadLetter?
  {
    hide Matches, SubjectToken, Subject, ROUTER_FILTER, SESSION_FILTER, DELIVERY_FILTER, TASK_FILTER;
    MatchesTokens(a);
    KindsDiffer();
  }

  /** With distinct names, exactly one of the five streams keeps a subject: the one meant for it. */
  lemma ExactlyOneStream(streams: Streams, a: Address, name: string)
    requires streams.AreDistinct() && name in streams.Names()
    ensures streams.Keeps(name, Subject(a)) <==> name == streams.Owner(a)
  {
    hide Matches, Subject;
    FiltersSeparate(a);
    PatternsSeparate(a);
    var n := streams.Names();
    assert n[0] != n[1] && n[0] != n[2] && n[0] != n[3] && n[0] != n[4] && n[1] != n[2];
    assert n[1] != n[3] && n[1] != n[4] && n[2] != n[3] && n[2] != n[4] && n[3] != n[4];
    KeepsAre(streams, name, Subject(a));
  }

  lemma KeepsAre(streams: Streams, name: string, subject: string)
    ensures streams.Keeps(name, subject) <==>
      if name == streams.input then Matches("teamd.input.*", subject)
      else if name == streams.session then Matches(SESSION_FILTER, subject) || Matches(DELIVERY_FILTER, subject)
      else if name == streams.delivery then Matches("teamd.delivery.*", subject)
      else if name == streams.task then Matches(TASK_FILTER, subject)
      else name == streams.dlq && Matches("teamd.dlq", subject)
  {
    hide Matches;
    var s := streams.Subjects(name);
    assert forall p :: p in s <==> exists i | 0 <= i < |s| :: s[i] == p;
    if |s| == 1 {
      assert s[0] in s;
    } else if |s| == 2 {
      assert s[0] in s && s[1] in s;
    }
  }

  /** Distinct names are needed too: with two alike, some subject is kept by no stream meant for it. */
  lemma DistinctIffAllKept(streams: Streams)
    ensures streams.AreDistinct()
       <==> forall a: Address :: streams.Keeps(streams.Owner(a), Subject(a))
  {
    hide Matches, Subject;
    if streams.AreDistinct() {
      forall a: Address
        ensures streams.Keeps(streams.Owner(a), Subject(a))
      {
        ExactlyOneStream(streams, a, streams.Owner(a));
      }
    } else {
      var i, j :| 0 <= i < j < 5 && streams.Names()[i] == streams.Names()[j];
      var a := if j == 1 then SessionInput("") else if j == 2 then Delivery("") else if j == 3 then Task("") else DeadLetter;
      FiltersSeparate(a);
      PatternsSeparate(a);
      KeepsAre(streams, streams.Owner(a), Subject(a));
      assert !streams.Keeps(streams.Owner(a), Subject(a));
    }
  }
}

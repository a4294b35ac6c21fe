/**
  A measure that no pass raises, and that only a pass over a fixed text leaves as it is. Bytes
  cost one each, but a `<redacted>` costs nothing; a stretch between two other bytes that is
  empty or holds several `<redacted>` in a row costs one, since a secret there can be overwritten.
 */
module RedactionCost {
  import opened Scan
  import opened Redaction
  import opened RedactionSpans
  import Stable = RedactionStable

  predicate BeginsHidden(s: string) {
    |REDACTED| <= |s| && s[..|REDACTED|] == REDACTED
  }

  function Off(n: nat): nat {
    if n == 1 then 0 else 1
  }

  /** The cost of `s` behind `n` times `<redacted>`. */
  function CostFrom(s: string, n: nat): nat {
    if BeginsHidden(s) then CostFrom(s[|REDACTED|..], n + 1)
    else if s == "" then Off(n)
    else Off(n) + 1 + CostFrom(s[1..], 0)
  }

  function Cost(s: string): nat {
    CostFrom(s, 0)
  }

  /** A byte that no `<redacted>` holds. */
  predicate IsBreak(c: char) {
    c !in REDACTED
  }

  lemma HiddenText()
    ensures REDACTED == "<redacted>" && |REDACTED| == 10
  {
  }

  lemma HiddenBeforeBreak(a: string, c: char, z: string)
    requires IsBreak(c)
    ensures BeginsHidden(a + [c] + z) <==> BeginsHidden(a)
    ensures BeginsHidden(a) ==> (a + [c] + z)[|REDACTED|..] == a[|REDACTED|..] + [c] + z
  {
    hide REDACTED;
    var s := a + [c] + z;
    if |a| < |REDACTED| <= |s| {
      assert s[..|REDACTED|][|a|] == c;
    }
    if |REDACTED| <= |a| {
      assert s[..|REDACTED|] == a[..|REDACTED|];
      assert s[|REDACTED|..] == a[|REDACTED|..] + [c] + z;
    }
  }

  /** A break ends whatever stands before it. */
  lemma {:induction false} CostAtBreak(a: string, c: char, z: string, n: nat)
    requires IsBreak(c)
    ensures CostFrom(a + [c] + z, n) == CostFrom(a, n) + 1 + CostFrom(z, 0)
    decreases |a|
  {
    hide REDACTED, BeginsHidden;
    HiddenText();
    var s := a + [c] + z;
    HiddenBeforeBreak(a, c, z);
    HiddenFits(a);
    HiddenFits(s);
    if BeginsHidden(a) {
      CostAtBreak(a[|REDACTED|..], c, z, n + 1);
    } else if a == "" {
      assert s[1..] == z;
    } else {
      assert s[1..] == a[1..] + [c] + z;
      CostAtBreak(a[1..], c, z, 0);
    }
  }

  lemma HiddenFits(s: string)
    ensures BeginsHidden(s) ==> |REDACTED| <= |s|
  {
  }

  predicate IsBroken(b: string) {
    b == "" || IsBreak(b[0])
  }

  lemma CostBefore(x: string, b: string, n: nat)
    requires IsBroken(b)
    ensures CostFrom(x + b, n) == CostFrom(x, n) + CostFrom(b, 1)
  {
    hide REDACTED;
    HiddenText();
    if b == "" {
      assert x + b == x;
      assert CostFrom("", 1) == 0;
    } else {
      CostAtBreak(x, b[0], b[1..], n);
      CostAtBreak("", b[0], b[1..], 1);
      assert x + [b[0]] + b[1..] == x + b && "" + [b[0]] + b[1..] == b;
    }
  }

  lemma HiddenFirst(z: string, n: nat)
    ensures CostFrom(REDACTED + z, n) == CostFrom(z, n + 1)
  {
    hide REDACTED;
    HiddenText();
    var s := REDACTED + z;
    assert s[..|REDACTED|] == REDACTED && s[|REDACTED|..] == z;
  }

  /** Nothing but `<redacted>` itself is free. */
  lemma {:induction false} OnlyHiddenIsFree(x: string, n: nat)
    requires CostFrom(x, n) == 0
    ensures n <= 1 && x == if n == 0 then REDACTED else ""
    decreases |x|
  {
    hide REDACTED;
    HiddenText();
    if BeginsHidden(x) {
      OnlyHiddenIsFree(x[|REDACTED|..], n + 1);
      assert x == x[..|REDACTED|] + x[|REDACTED|..];
    }
  }

  // The spans of a pass

  predicate AreBroken(text: string, spans: seq<Span>) {
    forall i | 0 <= i < |spans| ::
      && 0 < spans[i].from <= spans[i].to <= |text| && IsBreak(text[spans[i].from - 1])
      && (spans[i].to < |text| ==> IsBreak(text[spans[i].to]))
  }

  /** All the secrets are overwritten already. */
  predicate AreHidden(text: string, spans: seq<Span>) {
    forall i | 0 <= i < |spans| :: spans[i].from <= spans[i].to <= |text| && text[spans[i].from..spans[i].to] == REDACTED
  }

  lemma FirstSpan(text: string, spans: seq<Span>, at: nat)
    requires at <= |text| && spans != [] && AreSpans(text, spans, at) && AreBroken(text, spans)
    ensures var f := spans[0];
      && at < f.from <= f.to <= |text| && AreSpans(text, spans[1..], f.to)
      && IsBreak(text[f.from - 1]) && IsBroken(text[f.to..])
      && Splice(text, spans, REDACTED, at) == text[at..f.from] + REDACTED + Splice(text, spans[1..], REDACTED, f.to)
  {
    hide REDACTED, IsBreak;
  }

  lemma SpliceFirst(text: string, spans: seq<Span>, at: nat, n: nat)
    requires at <= |text| && spans != [] && AreSpans(text, spans, at) && AreBroken(text, spans)
    ensures var f := spans[0];
      && at < f.from <= f.to <= |text| && AreSpans(text, spans[1..], f.to)
      && CostFrom(text[at..], n) == CostFrom(text[at..f.from - 1], n) + 1 + Cost(text[f.from..f.to]) + CostFrom(text[f.to..], 1)
      && CostFrom(Splice(text, spans, REDACTED, at), n)
         == CostFrom(text[at..f.from - 1], n) + 1 + CostFrom(Splice(text, spans[1..], REDACTED, f.to), 1)
  {
    hide CostFrom, REDACTED, IsBreak, IsBroken, Splice, AreSpans, AreBroken;
    FirstSpan(text, spans, at);
    var f := spans[0];
    var a, c, x, b := text[at..f.from - 1], text[f.from - 1], text[f.from..f.to], text[f.to..];
    var y := Splice(text, spans[1..], REDACTED, f.to);
    assert text[at..f.from] == a + [c];
    assert text[at..] == a + [c] + (x + b);
    CostAtBreak(a, c, x + b, n);
    CostBefore(x, b, 0);
    assert a + [c] + REDACTED + y == a + [c] + (REDACTED + y);
    CostAtBreak(a, c, REDACTED + y, n);
    HiddenFirst(y, 0);
  }

  lemma OthersBroken(text: string, spans: seq<Span>)
    requires spans != [] && AreBroken(text, spans)
    ensures AreBroken(text, spans[1..])
  {
    hide IsBreak;
    forall i | 0 <= i < |spans[1..]|
      ensures spans[1..][i] == spans[i + 1]
    {
    }
  }

  lemma HiddenTooFirst(text: string, spans: seq<Span>)
    requires spans != [] && spans[0].from <= spans[0].to <= |text|
    ensures AreHidden(text, spans) <==> text[spans[0].from..spans[0].to] == REDACTED && AreHidden(text, spans[1..])
  {
    hide REDACTED;
    forall i | 0 <= i < |spans[1..]|
      ensures spans[1..][i] == spans[i + 1]
    {
    }
    if text[spans[0].from..spans[0].to] == REDACTED && AreHidden(text, spans[1..]) {
      forall i | 0 <= i < |spans|
        ensures spans[i].from <= spans[i].to <= |text| && text[spans[i].from..spans[i].to] == REDACTED
      {
        assert i > 0 ==> spans[i] == spans[1..][i - 1];
      }
    }
  }

  /** Overwriting spans lowers the cost by what the spans cost. */
  lemma {:induction false} SpliceCost(text: string, spans: seq<Span>, at: nat, n: nat)
    requires at <= |text| && AreSpans(text, spans, at) && AreBroken(text, spans)
    ensures CostFrom(Splice(text, spans, REDACTED, at), n) <= CostFrom(text[at..], n)
    ensures CostFrom(Splice(text, spans, REDACTED, at), n) == CostFrom(text[at..], n) ==> AreHidden(text, spans)
    decreases |spans|
  {
    hide CostFrom, REDACTED, AreBroken, AreHidden, Splice;
    if spans == [] {
      NoSplice(text, at);
    } else {
      var f := spans[0];
      SpliceFirst(text, spans, at, n);
      OthersBroken(text, spans);
      SpliceCost(text, spans[1..], f.to, 1);
      HiddenTooFirst(text, spans);
      if Cost(text[f.from..f.to]) == 0 {
        OnlyHiddenIsFree(text[f.from..f.to], 0);
      }
    }
  }

  lemma NoSplice(text: string, at: nat)
    requires at <= |text|
    ensures Splice(text, [], REDACTED, at) == text[at..] && AreHidden(text, [])
  {
  }

  /** Overwriting what is overwritten changes nothing. */
  lemma {:induction false} HiddenSplice(text: string, spans: seq<Span>, at: nat)
    requires at <= |text| && AreSpans(text, spans, at) && AreHidden(text, spans)
    ensures Splice(text, spans, REDACTED, at) == text[at..]
    decreases |spans|
  {
    if spans != [] {
      hide REDACTED;
      var f := spans[0];
      HiddenTooFirst(text, spans);
      HiddenSplice(text, spans[1..], f.to);
      assert text[at..] == text[at..f.from] + text[f.from..f.to] + text[f.to..];
    }
  }

  // Where secrets stand

  predicate IsBrokenPiece(p: Piece, s: string)
    requires IsPieceOf(p, s)
  {
    p.hit ==> IsBreak(s[p.from - 1]) && (p.to < |s| ==> IsBreak(s[p.to]))
  }

  lemma DelimitersBreak(c: char)
    requires c in Stable.DELIMITERS || c == ':' || c == '='
    ensures IsBreak(c)
  {
  }

  lemma AtDelimits()
    ensures '@' in Stable.DELIMITERS && ' ' in Stable.DELIMITERS && '\t' in Stable.DELIMITERS
    ensures '"' in Stable.DELIMITERS && '\'' in Stable.DELIMITERS
  {
  }

  lemma UrlBroken(s: string)
    requires s != ""
    ensures IsPieceOf(UrlStep(s), s) && IsBrokenPiece(UrlStep(s), s)
  {
    hide AuthorityStep, URL_ENDS, Stable.DELIMITERS, REDACTED, IsBreak, IsCleanPiece;
    UrlPiece(s);
    AtDelimits();
    if StartsWith(s, "://") {
      var n := ScanLen(s[3..], URL_ENDS);
      var a := s[3..3 + n];
      AuthorityPiece(a);
      var p := AuthorityStep(a);
      if p.hit {
        assert a[p.from - 4] == s[p.from - 1] == ':' && a[p.to - 3] == s[p.to] == '@';
        DelimitersBreak(':');
        DelimitersBreak('@');
      }
    }
  }

  lemma CredentialBroken(s: string, start: nat, ends: string, quoted: bool)
    requires 0 < start <= |s| && forall c | c in ends :: IsBreak(c)
    ensures var p := Credential(s, start, ends, quoted);
      p.hit ==> start < p.from <= p.to <= |s| && IsBreak(s[p.from - 1]) && (p.to < |s| ==> IsBreak(s[p.to]))
  {
    hide REDACTED, IsBreak;
    var n := ScanLen(s[start..], ends);
    var credential := s[start..start + n];
    assert n < |s[start..]| ==> s[start..][n] == s[start + n];
    var colon := ScanLen(credential, ":");
    if colon < n {
      assert credential[colon] == s[start + colon] == ':';
      DelimitersBreak(':');
    }
  }

  lemma CliBroken(s: string)
    requires s != ""
    ensures IsPieceOf(CliStep(s), s) && IsBrokenPiece(CliStep(s), s)
  {
    hide Credential, SHELL_ENDS, Stable.DELIMITERS, REDACTED, IsBreak, IsCleanPiece, CliMarker;
    CliPiece(s);
    var marker := CliMarker(s);
    if marker > 0 {
      if QuoteAt(s, marker) {
        Stable.QuotesAreDelimiters(s[marker]);
        DelimitersBreak(s[marker]);
        CredentialBroken(s, marker + 1, [s[marker]], true);
      } else {
        forall c | c in SHELL_ENDS ensures IsBreak(c) { Stable.ShellEndsAreDelimiters(c); DelimitersBreak(c); }
        CredentialBroken(s, marker, SHELL_ENDS, false);
      }
    }
  }

  predicate IsBlankOrSign(c: char) {
    c == ':' || c == '=' || c == ' ' || c == '\t'
  }

  lemma BlanksBreak(c: char)
    requires IsBlankOrSign(c)
    ensures IsBreak(c)
  {
  }

  lemma ValueBroken(s: string, value: nat, authorization: bool)
    requires 0 < value <= |s| && IsBlankOrSign(s[value - 1])
    ensures var p := ValueStep(s, value, authorization);
      && value <= p.from <= p.to <= |s| && IsBreak(s[p.from - 1]) && (p.to < |s| ==> IsBreak(s[p.to]))
  {
    hide ValueEnds, ScanLen, REDACTED, IsBreak, Stable.DELIMITERS;
    var p := ValueStep(s, value, authorization);
    BlanksBreak(s[value - 1]);
    if QuoteAt(s, value) {
      Stable.QuotesAreDelimiters(s[value]);
      DelimitersBreak(s[value]);
    }
    if p.to < |s| {
      assert s[p.from..][p.to - p.from] == s[p.to];
      Stable.ValueEndsAreDelimiters(s, value, authorization, s[p.to]);
      DelimitersBreak(s[p.to]);
    }
  }

  lemma AssignBroken(before: bool, s: string)
    requires s != ""
    ensures IsPieceOf(AssignStep(before, s), s) && IsBrokenPiece(AssignStep(before, s), s)
  {
    hide MatchKey, ValueStep, REDACTED, IsBreak, IsCleanPiece, Stable.HasSign, Stable.SignAt, KeyStep, IsAuthorization;
    AssignPiece(before, s);
    var key := MatchKey(before, s, SENSITIVE_KEYS);
    if key > 0 {
      Stable.SignedStep(s, key);
      if Stable.HasSign(s, key) {
        var after := Stable.SignAt(s, key) + 1;
        SignIsSign(s, key);
        BehindSign(s, after);
        ValueBroken(s, after + SpaceLen(s[after..]), IsAuthorization(s[..key]));
      }
    }
  }

  lemma SignIsSign(s: string, key: nat)
    requires key <= |s| && Stable.HasSign(s, key)
    ensures IsBlankOrSign(s[Stable.SignAt(s, key)])
  {
  }

  lemma BehindSign(s: string, after: nat)
    requires 0 < after <= |s| && IsBlankOrSign(s[after - 1])
    ensures IsBlankOrSign(s[after + SpaceLen(s[after..]) - 1])
  {
    var n := SpaceLen(s[after..]);
    assert n > 0 ==> s[after..][n - 1] == s[after + n - 1];
  }

  lemma StepBroken(pass: Pass, before: bool, s: string)
    requires s != "" && pass != Auth
    ensures IsPieceOf(Step(pass, before, s), s) && IsBrokenPiece(Step(pass, before, s), s)
  {
    match pass
    case Url => UrlBroken(s);
    case Cli => CliBroken(s);
    case Assignments => AssignBroken(before, s);
  }

  lemma {:induction false} SpansBroken(pass: Pass, before: bool, text: string, at: nat)
    requires at <= |text| && pass != Auth
    ensures AreBroken(text, Spans(pass, before, text, at))
    decreases |text| - at
  {
    hide Step, IsBreak, Spans, IsCleanPiece, IsBoundary, REDACTED;
    if at < |text| {
      var p, next := SpansStep(pass, before, text, at);
      SpansBroken(pass, next, text, at + p.len);
      StepBroken(pass, before, text[at..]);
      var rest := Spans(pass, next, text, at + p.len);
      HitBroken(text, p, at, rest);
    } else {
      EndSplice(pass, before, text, REDACTED);
    }
  }

  lemma HitBroken(text: string, p: Piece, at: nat, rest: seq<Span>)
    requires at < |text| && IsPieceOf(p, text[at..]) && IsBrokenPiece(p, text[at..]) && AreBroken(text, rest)
    ensures AreBroken(text, Hit(p, at) + rest)
  {
    hide IsBreak;
    var s := text[at..];
    var all := Hit(p, at) + rest;
    assert p.hit ==> s[p.from - 1] == text[at + p.from - 1] && (p.to < |s| ==> s[p.to] == text[at + p.to]);
    forall i | 0 <= i < |all|
      ensures 0 < all[i].from <= all[i].to <= |text| && IsBreak(text[all[i].from - 1])
      ensures all[i].to < |text| ==> IsBreak(text[all[i].to])
    {
      if i >= |Hit(p, at)| {
        assert all[i] == rest[i - |Hit(p, at)|];
      }
    }
  }

  /** The secrets that a pass finds in a text. */
  predicate IsHidden(pass: Pass, text: string) {
    AreHidden(text, Spans(pass, true, text, 0))
  }

  /** Such a pass raises no cost, and leaves the cost, and the text, as it is exactly when it finds all secrets overwritten. */
  lemma PassCost(pass: Pass, text: string)
    requires pass != Auth
    ensures Cost(Redact(pass, text)) <= Cost(text)
    ensures Cost(Redact(pass, text)) == Cost(text) <==> IsHidden(pass, text)
    ensures Redact(pass, text) == text <==> IsHidden(pass, text)
  {
    hide Redact, Spans, Splice, AreSpans, AreDelimited, SameFolded, REDACTED, CostFrom, AreBroken, AreHidden;
    RedactSplices(pass, text);
    var spans := Spans(pass, true, text, 0);
    SpansBroken(pass, true, text, 0);
    SpliceCost(text, spans, 0, 0);
    assert text[0..] == text;
    if AreHidden(text, spans) {
      HiddenSplice(text, spans, 0);
    }
  }

  // The token pass, which also respells its marker

  lemma AuthPlain(s: string)
    requires s != "" && AuthMarker(s) == ""
    ensures Redact(Auth, s) == [s[0]] + Redact(Auth, s[1..])
  {
    hide AuthStep, AuthMarker, Mask, IsBoundary, REDACTED;
    Stable.MarkedAuth(s);
    PlainMask(Auth, true, s, REDACTED);
    Stable.BeforeIrrelevant(Auth, IsBoundary(s[0]), true, s[1..], REDACTED);
  }

  lemma NoMarker(s: string)
    requires s != "" ==> Lower(s[0]) != 'b'
    ensures AuthMarker(s) == ""
  {
    assert Lower("Bearer "[0]) == 'b' && Lower("Basic "[0]) == 'b';
  }

  lemma {:induction false} AuthKeeps(x: string, z: string)
    requires forall i | 0 <= i < |x| :: Lower(x[i]) != 'b'
    ensures Redact(Auth, x + z) == x + Redact(Auth, z)
    decreases |x|
  {
    hide Redact, AuthMarker;
    if x == "" {
      assert x + z == z;
    } else {
      var s := x + z;
      NoMarker(s);
      AuthPlain(s);
      assert s[1..] == x[1..] + z;
      AuthKeeps(x[1..], z);
      assert x == [x[0]] + x[1..];
    }
  }

  /** A marker, its token, and the rest. */
  lemma AuthMarked(s: string) returns (marker: string, token: string, rest: string)
    requires AuthMarker(s) != ""
    ensures marker == AuthMarker(s) && |marker| + |token| <= |s|
    ensures token == s[|marker|..|marker| + |token|] && rest == s[|marker| + |token|..]
    ensures forall i | 0 <= i < |token| :: token[i] !in TOKEN_ENDS
    ensures rest != "" ==> rest[0] in TOKEN_ENDS
    ensures Redact(Auth, s) == marker + (if token == "" then "" else REDACTED) + Redact(Auth, rest)
  {
    hide AuthMarker, Mask, IsBoundary, REDACTED, TOKEN_ENDS, AuthStep, IsPieceOf;
    Stable.MaskAuth(true, s, REDACTED);
    Stable.AuthParts(s);
    marker := AuthMarker(s);
    var p := AuthStep(s);
    token, rest := s[p.from..p.len], s[p.len..];
    ScanFree(s[p.from..], TOKEN_ENDS);
    assert token == s[p.from..][..p.len - p.from];
    Stable.BeforeIrrelevant(Auth, IsBoundary(s[p.len - 1]), true, rest, REDACTED);
    var shown := if p.hit then REDACTED else "";
    assert marker + shown + s[p.to..p.len] == marker + shown;
  }

  lemma ScanFree(s: string, ends: string)
    ensures forall i | 0 <= i < ScanLen(s, ends) :: s[..ScanLen(s, ends)][i] !in ends
  {
  }

  lemma MarkedHead(s: string)
    requires AuthMarker(s) != ""
    ensures Redact(Auth, s) != "" && Lower(Redact(Auth, s)[0]) == 'b'
  {
    hide Redact, AuthMarker, TOKEN_ENDS;
    var marker, token, rest := AuthMarked(s);
    AuthMarkerShape(s);
  }

  /** What the pass shows in front of its first marker was there. */
  lemma {:induction false} AuthPrefix(s: string, n: nat)
    requires n <= |Redact(Auth, s)| && forall i | 0 <= i < n :: Lower(Redact(Auth, s)[i]) != 'b'
    ensures n <= |s| && s[..n] == Redact(Auth, s)[..n]
    decreases n
  {
    hide Redact, AuthMarker, TOKEN_ENDS;
    var t := Redact(Auth, s);
    if n > 0 {
      if s == "" {
        NothingRedacted(Auth);
      } else if AuthMarker(s) == "" {
        AuthPlain(s);
        assert t[1..] == Redact(Auth, s[1..]);
        forall i | 0 <= i < n - 1 ensures Lower(t[1..][i]) != 'b' { assert t[1..][i] == t[i + 1]; }
        AuthPrefix(s[1..], n - 1);
        assert s[..n] == [s[0]] + s[1..][..n - 1] && t[..n] == [t[0]] + t[1..][..n - 1];
      } else {
        MarkedHead(s);
      }
    }
  }

  lemma NothingRedacted(pass: Pass)
    ensures Redact(pass, "") == ""
  {
  }

  lemma HiddenQuiet()
    ensures forall i | 0 <= i < |REDACTED| :: Lower(REDACTED[i]) != 'b'
  {
  }

  /** The pass neither hides nor shows a `<redacted>` that stands at a place where no marker does. */
  lemma HiddenAgain(s: string)
    ensures BeginsHidden(s) ==> Redact(Auth, s) == REDACTED + Redact(Auth, s[|REDACTED|..])
    ensures BeginsHidden(Redact(Auth, s)) ==> BeginsHidden(s)
  {
    hide Redact, REDACTED;
    HiddenQuiet();
    if BeginsHidden(s) {
      AuthKeeps(REDACTED, s[|REDACTED|..]);
      assert s == REDACTED + s[|REDACTED|..];
    }
    var t := Redact(Auth, s);
    if BeginsHidden(t) {
      forall i | 0 <= i < |REDACTED| ensures Lower(t[i]) != 'b' { assert t[i] == t[..|REDACTED|][i]; }
      AuthPrefix(s, |REDACTED|);
    }
  }

  /** Text without `<` costs what its length says. */
  lemma {:induction false} PlainCost(a: string, b: string, n: nat)
    requires |a| == |b| && (forall i | 0 <= i < |a| :: a[i] != '<' && b[i] != '<')
    ensures CostFrom(a, n) == CostFrom(b, n)
    decreases |a|
  {
    assert REDACTED[0] == '<';
    assert !BeginsHidden(a) && !BeginsHidden(b) by {
      assert |REDACTED| <= |a| ==> a[..|REDACTED|][0] == a[0] && b[..|REDACTED|][0] == b[0];
    }
    if a != "" {
      PlainCost(a[1..], b[1..], 0);
    }
  }

  lemma MarkerCost(a: string, b: string, y: string, z: string, n: nat)
    requires AuthMarker(a) == b && |a| == |b| && b != ""
    requires CostFrom(y, 0) <= CostFrom(z, 0)
    ensures CostFrom(b + y, n) <= CostFrom(a + z, n)
  {
    hide CostFrom, REDACTED;
    AuthMarkerShape(a);
    var k := |b| - 1;
    forall i | 0 <= i < |a| ensures Lower(a[i]) == Lower(b[i]) && a[i] != '<' && b[i] != '<' { }
    assert a[k] == b[k] == ' ';
    BlanksBreak(' ');
    PlainCost(a[..k], b[..k], n);
    assert a + z == a[..k] + [' '] + z && b + y == b[..k] + [' '] + y;
    CostAtBreak(a[..k], ' ', z, n);
    CostAtBreak(b[..k], ' ', y, n);
  }

  lemma {:induction false} AuthCost(s: string, n: nat)
    ensures CostFrom(Redact(Auth, s), n) <= CostFrom(s, n)
    decreases |s|
  {
    hide Redact, REDACTED, AuthMarker, TOKEN_ENDS;
    HiddenText();
    HiddenAgain(s);
    if BeginsHidden(s) {
      AuthCost(s[|REDACTED|..], n + 1);
      HiddenFirst(Redact(Auth, s[|REDACTED|..]), n);
    } else if s == "" {
      NothingRedacted(Auth);
    } else if AuthMarker(s) == "" {
      AuthPlain(s);
      AuthCost(s[1..], 0);
      assert Redact(Auth, s)[1..] == Redact(Auth, s[1..]);
    } else {
      MarkedCost(s, n);
    }
  }

  lemma {:induction false} MarkedCost(s: string, n: nat)
    requires AuthMarker(s) != ""
    ensures CostFrom(Redact(Auth, s), n) <= CostFrom(s, n)
    decreases |s|, 0
  {
    hide Redact, REDACTED, AuthMarker, TOKEN_ENDS, CostFrom;
    var marker, token, rest := AuthMarked(s);
    var y := Redact(Auth, rest);
    if token == "" {
      AuthCost(rest, 0);
    } else {
      AuthCost(rest, 1);
      HiddenFirst(y, 0);
      if rest != "" { Stable.TokenEndsAreDelimiters(rest[0]); DelimitersBreak(rest[0]); }
      CostBefore(token, rest, 0);
    }
    var a := s[..|marker|];
    assert s == a + (token + rest);
    MarkerOfPrefix(s);
    var shown := if token == "" then "" else REDACTED;
    assert "" + rest == rest && "" + y == y;
    assert marker + shown + y == marker + (shown + y);
    MarkerCost(a, marker, shown + y, token + rest, n);
  }

  lemma MarkerOfPrefix(s: string)
    ensures AuthMarker(s[..|AuthMarker(s)|]) == AuthMarker(s)
  {
    AuthMarkerShape(s);
    var n := |AuthMarker(s)|;
    assert forall i | 0 <= i < n :: s[..n][i] == s[i];
  }

  /** No pass raises the cost. */
  lemma NeverDearer(pass: Pass, text: string)
    ensures Cost(Redact(pass, text)) <= Cost(text)
  {
    hide Redact, CostFrom, IsHidden;
    if pass == Auth {
      AuthCost(text, 0);
    } else {
      PassCost(pass, text);
    }
  }
}

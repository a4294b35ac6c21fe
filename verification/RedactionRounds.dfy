/**
  Redacting twice. A text is left alone by the four passes together exactly when each leaves it
  alone, for none can undo what another does. Behind a first round the token pass and the
  assignment pass find nothing to do, so a second round changes something exactly when the
  first has brought to light a password in a URL or a credential in a command line.
 */
module RedactionRounds {
  import opened Scan
  import opened Redaction
  import opened RedactionPasses
  import opened RedactionCost
  import opened RedactionClean
  import opened RedactionFree
  import Stable = RedactionStable

  lemma AllFix(t: string)
    requires forall pass :: Redact(pass, t) == t
    ensures RedactAll(t) == t
  {
    hide Redact;
  }

  /** The passes together leave a text alone exactly when each of them does. */
  lemma FixedTogether(t: string)
    ensures RedactAll(t) == t <==> forall pass :: Redact(pass, t) == t
  {
    hide Redact, Cost, IsHidden;
    if RedactAll(t) == t {
      var a := Redact(Url, t);
      var b := Redact(Cli, a);
      var c := Redact(Auth, b);
      NeverDearer(Url, t);
      NeverDearer(Cli, a);
      NeverDearer(Auth, b);
      NeverDearer(Assignments, c);
      PassCost(Url, t);
      PassCost(Cli, a);
      PassCost(Assignments, c);
      forall pass
        ensures Redact(pass, t) == t
      {
        match pass case Url => case Cli => case Auth => case Assignments =>
      }
    }
    if forall pass :: Redact(pass, t) == t {
      AllFix(t);
    }
  }

  /** A second round changes nothing exactly when every password of a URL and every credential that the passes find in the first round's result is hidden there. */
  lemma TwiceIff(s: string)
    ensures var t := RedactAll(s);
      RedactAll(t) == t <==> IsHidden(Url, t) && IsHidden(Cli, t)
  {
    hide Redact, IsHidden, Cost;
    var x := Redact(Cli, Redact(Url, s));
    var t := RedactAll(s);
    TokensSettled(x);
    Stable.RedactIdempotent(Assignments, Redact(Auth, x));
    FixedTogether(t);
    PassCost(Url, t);
    PassCost(Cli, t);
    if IsHidden(Url, t) && IsHidden(Cli, t) {
      forall pass
        ensures Redact(pass, t) == t
      {
        match pass case Url => case Cli => case Auth => case Assignments =>
      }
    }
  }

  // More rounds

  function Rounds(s: string, n: nat): string {
    if n == 0 then s else RedactAll(Rounds(s, n - 1))
  }

  /** Behind the first, a round changes nothing or lowers the cost. */
  lemma RoundFalls(s: string)
    ensures var t := RedactAll(s); RedactAll(t) == t || Cost(RedactAll(t)) < Cost(t)
  {
    hide Redact, IsHidden, Cost;
    var t := RedactAll(s);
    TwiceIff(s);
    var a := Redact(Url, t);
    var b := Redact(Cli, a);
    PassCost(Url, t);
    PassCost(Cli, a);
    NeverDearer(Url, t);
    NeverDearer(Cli, a);
    NeverDearer(Auth, b);
    NeverDearer(Assignments, Redact(Auth, b));
  }

  lemma {:induction false} RoundsFall(s: string, n: nat)
    requires n > 0
    ensures var t := Rounds(s, n); RedactAll(t) == t || Cost(t) + n - 1 <= Cost(Rounds(s, 1))
  {
    hide RedactAll, Cost;
    if n > 1 {
      RoundsFall(s, n - 1);
      RoundFalls(Rounds(s, n - 2));
    }
  }

  /** Redacting again and again settles, after as many rounds as the first round's result costs, and one more. */
  lemma RoundsSettle(s: string, n: nat)
    requires n > Cost(RedactAll(s))
    ensures RedactAll(Rounds(s, n)) == Rounds(s, n)
  {
    hide RedactAll, Cost;
    RoundsFall(s, n);
    RoundFalls(Rounds(s, n - 1));
    assert Rounds(s, 1) == RedactAll(Rounds(s, 0));
  }

  // Texts without a URL and without such a command line

  predicate IsCommandFree(s: string) {
    IsFreeOf(s, "-u ") && IsFreeOf(s, "--user ") && IsFreeOf(s, "--user=")
  }

  predicate IsUnmarked(s: string) {
    IsFreeOf(s, "://") && IsCommandFree(s)
  }

  lemma MarkersAreForeign()
    ensures IsForeign("://") && IsForeign("-u ") && IsForeign("--user ") && IsForeign("--user=")
  {
  }

  lemma UnmarkedKept(pass: Pass, s: string)
    requires IsUnmarked(s)
    ensures IsUnmarked(Redact(pass, s))
  {
    hide IsFreeOf, IsForeign, Mask;
    MarkersAreForeign();
    FreeKept(pass, true, s, "://");
    FreeKept(pass, true, s, "-u ");
    FreeKept(pass, true, s, "--user ");
    FreeKept(pass, true, s, "--user=");
  }

  lemma UnmarkedPlain(pass: Pass, s: string)
    requires (pass == Url && IsFreeOf(s, "://")) || (pass == Cli && IsCommandFree(s))
    requires s != ""
    ensures Step(pass, true, s) == PLAIN
  {
    hide StartsWith, AuthorityStep, CliCredential;
    assert s[0..] == s;
  }

  lemma {:induction false} UnmarkedFixed(pass: Pass, s: string)
    requires (pass == Url && IsFreeOf(s, "://")) || (pass == Cli && IsCommandFree(s))
    ensures Redact(pass, s) == s
    decreases |s|
  {
    hide Mask, Step, IsFreeOf, IsBoundary;
    if s == "" {
      NothingRedacted(pass);
    } else {
      UnmarkedPlain(pass, s);
      PlainMask(pass, true, s, REDACTED);
      Stable.BeforeIrrelevant(pass, IsBoundary(s[0]), true, s[1..], REDACTED);
      if pass == Url {
        FreeTail(s, "://", 1);
      } else {
        FreeTail(s, "-u ", 1);
        FreeTail(s, "--user ", 1);
        FreeTail(s, "--user=", 1);
      }
      UnmarkedFixed(pass, s[1..]);
    }
  }

  /** In a text without `://` and without the markers of command lines the second round changes nothing. */
  lemma UnmarkedStable(s: string)
    requires IsUnmarked(s)
    ensures RedactAll(RedactAll(s)) == RedactAll(s)
  {
    hide Redact, IsUnmarked, IsHidden, Cost;
    Unmarked(s);
    UnmarkedFixed(Url, s);
    UnmarkedFixed(Cli, s);
    UnmarkedKept(Auth, s);
    UnmarkedKept(Assignments, Redact(Auth, s));
    var t := RedactAll(s);
    Unmarked(t);
    UnmarkedFixed(Url, t);
    UnmarkedFixed(Cli, t);
    PassCost(Url, t);
    PassCost(Cli, t);
    TwiceIff(s);
  }

  lemma Unmarked(s: string)
    requires IsUnmarked(s)
    ensures IsFreeOf(s, "://") && IsCommandFree(s)
  {
  }

  // The condition can fail: what ended an authority is hidden as part of a value

  const LATE := "jwt:<redacted>,@"

  predicate IsValue(value: string) {
    && value != "" && value[0] in "/?#"
    && (forall i | 0 <= i < |value| :: value[i] !in VALUE_ENDS && value[i] != ':' && Lower(value[i]) != '-' && Lower(value[i]) != 'b')
  }

  /** In `://jwt:` with a value that ends the authority, the first round hides the value and shows a password up to the `@`. */
  lemma Reopened(value: string)
    requires IsValue(value)
    ensures var t := RedactAll("://jwt:" + value + ",@");
      t == "://" + LATE && !IsHidden(Url, t) && RedactAll(t) != t
  {
    hide Redact, IsHidden;
    var s := "://jwt:" + value + ",@";
    FirstRound(value);
    LateShown();
    TwiceIff(s);
  }

  lemma FirstRound(value: string)
    requires IsValue(value)
    ensures RedactAll("://jwt:" + value + ",@") == "://" + LATE
  {
    hide Redact, IsValue;
    ValueUrl(value);
    ValueQuiet(value);
    ValueHides(value);
  }

  lemma ValueUrl(value: string)
    requires IsValue(value)
    ensures var s := "://jwt:" + value + ",@"; Redact(Url, s) == s
  {
    hide Redact, ScanLen, Emit, AuthorityStep;
    var s := "://jwt:" + value + ",@";
    assert s == "://" + "jwt:" + (value + ",@");
    UrlOnce(s, "jwt:", value + ",@");
    JwtAuthority(s);
  }

  lemma JwtAuthority(s: string)
    requires 7 <= |s|
    ensures IsPieceOf(AuthorityStep("jwt:"), s) && Emit(Url, AuthorityStep("jwt:"), s, REDACTED) == s[..7]
  {
    hide ScanLen;
    ScanLenUnique("jwt:", "@", 4);
    assert s[..7] + s[7..7] == s[..7];
  }

  /** The URL pass on one authority and what is behind it. */
  lemma UrlOnce(s: string, authority: string, rest: string)
    requires s == "://" + authority + rest
    requires forall i | 0 <= i < |authority| :: authority[i] !in URL_ENDS
    requires rest != "" ==> rest[0] in URL_ENDS
    requires forall i | 0 <= i < |rest| :: rest[i] != ':'
    ensures var p := AuthorityStep(authority);
      IsPieceOf(p, s) && Redact(Url, s) == Emit(Url, p, s, REDACTED) + rest
  {
    hide AuthorityStep, UrlStep, Emit, URL_ENDS, IsPieceOf, IsCleanPiece, Mask, IsBoundary;
    UrlFound(s, authority, rest);
    UrlPiece(s);
    AuthorityPiece(authority);
    var n := 3 + |authority|;
    assert s[n..] == rest;
    ColonFree(rest);
    UnmarkedFixed(Url, rest);
    UrlMask(s, n);
    Stable.BeforeIrrelevant(Url, IsBoundary(s[n - 1]), true, rest, REDACTED);
  }

  lemma UrlMask(s: string, n: nat)
    requires s != "" && IsPieceOf(UrlStep(s), s) && UrlStep(s).len == n
    ensures 0 < n <= |s| && Redact(Url, s) == Emit(Url, UrlStep(s), s, REDACTED) + Mask(Url, IsBoundary(s[n - 1]), s[n..], REDACTED)
  {
    hide UrlStep, Emit, IsBoundary;
  }

  lemma UrlFound(s: string, authority: string, rest: string)
    requires s == "://" + authority + rest
    requires forall i | 0 <= i < |authority| :: authority[i] !in URL_ENDS
    requires rest != "" ==> rest[0] in URL_ENDS
    ensures UrlStep(s) == AuthorityStep(authority)
  {
    hide AuthorityStep, ScanLen, URL_ENDS;
    var n := |authority|;
    assert s[3..] == authority + rest;
    ScanLenUnique(s[3..], URL_ENDS, n);
    assert s[3..3 + n] == authority;
  }

  lemma ColonFree(s: string)
    requires forall i | 0 <= i < |s| :: s[i] != ':'
    ensures IsFreeOf(s, "://")
  {
    forall j | 0 <= j <= |s|
      ensures !StartsWith(s[j..], "://")
    {
      assert Lower("://"[0]) == ':';
      assert j < |s| ==> s[j..][0] == s[j] && Lower(s[j]) != ':';
    }
  }

  lemma ValueQuiet(value: string)
    requires IsValue(value)
    ensures var s := "://jwt:" + value + ",@"; Redact(Cli, s) == s && Redact(Auth, s) == s
  {
    hide Redact, IsClean;
    var s := "://jwt:" + value + ",@";
    forall i | 0 <= i < |s| ensures Lower(s[i]) != '-' && Lower(s[i]) != 'b' {
      if 7 <= i < 7 + |value| { assert s[i] == value[i - 7]; } else { Around(i, |value|, s); }
    }
    EmptyClean();
    CleanBehind(s, "");
    assert s + "" == s;
    CleanFixed(s);
    DashFree(s);
    UnmarkedFixed(Cli, s);
  }

  lemma Around(i: nat, n: nat, s: string)
    requires i < |s| == n + 9 && !(7 <= i < 7 + n) && s[..7] == "://jwt:" && s[7 + n..] == ",@"
    ensures Lower(s[i]) != '-' && Lower(s[i]) != 'b'
  {
    if i < 7 {
      assert s[i] == s[..7][i];
    } else {
      assert s[i] == s[7 + n..][i - 7 - n];
    }
  }

  lemma DashFree(s: string)
    requires forall i | 0 <= i < |s| :: Lower(s[i]) != '-'
    ensures IsCommandFree(s)
  {
    assert Lower("-u "[0]) == '-' && Lower("--user "[0]) == '-' && Lower("--user="[0]) == '-';
    forall j | 0 <= j <= |s|
      ensures !StartsWith(s[j..], "-u ") && !StartsWith(s[j..], "--user ") && !StartsWith(s[j..], "--user=")
    {
      assert j < |s| ==> s[j..][0] == s[j];
    }
  }

  lemma ValueHides(value: string)
    requires IsValue(value)
    ensures Redact(Assignments, "://jwt:" + value + ",@") == "://" + LATE
  {
    hide Redact, VALUE_ENDS;
    var s := "://jwt:" + value + ",@";
    SchemeKept(s);
    assert s[3..] == "jwt:" + value + ",@";
    CommaEnds();
    JwtOnce(s[3..], value, ",@");
    assert "://" + ("jwt:" + REDACTED + ",@") == "://" + LATE;
  }

  lemma CommaEnds()
    ensures ',' in VALUE_ENDS && forall i | 0 <= i < 2 :: IsBoundary(",@"[i])
  {
  }

  lemma LateFits()
    ensures |LATE| == 16 && forall i | 0 <= i < |LATE| :: LATE[i] !in URL_ENDS
  {
  }

  lemma LateHides()
    ensures AuthorityStep(LATE) == Piece(7, 18, 19, true)
  {
    hide ScanLen;
    ScanLenUnique(LATE, "@", 15);
    ScanLenUnique(LATE[..15], ":", 3);
  }

  lemma LateShown()
    ensures !IsHidden(Url, "://" + LATE)
  {
    hide Redact, AuthorityStep, Emit, URL_ENDS, IsHidden, Cost;
    var t := "://" + LATE;
    LateFits();
    LateHides();
    assert t == "://" + LATE + "";
    UrlOnce(t, LATE, "");
    Stable.EmitLen(Url, Piece(7, 18, 19, true), t, REDACTED);
    PassCost(Url, t);
  }

  // The same for a command line: what ended a credential is hidden inside quotes

  predicate IsQuoted(value: string) {
    && value != "" && value[0] in SHELL_ENDS
    && (forall i | 0 <= i < |value| :: value[i] !in "\":" && Lower(value[i]) != '-' && Lower(value[i]) != 'b')
  }

  function Command(value: string): string {
    "-u jwt=\"" + value + "\":@"
  }

  /** In `-u jwt="` with a value that ends the credential, the first round hides the value and shows a credential up to the `@`. */
  lemma ReopenedCommand(value: string)
    requires IsQuoted(value)
    ensures var t := RedactAll(Command(value));
      t == Command(REDACTED) && !IsHidden(Cli, t) && RedactAll(t) != t
  {
    hide Redact, IsHidden, IsQuoted, Command, REDACTED, Cost;
    CommandUrl(value);
    CommandKept(value);
    CommandQuiet(value);
    CommandHides(value);
    CommandShown();
    TwiceIff(Command(value));
  }

  lemma CommandUrl(value: string)
    requires IsQuoted(value)
    ensures Redact(Url, Command(value)) == Command(value)
  {
    hide Redact;
    var s := Command(value);
    forall j | 0 <= j <= |s|
      ensures !StartsWith(s[j..], "://")
    {
      assert Lower("://"[0]) == ':' && Lower("://"[1]) == '/';
      assert 8 <= j < 8 + |value| ==> s[j] == value[j - 8];
      if j + 1 < |s| && Lower(s[j]) == ':' {
        assert s[j..][0] == s[j] && s[j..][1] == s[j + 1];
        assert j == 9 + |value|;
      }
    }
    UnmarkedFixed(Url, s);
  }

  lemma CommandQuiet(value: string)
    requires IsQuoted(value)
    ensures Redact(Auth, Command(value)) == Command(value)
  {
    hide Redact, IsClean;
    var s := Command(value);
    forall i | 0 <= i < |s| ensures Lower(s[i]) != 'b' {
      if 8 <= i < 8 + |value| { assert s[i] == value[i - 8]; }
    }
    EmptyClean();
    CleanBehind(s, "");
    assert s + "" == s;
    CleanFixed(s);
  }

  /** The command-line pass on one credential without quotes, and what is behind it. */
  lemma CliOnce(s: string, credential: string, rest: string)
    requires s == "-u " + credential + rest && !QuoteAt(s, 3)
    requires forall i | 0 <= i < |credential| :: credential[i] !in SHELL_ENDS
    requires rest != "" ==> rest[0] in SHELL_ENDS
    requires forall i | 0 <= i < |rest| :: Lower(rest[i]) != '-'
    ensures var p := CredentialOf(3, credential, 0);
      IsPieceOf(p, s) && Redact(Cli, s) == Emit(Cli, p, s, REDACTED) + rest
  {
    hide CredentialOf, CliStep, Emit, SHELL_ENDS, IsPieceOf, IsCleanPiece, Mask, IsBoundary;
    CliFound(s, credential, rest);
    CliPiece(s);
    var n := 3 + |credential|;
    assert s[n..] == rest;
    DashFree(rest);
    UnmarkedFixed(Cli, rest);
    CliMask(s, n);
    Stable.BeforeIrrelevant(Cli, IsBoundary(s[n - 1]), true, rest, REDACTED);
  }

  lemma CliMask(s: string, n: nat)
    requires s != "" && IsPieceOf(CliStep(s), s) && CliStep(s).len == n
    ensures 0 < n <= |s| && Redact(Cli, s) == Emit(Cli, CliStep(s), s, REDACTED) + Mask(Cli, IsBoundary(s[n - 1]), s[n..], REDACTED)
  {
    hide CliStep, Emit, IsBoundary;
  }

  lemma CliFound(s: string, credential: string, rest: string)
    requires s == "-u " + credential + rest && !QuoteAt(s, 3)
    requires forall i | 0 <= i < |credential| :: credential[i] !in SHELL_ENDS
    requires rest != "" ==> rest[0] in SHELL_ENDS
    ensures CliStep(s) == CredentialOf(3, credential, 0) && CliStep(s).len == 3 + |credential|
  {
    hide ScanLen, SHELL_ENDS;
    var n := |credential|;
    assert s[..3] == "-u " && s[0] == '-' && s[1] == 'u' && s[2] == ' ';
    assert s[3..] == credential + rest;
    ScanLenUnique(s[3..], SHELL_ENDS, n);
    assert s[3..3 + n] == credential;
  }

  lemma CommandKept(value: string)
    requires IsQuoted(value)
    ensures Redact(Cli, Command(value)) == Command(value)
  {
    hide Redact, ScanLen, Emit, CredentialOf;
    var s := Command(value);
    var rest := value + "\":@";
    assert s == "-u " + "jwt=\"" + rest;
    forall i | 0 <= i < |rest| ensures Lower(rest[i]) != '-' {
      if i < |value| { assert rest[i] == value[i]; }
    }
    CliOnce(s, "jwt=\"", rest);
    JwtCredential(s);
  }

  lemma JwtCredential(s: string)
    requires 8 <= |s|
    ensures var p := CredentialOf(3, "jwt=\"", 0); IsPieceOf(p, s) && Emit(Cli, p, s, REDACTED) == s[..8]
  {
    hide ScanLen;
    ScanLenUnique("jwt=\"", ":", 5);
    assert s[..8] + s[8..8] == s[..8];
  }

  lemma CommandShown()
    ensures !IsHidden(Cli, Command(REDACTED))
  {
    hide Redact, Emit, IsHidden, Cost, SHELL_ENDS;
    var t := Command(REDACTED);
    var credential := "jwt=\"<redacted>\":@";
    assert t == "-u " + credential + "";
    ShownFits();
    CliOnce(t, credential, "");
    ShownCredential();
    Stable.EmitLen(Cli, CredentialOf(3, credential, 0), t, REDACTED);
    PassCost(Cli, t);
  }

  lemma ShownFits()
    ensures var credential := "jwt=\"<redacted>\":@"; forall i | 0 <= i < |credential| :: credential[i] !in SHELL_ENDS
  {
  }

  lemma ShownCredential()
    ensures CredentialOf(3, "jwt=\"<redacted>\":@", 0) == Piece(20, 21, 21, true)
  {
    hide ScanLen;
    ScanLenUnique("jwt=\"<redacted>\":@", ":", 16);
  }

  lemma CommandHides(value: string)
    requires IsQuoted(value)
    ensures Redact(Assignments, Command(value)) == Command(REDACTED)
  {
    hide Mask, MatchKey;
    var s := Command(value);
    assert s[0] == '-' && s[1] == 'u' && s[2] == ' ';
    NoKeyAt(true, s);
    PlainKept(true, s);
    NoKeyAt(false, s[1..]);
    PlainKept(false, s[1..]);
    BoundaryKept(false, s[1..][1..]);
    assert s[1..][1..][1..] == s[3..];
    assert s[3..] == "jwt=\"" + value + "\"" + ":@";
    QuotedOnce(s[3..], value);
    assert ['-'] + (['u'] + ([' '] + ("jwt=\"" + REDACTED + "\"" + ":@"))) == Command(REDACTED);
  }

  lemma NoKeyAt(before: bool, s: string)
    requires s != "" && (s[0] == '-' || s[0] == 'u')
    ensures MatchKey(before, s, SENSITIVE_KEYS) == 0
  {
    hide SENSITIVE_KEYS;
    NonEmptyKeys();
    var k := MatchedKey(before, s, SENSITIVE_KEYS);
    if k < |SENSITIVE_KEYS| {
      KeyFirsts(k);
    }
  }

  lemma KeyFirsts(k: nat)
    requires k < |SENSITIVE_KEYS|
    ensures SENSITIVE_KEYS[k] != "" && Lower(SENSITIVE_KEYS[k][0]) != '-' && Lower(SENSITIVE_KEYS[k][0]) != 'u'
  {
  }

  lemma QuotedOnce(s: string, value: string)
    requires s == "jwt=\"" + value + "\"" + ":@"
    requires forall i | 0 <= i < |value| :: value[i] != '"'
    ensures Assigned(true, s) == "jwt=\"" + REDACTED + "\"" + ":@"
  {
    hide MatchKey, ScanLen, SpaceLen, REDACTED, KeyStep, Emit, Mask;
    assert s[..3] == "jwt";
    KeyJwt(s);
    var end := 5 + |value|;
    QuotedStep(s, value);
    QuotedMask(s, end);
    assert s[end + 1..] == ":@" && s[..5] == "jwt=\"" && s[end..end + 1] == "\"";
    SchemeIsBoundary();
    BoundariesKept(IsBoundary(s[end]), ":@");
  }

  lemma QuotedMask(s: string, end: nat)
    requires 5 <= end < |s| && AssignStep(true, s) == Piece(5, end, end + 1, true)
    ensures Assigned(true, s) == s[..5] + REDACTED + s[end..end + 1] + Assigned(IsBoundary(s[end]), s[end + 1..])
  {
    hide AssignStep, IsBoundary, REDACTED;
    AssignPiece(true, s);
  }

  lemma QuotedStep(s: string, value: string)
    requires s == "jwt=\"" + value + "\"" + ":@"
    requires forall i | 0 <= i < |value| :: value[i] != '"'
    ensures KeyStep(s, 3) == Piece(5, 5 + |value|, 6 + |value|, true)
  {
    hide ScanLen, SpaceLen;
    assert s[3] == '=' && s[4] == '"' && s[5 + |value|] == '"';
    SpaceLenUnique(s[3..], 0);
    SpaceLenUnique(s[4..], 0);
    assert s[5..] == value + "\":@";
    ScanLenUnique(s[5..], "\"", |value|);
    assert [s[4]] == "\"";
  }

  lemma {:induction false} BoundariesKept(before: bool, s: string)
    requires forall i | 0 <= i < |s| :: IsBoundary(s[i])
    ensures Assigned(before, s) == s
    decreases |s|
  {
    hide Assigned, IsBoundary;
    if s == "" {
      AssignedEmpty(before);
    } else {
      BoundaryKept(before, s);
      BoundariesKept(true, s[1..]);
    }
  }

  lemma {:induction false} KeyFound(s: string, keys: seq<string>, k: nat)
    requires k < |keys| && KeyMatches(true, s, keys[k])
    requires forall i | 0 <= i < k :: keys[i] != "" && s != "" && Lower(keys[i][0]) != Lower(s[0])
    ensures MatchKey(true, s, keys) == |keys[k]|
  {
    hide StartsWith;
    if k > 0 {
      assert !StartsWith(s, keys[0]) by { StartsAlike(s, keys[0]); }
      KeyFound(s, keys[1..], k - 1);
    }
  }

  lemma StartsAlike(s: string, needle: string)
    requires s != "" && needle != ""
    ensures StartsWith(s, needle) ==> Lower(s[0]) == Lower(needle[0])
  {
  }

  lemma KeyJwt(s: string)
    requires |s| > 3 && s[..3] == "jwt" && IsBoundary(s[3])
    ensures MatchKey(true, s, SENSITIVE_KEYS) == 3
  {
    hide MatchKey, SENSITIVE_KEYS, IsBoundary;
    assert s[0] == 'j' && s[1] == 'w' && s[2] == 't';
    KeysBeforeJwt();
    KeyFound(s, SENSITIVE_KEYS, 7);
  }

  lemma KeysBeforeJwt()
    ensures |SENSITIVE_KEYS| == 15 && SENSITIVE_KEYS[7] == "jwt"
    ensures forall i | 0 <= i < 7 :: SENSITIVE_KEYS[i] != "" && Lower(SENSITIVE_KEYS[i][0]) != 'j'
  {
  }

  /** The assignment pass on `jwt:` with its value and boundaries around. */
  lemma JwtOnce(s: string, value: string, rest: string)
    requires s == "jwt:" + value + rest
    requires value != "" && value[0] !in " \t\"'"
    requires forall i | 0 <= i < |value| :: value[i] !in VALUE_ENDS
    requires rest != "" ==> rest[0] in VALUE_ENDS
    requires forall i | 0 <= i < |rest| :: IsBoundary(rest[i])
    ensures Redact(Assignments, s) == "jwt:" + REDACTED + rest
  {
    hide MatchKey, ScanLen, SpaceLen, VALUE_ENDS, REDACTED, KeyStep, Emit, Mask;
    KeyJwt(s);
    var end := 4 + |value|;
    JwtStep(s, value, rest);
    assert AssignStep(true, s) == Piece(4, end, end, true);
    AssignPiece(true, s);
    JwtMask(s, end);
    assert s[end..] == rest && s[..4] == "jwt:";
    BoundariesKept(IsBoundary(s[end - 1]), rest);
  }

  lemma JwtMask(s: string, end: nat)
    requires 4 < end <= |s| && AssignStep(true, s) == Piece(4, end, end, true)
    ensures Redact(Assignments, s)
         == s[..4] + REDACTED + Assigned(IsBoundary(s[end - 1]), s[end..])
  {
    hide AssignStep, IsBoundary, REDACTED;
    AssignPiece(true, s);
  }

  lemma JwtStep(s: string, value: string, rest: string)
    requires s == "jwt:" + value + rest
    requires value != "" && value[0] !in " \t\"'"
    requires forall i | 0 <= i < |value| :: value[i] !in VALUE_ENDS
    requires rest != "" ==> rest[0] in VALUE_ENDS
    ensures KeyStep(s, 3) == Piece(4, 4 + |value|, 4 + |value|, true)
  {
    hide ScanLen, SpaceLen, VALUE_ENDS;
    assert s[3] == ':' && s[4] == value[0];
    SpaceLenUnique(s[3..], 0);
    SpaceLenUnique(s[4..], 0);
    assert s[4..] == value + rest;
    ScanLenUnique(s[4..], VALUE_ENDS, |value|);
  }

  /** The two bytes in front of the key and the sign are boundaries, copied one by one. */
  lemma SchemeKept(s: string)
    requires |s| >= 3 && s[..3] == "://"
    ensures Redact(Assignments, s) == "://" + Redact(Assignments, s[3..])
  {
    hide Mask, IsBoundary;
    assert s[0] == ':' && s[1] == '/' && s[2] == '/';
    assert IsBoundary(':') && IsBoundary('/') by { SchemeIsBoundary(); }
    BoundaryKept(true, s);
    BoundaryKept(true, s[1..]);
    assert s[1..][1..] == s[2..] && s[2..][1..] == s[3..];
    BoundaryKept(true, s[2..]);
  }

  lemma SchemeIsBoundary()
    ensures IsBoundary(':') && IsBoundary('/') && IsBoundary(',') && IsBoundary('@')
  {
  }
}

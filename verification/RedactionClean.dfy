/**
  What the token pass has settled stays settled: behind every `Bearer` and `Basic` of its output
  stands `<redacted>` or nothing, and overwriting assignments keeps it so.
 */
module RedactionClean {
  import opened Scan
  import opened Redaction
  import opened RedactionCost
  import Stable = RedactionStable

  predicate IsTokenClean(z: string) {
    var n := ScanLen(z, TOKEN_ENDS);
    n == 0 || z[..n] == REDACTED
  }

  /** A marker in front of `s` is spelled as the pass spells it, and its token is overwritten. */
  predicate IsHeadClean(s: string) {
    var m := AuthMarker(s);
    m != "" ==> s[..|m|] == m && IsTokenClean(s[|m|..])
  }

  predicate IsClean(s: string) {
    s == "" || (IsHeadClean(s) && IsClean(s[1..]))
  }

  lemma CleanPlain(c: char, z: string)
    requires IsClean(z) && AuthMarker([c] + z) == ""
    ensures IsClean([c] + z)
  {
    hide AuthMarker, IsTokenClean;
    assert ([c] + z)[1..] == z;
  }

  lemma {:induction false} CleanBehind(x: string, z: string)
    requires IsClean(z) && forall i | 0 <= i < |x| :: Lower(x[i]) != 'b'
    ensures IsClean(x + z)
    decreases |x|
  {
    hide IsClean, AuthMarker;
    if x == "" {
      assert x + z == z;
    } else {
      CleanBehind(x[1..], z);
      NoMarker([x[0]] + (x[1..] + z));
      CleanPlain(x[0], x[1..] + z);
      assert x + z == [x[0]] + (x[1..] + z);
    }
  }

  lemma {:induction false} CleanTail(s: string, n: nat)
    requires IsClean(s) && n <= |s|
    ensures IsClean(s[n..])
    decreases n
  {
    hide IsHeadClean;
    if n == 0 {
      assert s[0..] == s;
    } else {
      CleanTail(s[1..], n - 1);
      assert s[1..][n - 1..] == s[n..];
    }
  }

  // After the token pass

  lemma PlainStays(s: string)
    requires s != "" && AuthMarker(s) == ""
    ensures Redact(Auth, s) != "" && AuthMarker(Redact(Auth, s)) == ""
  {
    hide AuthMarker, Mask, AuthStep, REDACTED;
    Stable.MarkedAuth(s);
    Stable.PlainAgain(Auth, true, s, REDACTED);
    AuthPlain(s);
    Stable.MarkedAuth(Redact(Auth, s));
    AuthMarkerShape(Redact(Auth, s));
  }

  lemma TokenThen(y: string)
    requires y != "" ==> y[0] in TOKEN_ENDS
    ensures IsTokenClean(y) && IsTokenClean(REDACTED + y)
  {
    HiddenFree();
    hide REDACTED, TOKEN_ENDS;
    ScanLenUnique(y, TOKEN_ENDS, 0);
    ScanLenUnique(REDACTED + y, TOKEN_ENDS, |REDACTED|);
    assert (REDACTED + y)[..|REDACTED|] == REDACTED;
  }

  lemma HiddenFree()
    ensures forall i | 0 <= i < |REDACTED| :: REDACTED[i] !in TOKEN_ENDS
  {
  }

  lemma TokenEndKept(pass: Pass, before: bool, rest: string)
    requires rest != "" ==> rest[0] in TOKEN_ENDS
    ensures var y := Mask(pass, before, rest, REDACTED);
      y != "" ==> y[0] in TOKEN_ENDS
  {
    hide Mask, TOKEN_ENDS, REDACTED;
    if rest == "" {
      Stable.EmptyMask(pass, before, REDACTED);
    } else {
      Stable.TokenEndsAreDelimiters(rest[0]);
      Stable.HeadKept(pass, before, rest, REDACTED);
    }
  }

  lemma MarkerThen(m: string, z: string)
    requires IsMarker(m)
    ensures AuthMarker(m + z) == m && (m + z)[..|m|] == m && (m + z)[|m|..] == z
    ensures forall i | 1 <= i < |m| :: Lower(m[i]) != 'b'
  {
    Stable.AuthMarkerAgain(m, z);
  }

  lemma CleanFirst(s: string)
    requires s != "" && IsHeadClean(s) && IsClean(s[1..])
    ensures IsClean(s)
  {
    hide IsHeadClean;
  }

  lemma HeadThen(m: string, z: string)
    requires IsMarker(m)
    requires IsTokenClean(z)
    ensures IsHeadClean(m + z)
  {
    hide AuthMarker, IsTokenClean;
    MarkerThen(m, z);
  }

  lemma HeadedClean(m: string, z: string)
    requires m != "" && IsHeadClean(m + z) && IsClean(z) && forall i | 1 <= i < |m| :: Lower(m[i]) != 'b'
    ensures IsClean(m + z)
  {
    hide IsHeadClean, IsClean;
    CleanBehind(m[1..], z);
    assert (m + z)[1..] == m[1..] + z;
    CleanFirst(m + z);
  }

  lemma MarkedClean(m: string, z: string)
    requires IsMarker(m)
    requires IsClean(z) && IsTokenClean(z)
    ensures IsClean(m + z)
  {
    hide AuthMarker, IsTokenClean, IsHeadClean, IsClean;
    HeadThen(m, z);
    MarkerThen(m, z);
    HeadedClean(m, z);
  }

  predicate IsMarker(m: string) {
    m == "Bearer " || m == "Basic "
  }

  lemma AuthMarkerIs(s: string)
    ensures AuthMarker(s) == "" || IsMarker(AuthMarker(s))
  {
  }

  lemma ShownClean(m: string, token: string, y: string)
    requires IsMarker(m) && IsClean(y) && (y != "" ==> y[0] in TOKEN_ENDS)
    ensures IsClean(m + (if token == "" then "" else REDACTED) + y)
  {
    hide IsTokenClean, IsClean, TOKEN_ENDS, REDACTED, IsMarker;
    TokenThen(y);
    var shown := if token == "" then "" else REDACTED;
    HiddenQuiet();
    CleanBehind(shown, y);
    assert "" + y == y;
    MarkedClean(m, shown + y);
    assert m + shown + y == m + (shown + y);
  }

  /** The token pass leaves clean text. */
  lemma {:induction false} AuthCleans(s: string)
    ensures IsClean(Redact(Auth, s))
    decreases |s|
  {
    hide Redact, AuthMarker, IsClean, TOKEN_ENDS, REDACTED;
    if s == "" {
      NothingRedacted(Auth);
      EmptyClean();
    } else if AuthMarker(s) == "" {
      AuthCleans(s[1..]);
      AuthPlain(s);
      PlainStays(s);
      CleanPlain(s[0], Redact(Auth, s[1..]));
    } else {
      var m, token, rest := AuthMarked(s);
      AuthMarkerIs(s);
      AuthCleans(rest);
      RedactEnds(rest);
      ShownClean(m, token, Redact(Auth, rest));
    }
  }

  lemma EmptyClean()
    ensures IsClean("")
  {
  }

  lemma RedactEnds(rest: string)
    requires rest != "" ==> rest[0] in TOKEN_ENDS
    ensures Redact(Auth, rest) != "" ==> Redact(Auth, rest)[0] in TOKEN_ENDS
  {
    hide Mask, TOKEN_ENDS;
    TokenEndKept(Auth, true, rest);
  }

  lemma HeadMeans(s: string, token: string, rest: string)
    requires IsClean(s) && AuthMarker(s) != "" && s[|AuthMarker(s)|..] == token + rest
    requires forall i | 0 <= i < |token| :: token[i] !in TOKEN_ENDS
    requires rest != "" ==> rest[0] in TOKEN_ENDS
    ensures (token == "" || token == REDACTED) && s == AuthMarker(s) + token + rest
  {
    hide AuthMarker, TOKEN_ENDS, REDACTED;
    var m := AuthMarker(s);
    AuthMarkerShape(s);
    assert IsHeadClean(s);
    var z := token + rest;
    ScanLenUnique(z, TOKEN_ENDS, |token|);
    assert z[..|token|] == token;
    assert s == s[..|m|] + z;
    assert m + token + rest == m + z;
  }

  /** Clean text is left alone. */
  lemma {:induction false} CleanFixed(s: string)
    requires IsClean(s)
    ensures Redact(Auth, s) == s
    decreases |s|
  {
    hide Redact, AuthMarker, TOKEN_ENDS, REDACTED, IsHeadClean;
    if s == "" {
      NothingRedacted(Auth);
    } else if AuthMarker(s) == "" {
      AuthPlain(s);
      CleanFixed(s[1..]);
    } else {
      var m, token, rest := AuthMarked(s);
      assert s[|m|..] == token + rest;
      CleanTail(s, |m| + |token|);
      CleanFixed(rest);
      HeadMeans(s, token, rest);
    }
  }

  // After the assignment pass

  function Assigned(before: bool, s: string): string {
    Mask(Assignments, before, s, REDACTED)
  }

  lemma AssignedEmpty(before: bool)
    ensures Assigned(before, "") == ""
  {
    Stable.EmptyMask(Assignments, before, REDACTED);
  }

  lemma PlainKept(before: bool, s: string)
    requires s != "" && MatchKey(before, s, SENSITIVE_KEYS) == 0
    ensures Assigned(before, s) == [s[0]] + Assigned(IsBoundary(s[0]), s[1..])
  {
    hide Mask, MatchKey, IsBoundary;
    PlainMask(Assignments, before, s, REDACTED);
  }

  lemma BoundaryKept(before: bool, s: string)
    requires s != "" && IsBoundary(s[0])
    ensures Assigned(before, s) == [s[0]] + Assigned(true, s[1..])
  {
    hide Mask, MatchKey, IsBoundary;
    SensitiveKeysAreWords();
    Stable.NoKeyAtBoundary(before, s, SENSITIVE_KEYS);
    PlainKept(before, s);
  }

  /** From inside a word on, the rest of the word is copied. */
  lemma {:induction false} InsideWordKept(x: string, z: string)
    requires forall i | 0 <= i < |x| :: !IsBoundary(x[i])
    ensures Assigned(false, x + z) == x + Assigned(false, z)
    decreases |x|
  {
    hide Assigned, MatchKey, IsBoundary;
    if x == "" {
      assert x + z == z;
    } else {
      var s := x + z;
      Stable.NoKeyInsideWord(s);
      PlainKept(false, s);
      assert s[1..] == x[1..] + z;
      InsideWordKept(x[1..], z);
      assert x == [x[0]] + x[1..];
    }
  }

  lemma NotRedactedKey(s: string)
    requires BeginsHidden(['<'] + s)
    ensures MatchKey(true, s, SENSITIVE_KEYS) == 0
  {
    var t := ['<'] + s;
    assert t[..10] == "<redacted>";
    assert t[1] == t[..10][1] && t[2] == t[..10][2] && t[3] == t[..10][3];
    assert s[0] == 'r' && s[1] == 'e' && s[2] == 'd';
    hide MatchKey, SENSITIVE_KEYS, BeginsHidden, REDACTED, IsBoundary;
    NonEmptyKeys();
    var k := MatchedKey(true, s, SENSITIVE_KEYS);
    if k < |SENSITIVE_KEYS| {
      KeysThird(s, k);
    }
  }

  lemma NonEmptyKeys()
    ensures forall i | 0 <= i < |SENSITIVE_KEYS| :: SENSITIVE_KEYS[i] != ""
  {
  }

  lemma KeysThird(s: string, k: nat)
    requires k < |SENSITIVE_KEYS| && |s| > 2 && s[0] == 'r' && s[1] == 'e' && s[2] == 'd'
    ensures !KeyMatches(true, s, SENSITIVE_KEYS[k])
  {
    var key := SENSITIVE_KEYS[k];
    assert key[0] == 'r' ==> key[2] == 'f';
  }

  lemma HiddenKept(before: bool, z: string)
    ensures Assigned(before, REDACTED + z) == REDACTED + Assigned(true, z)
  {
    hide Assigned, MatchKey, SENSITIVE_KEYS;
    var w := "edacted";
    var s := ['r'] + w + ([">"[0]] + z);
    assert REDACTED == ['<'] + ['r'] + w + ['>'];
    assert REDACTED + z == ['<'] + s;
    BoundaryKept(before, ['<'] + s);
    assert (['<'] + s)[1..] == s;
    assert (['<'] + s)[..10] == REDACTED;
    NotRedactedKey(s);
    PlainKept(true, s);
    assert s[1..] == w + (['>'] + z);
    InsideWordKept(w, ['>'] + z);
    BoundaryKept(false, ['>'] + z);
  }

  lemma TokenKept(z: string)
    requires IsTokenClean(z)
    ensures IsTokenClean(Assigned(true, z))
  {
    hide TOKEN_ENDS, REDACTED, Mask;
    var n := ScanLen(z, TOKEN_ENDS);
    var rest := z[n..];
    if n == 0 {
      assert z != "" ==> z[0] in TOKEN_ENDS;
      TokenEndKept(Assignments, true, z);
      TokenThen(Assigned(true, z));
    } else {
      assert z == REDACTED + rest;
      assert rest != "" ==> rest[0] == z[n];
      HiddenKept(true, rest);
      TokenEndKept(Assignments, true, rest);
      TokenThen(Assigned(true, rest));
    }
  }

  lemma MarkerByPrefix(s: string, t: string)
    requires AuthMarker(s) != "" && |AuthMarker(s)| <= |t| && s[..|AuthMarker(s)|] == t[..|AuthMarker(s)|]
    ensures AuthMarker(t) == AuthMarker(s)
  {
    var n := |AuthMarker(s)|;
    assert forall i | 0 <= i < n :: s[i] == s[..n][i] == t[..n][i] == t[i];
    assert s[1] == t[1];
  }

  /** The word that a marker is made of, and the space behind it. */
  lemma MarkerWord(s: string)
    requires AuthMarker(s) != ""
    ensures var n := |AuthMarker(s)|;
      && 2 < n <= |s| && !IsBoundary(s[0]) && Stable.WordLen(s[1..]) == n - 2 && s[n - 1] == ' '
  {
    AuthMarkerIs(s);
    var n := |AuthMarker(s)|;
    var t := s[1..];
    forall i | 0 <= i < n - 2 ensures !IsBoundary(t[i]) { assert t[i] == s[i + 1]; }
    assert t[n - 2] == s[n - 1];
    Stable.WordLenUnique(t, n - 2);
  }

  /** A word at whose front no key stands is copied. */
  lemma PlainWord(before: bool, t: string)
    requires t != "" && !IsBoundary(t[0]) && MatchKey(before, t, SENSITIVE_KEYS) == 0
    ensures var out := Assigned(before, t);
      out != "" && !IsBoundary(out[0]) && Stable.WordLen(out[1..]) == Stable.WordLen(t[1..])
  {
    hide Mask, MatchKey, IsBoundary, Stable.WordLen;
    PlainKept(before, t);
    Stable.WordKept(t[1..], REDACTED);
    assert Assigned(before, t)[1..] == Assigned(false, t[1..]);
  }

  /** The boundary behind it is copied, too. */
  lemma PlainWordText(before: bool, t: string)
    requires t != "" && !IsBoundary(t[0]) && MatchKey(before, t, SENSITIVE_KEYS) == 0
    ensures var k := 1 + Stable.WordLen(t[1..]);
      Assigned(before, t) == if k == |t| then t else t[..k + 1] + Assigned(true, t[k + 1..])
  {
    hide Assigned, MatchKey, IsBoundary;
    PlainKept(before, t);
    var k := Stable.WordLen(t[1..]);
    var x, z := t[1..][..k], t[1..][k..];
    assert t[1..] == x + z;
    InsideWordKept(x, z);
    AssignedEmpty(false);
    if z == "" {
      assert x + z == x;
    } else {
      BoundaryKept(false, z);
      TextOf(t, k, Assigned(true, z[1..]));
    }
  }

  lemma TextOf(t: string, k: nat, y: string)
    requires k + 1 < |t|
    ensures [t[0]] + (t[1..][..k] + ([t[1..][k..][0]] + y)) == t[..k + 2] + y && t[1..][k..][1..] == t[k + 2..]
  {
  }

  /** Where the output shows a marker at a place that was copied, the input had it, and its token is kept. */
  lemma PlainHead(before: bool, t: string)
    requires t != "" && IsHeadClean(t) && MatchKey(before, t, SENSITIVE_KEYS) == 0
    ensures IsHeadClean(Assigned(before, t))
  {
    hide Assigned, MatchKey, AuthMarker, IsTokenClean, IsBoundary, Stable.WordLen;
    var out := Assigned(before, t);
    if AuthMarker(out) != "" {
      MarkerWord(out);
      PlainKept(before, t);
      PlainWord(before, t);
      PlainWordText(before, t);
      var k := 1 + Stable.WordLen(t[1..]);
      if k < |t| {
        PrefixHead(t, out, k + 1);
      }
    }
  }

  lemma PrefixHead(t: string, out: string, n: nat)
    requires AuthMarker(out) != "" && n == |AuthMarker(out)| && n <= |t|
    requires out == t[..n] + Assigned(true, t[n..]) && IsHeadClean(t)
    ensures IsHeadClean(out)
  {
    hide Mask, AuthMarker, IsTokenClean, Assigned;
    AuthMarkerShape(out);
    assert out[..n] == t[..n] && out[n..] == Assigned(true, t[n..]);
    MarkerByPrefix(out, t);
    TokenKept(t[n..]);
  }

  /** A key is a whole word, and none ends as a marker's word does. */
  lemma KeyWord(before: bool, s: string)
    requires MatchKey(before, s, SENSITIVE_KEYS) > 0
    ensures var key := MatchKey(before, s, SENSITIVE_KEYS);
      && key <= |s| && IsNoMarkerWord(s[..key]) && (key < |s| ==> IsBoundary(s[key]))
  {
    hide SENSITIVE_KEYS, StartsWith, IsBoundary;
    NonEmptyKeys();
    SensitiveKeysAreWords();
    KeyIsAscii(before, s, SENSITIVE_KEYS);
    var k := MatchedKey(before, s, SENSITIVE_KEYS);
    KeyEnds(s, k);
  }

  predicate IsNoMarkerWord(x: string) {
    && x != "" && (forall i | 0 <= i < |x| :: !IsBoundary(x[i]))
    && Lower(x[|x| - 1]) != 'r' && Lower(x[|x| - 1]) != 'c'
  }

  lemma KeyEnds(s: string, k: nat)
    requires k < |SENSITIVE_KEYS| && SENSITIVE_KEYS[k] != "" && StartsWith(s, SENSITIVE_KEYS[k])
    ensures Lower(s[|SENSITIVE_KEYS[k]| - 1]) != 'r' && Lower(s[|SENSITIVE_KEYS[k]| - 1]) != 'c'
  {
    LastLetters(k);
    hide SENSITIVE_KEYS;
  }

  lemma LastLetters(k: nat)
    requires k < |SENSITIVE_KEYS|
    ensures var key := SENSITIVE_KEYS[k];
      key != "" && Lower(key[|key| - 1]) != 'r' && Lower(key[|key| - 1]) != 'c'
  {
  }

  /** No marker begins in such a word when it ends there. */
  lemma {:induction false} WordClean(x: string, z: string)
    requires IsNoMarkerWord(x) && IsClean(z) && (z != "" ==> IsBoundary(z[0]))
    ensures IsClean(x + z)
    decreases |x|
  {
    hide IsBoundary, IsClean, AuthMarker;
    var s := x + z;
    NoMarkerInWord(x, z);
    assert s[1..] == x[1..] + z && s == [x[0]] + (x[1..] + z);
    if |x| > 1 {
      assert x[1..][|x| - 2] == x[|x| - 1];
      WordClean(x[1..], z);
    } else {
      assert x[1..] + z == z;
    }
    CleanPlain(x[0], x[1..] + z);
  }

  lemma NoMarkerInWord(x: string, z: string)
    requires IsNoMarkerWord(x) && (z != "" ==> IsBoundary(z[0]))
    ensures AuthMarker(x + z) == ""
  {
    hide AuthMarker, IsBoundary;
    var s := x + z;
    WordEnds(x, z);
    if AuthMarker(s) != "" {
      MarkerWord(s);
      MarkerLetter(s);
    }
  }

  lemma WordEnds(x: string, z: string)
    requires x != "" && (forall i | 0 <= i < |x| :: !IsBoundary(x[i])) && (z != "" ==> IsBoundary(z[0]))
    ensures Stable.WordLen((x + z)[1..]) == |x| - 1 && (x + z)[|x| - 1] == x[|x| - 1]
  {
    hide IsBoundary;
    var s := x + z;
    var k := |x| - 1;
    assert s[1..] == x[1..] + z;
    Stable.WordLenUnique(s[1..], k);
  }

  lemma MarkerLetter(s: string)
    requires AuthMarker(s) != ""
    ensures var n := |AuthMarker(s)|;
      2 < n <= |s| && (Lower(s[n - 2]) == 'r' || Lower(s[n - 2]) == 'c')
  {
    AuthMarkerIs(s);
  }

  predicate IsQuiet(s: string) {
    forall i | 0 <= i < |s| :: Lower(s[i]) != 'b'
  }

  lemma ValueQuiet(s: string, value: nat, authorization: bool)
    requires value <= |s|
    ensures var p := ValueStep(s, value, authorization);
      && value <= p.from <= p.to <= p.len <= |s| && IsQuiet(s[value..p.from]) && IsQuiet(s[p.to..p.len])
  {
    hide ValueEnds, ScanLen;
  }

  lemma SpacesQuiet(s: string, at: nat)
    requires at <= |s|
    ensures IsQuiet(s[at..at + SpaceLen(s[at..])])
  {
    var n := SpaceLen(s[at..]);
    var x := s[at..at + n];
    forall i | 0 <= i < |x| ensures Lower(x[i]) != 'b' { assert x[i] == s[at..][i]; }
  }

  lemma QuietJoin(s: string, a: nat, b: nat, c: nat)
    requires a <= b <= c <= |s| && IsQuiet(s[a..b]) && IsQuiet(s[b..c])
    ensures IsQuiet(s[a..c])
  {
    forall i | 0 <= i < c - a ensures Lower(s[a..c][i]) != 'b' {
      if i < b - a { assert s[a..c][i] == s[a..b][i]; } else { assert s[a..c][i] == s[b..c][i - (b - a)]; }
    }
  }

  /** What stands around a secret, behind its key, begins no marker. */
  lemma LeadQuiet(before: bool, s: string)
    requires MatchKey(before, s, SENSITIVE_KEYS) > 0
    ensures var key := MatchKey(before, s, SENSITIVE_KEYS);
      var p := AssignStep(before, s);
      && key <= p.from <= p.to <= p.len <= |s| && IsQuiet(s[key..p.from]) && IsQuiet(s[p.to..p.len])
  {
    hide MatchKey, ValueStep, Stable.HasSign, Stable.SignAt, KeyStep, IsAuthorization, IsQuiet;
    var key := MatchKey(before, s, SENSITIVE_KEYS);
    Stable.SignedStep(s, key);
    if Stable.HasSign(s, key) {
      var after := Stable.SignAt(s, key) + 1;
      SignQuiet(s, key);
      var value := after + SpaceLen(s[after..]);
      SpacesQuiet(s, after);
      ValueQuiet(s, value, IsAuthorization(s[..key]));
      var p := AssignStep(before, s);
      QuietJoin(s, key, after, value);
      QuietJoin(s, key, value, p.from);
    } else {
      CursorQuiet(s, key);
    }
  }

  lemma CursorQuiet(s: string, key: nat)
    requires key <= |s|
    ensures var cursor := if QuoteAt(s, key) then key + 1 else key;
      cursor <= |s| && IsQuiet(s[key..cursor]) && IsQuiet(s[cursor..cursor])
  {
  }

  lemma SignQuiet(s: string, key: nat)
    requires key <= |s| && Stable.HasSign(s, key)
    ensures IsQuiet(s[key..Stable.SignAt(s, key) + 1])
  {
    hide IsQuiet, SpaceLen;
    var cursor := if QuoteAt(s, key) then key + 1 else key;
    var sign := Stable.SignAt(s, key);
    CursorQuiet(s, key);
    SpacesQuiet(s, cursor);
    QuietJoin(s, key, cursor, sign);
    OneQuiet(s, sign);
    QuietJoin(s, key, sign, sign + 1);
  }

  lemma OneQuiet(s: string, at: nat)
    requires at < |s| && (s[at] == ':' || s[at] == '=')
    ensures IsQuiet(s[at..at + 1])
  {
  }

  lemma PlainCleans(before: bool, t: string)
    requires t != "" && IsHeadClean(t) && MatchKey(before, t, SENSITIVE_KEYS) == 0
    requires IsClean(Assigned(IsBoundary(t[0]), t[1..]))
    ensures IsClean(Assigned(before, t))
  {
    hide MatchKey, IsBoundary, Assigned, IsHeadClean, IsClean;
    PlainKept(before, t);
    PlainHead(before, t);
    CleanFirst(Assigned(before, t));
  }

  /** The text that a key's piece and the rest are overwritten with: the key, what leads to the secret, and what follows. */
  lemma KeyedText(before: bool, t: string) returns (x: string, b: string, shown: string, d: string, y: string)
    requires t != "" && MatchKey(before, t, SENSITIVE_KEYS) > 0
    ensures var p := AssignStep(before, t);
      && IsPieceOf(p, t) && 0 < p.len <= |t| && y == Assigned(IsBoundary(t[p.len - 1]), t[p.len..])
    ensures Assigned(before, t) == x + (b + (shown + (d + y)))
    ensures IsNoMarkerWord(x) && IsQuiet(b) && IsQuiet(d) && (shown == "" || shown == REDACTED)
    ensures b + (shown + (d + y)) != "" ==> IsBoundary((b + (shown + (d + y)))[0])
  {
    hide MatchKey, IsBoundary, REDACTED, AssignStep, IsQuiet, Mask;
    var key, p := MatchKey(before, t, SENSITIVE_KEYS), AssignStep(before, t);
    Stable.MaskOverwrites(Assignments, before, t, REDACTED);
    KeyWord(before, t);
    LeadQuiet(before, t);
    x, b, d := t[..key], t[key..p.from], t[p.to..p.len];
    shown := if p.hit then REDACTED else "";
    y := Mask(Assignments, IsBoundary(t[p.len - 1]), t[p.len..], REDACTED);
    assert t[..p.from] == x + b;
    FourJoin(x, b, shown, d, y);
    if p.from > key {
      assert b[0] == t[key];
    } else {
      KeyAlone(before, t);
      assert b + (shown + (d + y)) == y;
      RestBoundary(IsBoundary(t[p.len - 1]), t[key..]);
    }
  }

  lemma RestBoundary(before: bool, rest: string)
    requires rest != "" ==> IsBoundary(rest[0])
    ensures Assigned(before, rest) != "" ==> IsBoundary(Assigned(before, rest)[0])
  {
    hide Mask, IsBoundary;
    if rest == "" {
      AssignedEmpty(before);
    } else {
      Stable.HeadKept(Assignments, before, rest, REDACTED);
    }
  }

  lemma KeyedCleans(before: bool, t: string)
    requires t != "" && MatchKey(before, t, SENSITIVE_KEYS) > 0
    requires var p := AssignStep(before, t);
      IsPieceOf(p, t) && IsClean(Assigned(IsBoundary(t[p.len - 1]), t[p.len..]))
    ensures IsClean(Assigned(before, t))
  {
    hide MatchKey, IsBoundary, IsClean, REDACTED, AssignStep, IsQuiet, Assigned, IsNoMarkerWord, IsPieceOf;
    var x, b, shown, d, y := KeyedText(before, t);
    PartsClean(b, shown, d, y);
    WordClean(x, b + (shown + (d + y)));
  }

  lemma KeyAlone(before: bool, t: string)
    requires MatchKey(before, t, SENSITIVE_KEYS) > 0 && AssignStep(before, t).from <= MatchKey(before, t, SENSITIVE_KEYS)
    ensures AssignStep(before, t) == Copied(MatchKey(before, t, SENSITIVE_KEYS))
  {
    hide MatchKey, ValueStep, Stable.HasSign, Stable.SignAt, KeyStep, IsAuthorization;
    var key := MatchKey(before, t, SENSITIVE_KEYS);
    Stable.SignedStep(t, key);
    if Stable.HasSign(t, key) {
      var after := Stable.SignAt(t, key) + 1;
      Stable.ValueFrom(t, after + SpaceLen(t[after..]), IsAuthorization(t[..key]));
    }
  }

  lemma FourJoin(a: string, b: string, c: string, d: string, e: string)
    ensures a + b + c + d + e == a + (b + (c + (d + e)))
  {
  }

  lemma PartsClean(b: string, shown: string, d: string, y: string)
    requires IsQuiet(b) && IsQuiet(d) && IsClean(y) && (shown == "" || shown == REDACTED)
    ensures IsClean(b + (shown + (d + y)))
  {
    hide IsClean, REDACTED;
    HiddenQuiet();
    CleanBehind(d, y);
    CleanBehind(shown, d + y);
    CleanBehind(b, shown + (d + y));
  }

  /** Overwriting assignments leaves clean text clean. */
  lemma {:induction false} AssignKeepsClean(before: bool, t: string)
    requires IsClean(t)
    ensures IsClean(Assigned(before, t))
    decreases |t|
  {
    hide MatchKey, IsBoundary, Assigned, IsHeadClean, AssignStep, IsPieceOf, IsCleanPiece;
    if t == "" {
      AssignedEmpty(before);
    } else if MatchKey(before, t, SENSITIVE_KEYS) == 0 {
      AssignKeepsClean(IsBoundary(t[0]), t[1..]);
      PlainCleans(before, t);
    } else {
      AssignPiece(before, t);
      var p := AssignStep(before, t);
      Stable.PieceBounds(p, t);
      CleanTail(t, p.len);
      AssignKeepsClean(IsBoundary(t[p.len - 1]), t[p.len..]);
      KeyedCleans(before, t);
    }
  }

  /** The token pass finds nothing left to do behind the last two passes. */
  lemma TokensSettled(s: string)
    ensures var t := Redact(Assignments, Redact(Auth, s));
      Redact(Auth, t) == t
  {
    hide Mask, IsClean;
    AuthCleans(s);
    AssignKeepsClean(true, Redact(Auth, s));
    CleanFixed(Redact(Assignments, Redact(Auth, s)));
  }
}

/**
  Which secrets are hidden, said in the words that the log reader knows: the fifteen names of
  secrets, passwords in URLs, credentials in command lines, and tokens behind `Bearer` and `Basic`.
 */
module RedactionSecrets {
  import opened Scan
  import opened Redaction
  import opened RedactionPasses
  import opened RedactionCost
  import opened RedactionClean
  import opened RedactionFree
  import Stable = RedactionStable

  function Folded(s: string): string {
    seq(|s|, i requires 0 <= i < |s| => Lower(s[i]))
  }

  /** The name of a secret, in any letter case. */
  predicate IsSecretName(word: string) {
    var w := Folded(word);
    || w == "access_token" || w == "api_key" || w == "apikey" || w == "authorization" || w == "bearer_token"
    || w == "bot_token" || w == "cookie" || w == "jwt" || w == "passwd" || w == "password" || w == "pwd"
    || w == "refresh_token" || w == "secret" || w == "session_token" || w == "token"
  }

  lemma NamesListed(w: string) returns (k: nat)
    requires IsSecretName(w)
    ensures k < |SENSITIVE_KEYS| && Folded(w) == SENSITIVE_KEYS[k]
  {
    var f := Folded(w);
    k := if f == "access_token" then 0 else if f == "api_key" then 1 else if f == "apikey" then 2 else if f == "authorization" then 3
         else if f == "bearer_token" then 4 else if f == "bot_token" then 5 else if f == "cookie" then 6 else if f == "jwt" then 7
         else if f == "passwd" then 8 else if f == "password" then 9 else if f == "pwd" then 10 else if f == "refresh_token" then 11
         else if f == "secret" then 12 else if f == "session_token" then 13 else 14;
  }

  lemma ListedNames(k: nat, w: string)
    requires k < |SENSITIVE_KEYS| && Folded(w) == SENSITIVE_KEYS[k]
    ensures IsSecretName(w)
  {
  }

  lemma FoldedStarts(s: string, key: string)
    requires IsKeyWord(key) && |key| <= |s|
    ensures StartsWith(s, key) <==> Folded(s[..|key|]) == key
  {
    forall i | 0 <= i < |key| ensures Lower(key[i]) == key[i] { }
    if Folded(s[..|key|]) == key {
      forall i | 0 <= i < |key| ensures Lower(s[i]) == key[i] { assert Folded(s[..|key|])[i] == Lower(s[i]); }
    }
  }

  /** A key stands at a place exactly when the word there is the name of a secret and nothing of a word is in front. */
  lemma KeyIff(before: bool, s: string)
    ensures var n := Stable.WordLen(s);
      MatchKey(before, s, SENSITIVE_KEYS) == if before && IsSecretName(s[..n]) then n else 0
  {
    hide MatchKey, SENSITIVE_KEYS, Stable.WordLen, StartsWith, IsSecretName, KeyMatches, IsKeyWord;
    var n := Stable.WordLen(s);
    SensitiveKeysAreWords();
    NonEmptyKeys();
    var k := MatchedKey(before, s, SENSITIVE_KEYS);
    if k < |SENSITIVE_KEYS| {
      var key := SENSITIVE_KEYS[k];
      Stable.KeyIsWord(before, s, key);
      FoldedStarts(s, key);
      ListedNames(k, s[..n]);
    } else if before && IsSecretName(s[..n]) {
      var j := NamesListed(s[..n]);
      assert |Folded(s[..n])| == n;
      FoldedStarts(s, SENSITIVE_KEYS[j]);
      Stable.KeyIsWord(before, s, SENSITIVE_KEYS[j]);
    }
  }

  // Texts in which no secret begins

  /** No word of the text, with `before` at its front, is the name of a secret. */
  predicate IsNamelessFrom(before: bool, x: string) {
    forall i, j | 0 <= i <= j <= |x| && (if i == 0 then before else IsBoundary(x[i - 1])) && (j == |x| || IsBoundary(x[j])) ::
      !IsSecretName(x[i..j])
  }

  predicate IsNameless(x: string) {
    IsNamelessFrom(true, x)
  }

  /** Text behind which a word may begin. */
  predicate EndsAtBoundary(x: string) {
    x == "" || IsBoundary(x[|x| - 1])
  }

  lemma NamelessTail(before: bool, x: string)
    requires x != "" && IsNamelessFrom(before, x)
    ensures IsNamelessFrom(IsBoundary(x[0]), x[1..])
  {
    hide IsSecretName, IsBoundary;
    var t := x[1..];
    forall i, j | 0 <= i <= j <= |t| && (if i == 0 then IsBoundary(x[0]) else IsBoundary(t[i - 1])) && (j == |t| || IsBoundary(t[j]))
      ensures !IsSecretName(t[i..j])
    {
      assert t[i..j] == x[i + 1..j + 1];
    }
  }

  lemma NamelessHead(before: bool, x: string, z: string)
    requires x != "" && IsNamelessFrom(before, x) && IsBoundary(x[|x| - 1])
    ensures MatchKey(before, x + z, SENSITIVE_KEYS) == 0
  {
    hide IsSecretName, IsBoundary, MatchKey, SENSITIVE_KEYS;
    var n := Stable.WordLen(x);
    assert n < |x|;
    Stable.WordLenUnique(x + z, n);
    assert (x + z)[..n] == x[0..n];
    KeyIff(before, x + z);
    assert before ==> !IsSecretName(x[0..n]);
  }

  /** Text without the name of a secret is copied. */
  lemma {:induction false} NamelessKept(before: bool, x: string, z: string)
    requires IsNamelessFrom(before, x) && EndsAtBoundary(x)
    ensures Assigned(before, x + z) == x + Assigned(if x == "" then before else true, z)
    decreases |x|
  {
    hide Assigned, MatchKey, IsNamelessFrom, IsBoundary;
    if x == "" {
      assert x + z == z;
    } else {
      NamelessHead(before, x, z);
      PlainKept(before, x + z);
      assert (x + z)[1..] == x[1..] + z;
      NamelessTail(before, x);
      var next := IsBoundary(x[0]);
      if |x| > 1 {
        assert x[1..][|x| - 2] == x[|x| - 1];
      }
      NamelessKept(next, x[1..], z);
      assert [x[0]] + x[1..] == x;
    }
  }

  // Assignments

  predicate IsQuote(q: string) {
    q == "" || q == "\"" || q == "'"
  }

  predicate IsSpaces(a: string) {
    forall i | 0 <= i < |a| :: a[i] == ' ' || a[i] == '\t'
  }

  /** What ends the value of a secret: for an authorization the line or list, within quotes the quote, else also a space or bracket. */
  function EndsOf(key: string, open: string): string {
    if Folded(key) == "authorization" then "\r\n,;"
    else if open != "" then open
    else " \t\r\n,;&}]"
  }

  /** The name of a secret with what leads to its value. */
  function Lead(key: string, q: string, a: string, sign: char, b: string, open: string): string {
    key + q + a + [sign] + b + open
  }

  predicate IsLead(key: string, q: string, a: string, sign: char, b: string, open: string) {
    IsSecretName(key) && IsQuote(q) && IsSpaces(a) && (sign == ':' || sign == '=') && IsSpaces(b) && IsQuote(open)
  }

  /** Behind an opening quote stands anything, else nothing that would be a quote or a space. */
  predicate IsBehind(open: string, z: string) {
    open != "" || z == "" || z[0] !in " \t\"'"
  }

  lemma QuoteThere(p: string, q: string, r: string)
    requires IsQuote(q) && (q == "" ==> r == "" || (r[0] != '"' && r[0] != '\''))
    ensures QuoteAt(p + q + r, |p|) <==> q != ""
    ensures q != "" ==> (p + q + r)[|p|] == q[0] && |q| == 1
  {
  }

  lemma SpacesThere(p: string, a: string, r: string)
    requires IsSpaces(a) && (r == "" || (r[0] != ' ' && r[0] != '\t'))
    ensures SpaceLen((p + a + r)[|p|..]) == |a|
  {
    assert (p + a + r)[|p|..] == a + r;
    SpaceLenUnique(a + r, |a|);
  }

  lemma AuthorizationFolded(key: string)
    ensures IsAuthorization(key) <==> Folded(key) == "authorization"
  {
    assert |Folded(key)| == |key| && forall i | 0 <= i < |key| :: Folded(key)[i] == Lower(key[i]);
    assert |"authorization"| == 13 && forall i | 0 <= i < 13 :: Lower("authorization"[i]) == "authorization"[i];
  }

  /** The quote behind the name, the sign, and the value's place, as the step looks for them. */
  lemma LeadPlaces(s: string, key: string, q: string, a: string, sign: char, b: string, open: string, z: string)
    requires IsLead(key, q, a, sign, b, open) && IsBehind(open, z) && s == Lead(key, q, a, sign, b, open) + z
    ensures |key + q + a| < |s| && s[|key + q + a|] == sign && s[..|key|] == key
    ensures QuoteAt(s, |key|) <==> q != ""
    ensures SpaceLen(s[|key + q|..]) == |a|
  {
    hide IsSecretName, SpaceLen, QuoteAt;
    Assoc(key, q, a, sign, b, open, z);
    var tail := [sign] + (b + open + z);
    QuoteThere(key, q, a + tail);
    SpacesThere(key + q, a, tail);
    assert (key + q + a + tail)[|key + q + a|] == sign;
  }

  lemma ValuePlace(s: string, key: string, q: string, a: string, sign: char, b: string, open: string, z: string)
    requires IsLead(key, q, a, sign, b, open) && IsBehind(open, z) && s == Lead(key, q, a, sign, b, open) + z
    ensures var head := key + q + a + [sign];
      && |head + b| <= |s| && SpaceLen(s[|head|..]) == |b| && (QuoteAt(s, |head + b|) <==> open != "")
  {
    hide IsSecretName, SpaceLen, QuoteAt;
    Assoc(key, q, a, sign, b, open, z);
    var head := key + q + a + [sign];
    SpacesThere(head, b, open + z);
    QuoteThere(head + b, open, z);
  }

  /** Behind the name: the sign is found, and the value's place. */
  lemma LeadSigned(s: string, key: string, q: string, a: string, sign: char, b: string, open: string, z: string)
    requires IsLead(key, q, a, sign, b, open) && IsBehind(open, z) && s == Lead(key, q, a, sign, b, open) + z
    ensures var value := |key + q + a| + 1 + |b|;
      value <= |s| && KeyStep(s, |key|) == ValueStep(s, value, IsAuthorization(key))
      && (QuoteAt(s, value) <==> open != "")
  {
    hide IsSecretName, IsAuthorization, ValueStep, SpaceLen, QuoteAt, Lead;
    LeadPlaces(s, key, q, a, sign, b, open, z);
    ValuePlace(s, key, q, a, sign, b, open, z);
    assert q != "" ==> |q| == 1;
  }

  lemma Assoc(key: string, q: string, a: string, sign: char, b: string, open: string, z: string)
    ensures var s := Lead(key, q, a, sign, b, open) + z;
      && s == key + q + (a + ([sign] + (b + open + z))) && s == (key + q) + a + ([sign] + (b + open + z))
      && s == (key + q + a + [sign]) + b + (open + z) && s == (key + q + a + [sign] + b) + open + z
  {
  }

  /** Where the value's piece begins and ends. */
  lemma LeadStep(s: string, key: string, q: string, a: string, sign: char, b: string, open: string, z: string)
    requires IsLead(key, q, a, sign, b, open) && IsBehind(open, z) && s == Lead(key, q, a, sign, b, open) + z
    ensures var n := |Lead(key, q, a, sign, b, open)|;
      var end := n + ScanLen(z, EndsOf(key, open));
      AssignStep(true, s) == Piece(n, end, if open != "" && end < |s| && s[end] == open[0] then end + 1 else end, true)
  {
    hide IsSecretName, IsAuthorization, MatchKey, SENSITIVE_KEYS, ScanLen, KeyStep, Stable.WordLen;
    LeadWord(s, key, q, a, sign, b, open, z);
    LeadSigned(s, key, q, a, sign, b, open, z);
    AuthorizationFolded(key);
    var value := |key + q + a| + 1 + |b|;
    var n := |Lead(key, q, a, sign, b, open)|;
    assert s[n..] == z;
    assert open != "" ==> [s[value]] == open by { Assoc(key, q, a, sign, b, open, z); QuoteThere(key + q + a + [sign] + b, open, z); }
    ValueEndsAre(s, value, IsAuthorization(key), key, open);
  }

  lemma ValueEndsAre(s: string, value: nat, authorization: bool, key: string, open: string)
    requires value <= |s| && (QuoteAt(s, value) <==> open != "") && (open != "" ==> [s[value]] == open)
    requires authorization <==> Folded(key) == "authorization"
    ensures ValueEnds(s, value, authorization) == EndsOf(key, open)
  {
    hide Folded;
  }

  /** The name is the word at the front. */
  lemma LeadWord(s: string, key: string, q: string, a: string, sign: char, b: string, open: string, z: string)
    requires IsLead(key, q, a, sign, b, open) && s == Lead(key, q, a, sign, b, open) + z
    ensures MatchKey(true, s, SENSITIVE_KEYS) == |key| > 0
  {
    hide MatchKey, SENSITIVE_KEYS;
    NameIsWord(key);
    var rest := q + (a + ([sign] + (b + open + z)));
    assert s == key + rest by { Assoc(key, q, a, sign, b, open, z); }
    assert IsBoundary(rest[0]) by { LeadBoundary(q, a, sign, b + open + z); }
    Stable.WordLenUnique(s, |key|);
    assert s[..|key|] == key;
    KeyIff(true, s);
  }

  lemma LeadBoundary(q: string, a: string, sign: char, r: string)
    requires IsQuote(q) && IsSpaces(a) && (sign == ':' || sign == '=')
    ensures IsBoundary((q + (a + ([sign] + r)))[0])
  {
    if q != "" {
      assert (q + (a + ([sign] + r)))[0] == q[0];
    } else if a != "" {
      assert (q + (a + ([sign] + r)))[0] == a[0];
    }
  }

  lemma NameIsWord(key: string)
    requires IsSecretName(key)
    ensures key != "" && forall i | 0 <= i < |key| :: !IsBoundary(key[i])
  {
    hide IsSecretName, SENSITIVE_KEYS, IsBoundary, IsKeyWord;
    SensitiveKeysAreWords();
    var k := NamesListed(key);
    FoldedWord(key, SENSITIVE_KEYS[k]);
  }

  lemma FoldedWord(key: string, word: string)
    requires IsKeyWord(word) && Folded(key) == word
    ensures key != "" && forall i | 0 <= i < |key| :: !IsBoundary(key[i])
  {
    assert |Folded(key)| == |key|;
    forall i | 0 <= i < |key| ensures !IsBoundary(key[i]) { assert Folded(key)[i] == Lower(key[i]); }
  }

  /** One value: the name and what leads up to it stay, the value is overwritten, and the walk goes on behind it. */
  lemma LeadMask(s: string, key: string, q: string, a: string, sign: char, b: string, open: string, z: string)
    requires IsLead(key, q, a, sign, b, open) && IsBehind(open, z) && s == Lead(key, q, a, sign, b, open) + z
    ensures var n := ScanLen(z, EndsOf(key, open));
      Assigned(true, s) == Lead(key, q, a, sign, b, open) + REDACTED + Assigned(true, z[n..])
  {
    hide IsSecretName, ScanLen, EndsOf, AssignStep, IsLead, REDACTED, Mask, Lead, IsBoundary, IsPieceOf, Stable.Overwritten;
    var lead := Lead(key, q, a, sign, b, open);
    LeadStep(s, key, q, a, sign, b, open, z);
    LeadSome(key, q, a, sign, b, open);
    Stable.MaskOverwrites(Assignments, true, s, REDACTED);
    var p := AssignStep(true, s);
    var n := ScanLen(z, EndsOf(key, open));
    if n < |z| { EndsBreak(key, q, a, sign, b, open, z[n]); }
    LeadShown(s, lead, z, n, p);
  }

  lemma LeadShown(s: string, lead: string, z: string, n: nat, p: Piece)
    requires s == lead + z && n <= |z| && (n < |z| ==> IsBoundary(z[n])) && s != "" && IsPieceOf(p, s)
    requires p == Piece(|lead|, |lead| + n, p.len, true) && (p.len == p.to || (p.len == p.to + 1 && n < |z|))
    ensures Stable.Overwritten(p, s, REDACTED) + Assigned(IsBoundary(s[p.len - 1]), s[p.len..])
         == lead + REDACTED + Assigned(true, z[n..])
  {
    hide REDACTED, Mask, IsBoundary, Assigned;
    var rest := z[n..];
    assert s[..p.from] == lead;
    if p.len == p.to {
      assert s[p.len..] == rest && s[p.to..p.len] == "";
      assert lead + REDACTED + "" == lead + REDACTED;
      AssignedHere(IsBoundary(s[p.len - 1]), rest);
    } else {
      assert s[p.to..p.len] == [rest[0]] && s[p.len..] == rest[1..] && s[p.len - 1] == rest[0];
      BoundaryKept(true, rest);
      assert lead + REDACTED + ([rest[0]] + Assigned(true, rest[1..])) == lead + REDACTED + [rest[0]] + Assigned(true, rest[1..]);
    }
  }

  lemma AssignedHere(before: bool, rest: string)
    requires rest == "" || IsBoundary(rest[0])
    ensures Assigned(before, rest) == Assigned(true, rest)
  {
    hide Mask, IsBoundary;
    Stable.BeforeIrrelevant(Assignments, before, true, rest, REDACTED);
  }

  lemma LeadSome(key: string, q: string, a: string, sign: char, b: string, open: string)
    ensures Lead(key, q, a, sign, b, open) != ""
  {
  }

  lemma EndsBreak(key: string, q: string, a: string, sign: char, b: string, open: string, c: char)
    requires IsLead(key, q, a, sign, b, open) && c in EndsOf(key, open)
    ensures IsBoundary(c) && c !in REDACTED
  {
    hide IsSecretName, Folded;
  }

  /**
    The assignment pass: behind text without the name of a secret, the value of any of the fifteen
    names is overwritten, whatever follows, and what follows is redacted as if it stood alone.
   */
  lemma AssignmentHidden(x: string, key: string, q: string, a: string, sign: char, b: string, open: string, value: string, rest: string)
    requires IsNameless(x) && EndsAtBoundary(x) && IsLead(key, q, a, sign, b, open) && IsBehind(open, value + rest)
    requires forall i | 0 <= i < |value| :: value[i] !in EndsOf(key, open)
    requires rest != "" ==> rest[0] in EndsOf(key, open)
    ensures var lead := Lead(key, q, a, sign, b, open);
      Redact(Assignments, x + (lead + (value + rest))) == x + (lead + REDACTED + Redact(Assignments, rest))
  {
    hide IsNamelessFrom, IsLead, EndsOf, IsBehind, Lead, REDACTED, Mask, ScanLen, IsBoundary;
    var lead := Lead(key, q, a, sign, b, open);
    var z := value + rest;
    NamelessKept(true, x, lead + z);
    LeadMask(lead + z, key, q, a, sign, b, open, z);
    ScanLenUnique(z, EndsOf(key, open), |value|);
    assert z[|value|..] == rest;
  }

  // Texts in front of a secret that the other passes leave alone

  /** The markers of the first three passes. */
  function Markers(pass: Pass): seq<string> {
    match pass
    case Url => ["://"]
    case Cli => ["-u ", "--user ", "--user="]
    case Auth => ["Bearer ", "Basic "]
    case Assignments => []
  }

  predicate IsClearOf(pass: Pass, x: string) {
    forall n | n in Markers(pass) :: IsFreeOf(x, n)
  }

  /** No marker of the first three passes stands in the text. */
  predicate IsClear(x: string) {
    IsClearOf(Url, x) && IsClearOf(Cli, x) && IsClearOf(Auth, x)
  }

  /** A sign, a space, a quote, what else ends a value, or the end of a hidden secret. */
  predicate IsLeading(c: char) {
    || c == ':' || c == '=' || c == ' ' || c == '\t' || c == '"' || c == '\'' || c == '>'
    || c == '\r' || c == '\n' || c == ',' || c == ';' || c == '&' || c == '}' || c == ']' || c == '@'
  }

  /** No marker can begin in the one text and end in the other. */
  predicate IsSealed(pass: Pass, x: string, z: string) {
    || x == "" || z == "" || z[0] == '<' || z[0] == ':' || Lower(z[0]) == 'b' || (z[0] == '-' && x[|x| - 1] != '-')
    || (IsLeading(x[|x| - 1]) && (pass == Url && x[|x| - 1] == ':' ==> z[0] != '/'))
  }

  /** What two neighbouring bytes of a marker cannot be. */
  predicate IsTight(needle: string) {
    needle != "" && forall k | 0 < k < |needle| :: AreTight(needle, Lower(needle[k - 1]), Lower(needle[k]))
  }

  predicate AreTight(needle: string, a: char, b: char)
    requires needle != ""
  {
    && b != '<' && b != ':' && b != 'b' && (b == '-' ==> a == '-')
    && (IsLeading(a) ==> needle[0] == ':' && a == ':' && b == '/')
  }

  lemma TightUrl()
    ensures IsTight("://") && IsTight("-u ")
  {
  }

  lemma TightUser()
    ensures IsTight("--user ")
  {
    var n := "--user ";
    assert n[0] == '-' && n[1] == '-' && n[2] == 'u' && n[3] == 's' && n[4] == 'e' && n[5] == 'r' && n[6] == ' ';
  }

  lemma TightUserIs()
    ensures IsTight("--user=")
  {
    var n := "--user=";
    assert n[0] == '-' && n[1] == '-' && n[2] == 'u' && n[3] == 's' && n[4] == 'e' && n[5] == 'r' && n[6] == '=';
  }

  lemma TightBearer()
    ensures IsTight("Bearer ")
  {
    var n := "Bearer ";
    assert n[0] == 'B' && n[1] == 'e' && n[2] == 'a' && n[3] == 'r' && n[4] == 'e' && n[5] == 'r' && n[6] == ' ';
  }

  lemma TightBasic()
    ensures IsTight("Basic ")
  {
    var n := "Basic ";
    assert n[0] == 'B' && n[1] == 'a' && n[2] == 's' && n[3] == 'i' && n[4] == 'c' && n[5] == ' ';
  }

  lemma MarkersTight()
    ensures IsTight("://") && IsTight("-u ") && IsTight("--user ") && IsTight("--user=") && IsTight("Bearer ") && IsTight("Basic ")
  {
    hide IsTight;
    TightUrl();
    TightUser();
    TightUserIs();
    TightBearer();
    TightBasic();
  }

  lemma SealedFree(pass: Pass, x: string, z: string, needle: string, j: nat)
    requires IsFreeOf(x, needle) && IsSealed(pass, x, z) && IsTight(needle) && j < |x| && (needle[0] == ':' ==> pass == Url)
    ensures !StartsWith((x + z)[j..], needle)
  {
    var s := (x + z)[j..];
    var k := |x| - j;
    assert k < |s| ==> s[k] == z[0] && s[k - 1] == x[|x| - 1];
    assert forall i | 0 <= i < k :: s[i] == x[j..][i];
    assert 0 < k < |needle| ==> AreTight(needle, Lower(needle[k - 1]), Lower(needle[k]));
  }

  lemma ClearPlain(pass: Pass, x: string, z: string, j: nat)
    requires pass != Assignments && IsClearOf(pass, x) && IsSealed(pass, x, z) && j < |x|
    ensures Step(pass, true, (x + z)[j..]) == PLAIN
  {
    hide StartsWith, IsFreeOf, IsSealed, IsTight, AuthorityStep, CliCredential;
    MarkersTight();
    match pass
    case Url =>
      assert "://" in Markers(Url);
      SealedFree(pass, x, z, "://", j);
    case Cli =>
      assert "-u " in Markers(Cli) && "--user " in Markers(Cli) && "--user=" in Markers(Cli);
      SealedFree(pass, x, z, "-u ", j);
      SealedFree(pass, x, z, "--user ", j);
      SealedFree(pass, x, z, "--user=", j);
    case Auth =>
      assert "Bearer " in Markers(Auth) && "Basic " in Markers(Auth);
      SealedFree(pass, x, z, "Bearer ", j);
      SealedFree(pass, x, z, "Basic ", j);
  }

  lemma {:induction false} ClearKeptFrom(pass: Pass, x: string, z: string, j: nat)
    requires pass != Assignments && IsClearOf(pass, x) && IsSealed(pass, x, z) && j <= |x|
    ensures Redact(pass, (x + z)[j..]) == x[j..] + Redact(pass, z)
    decreases |x| - j
  {
    hide Mask, Step, IsClearOf, IsSealed, IsBoundary;
    var s := (x + z)[j..];
    if j == |x| {
      assert s == z && x[j..] == "";
    } else {
      ClearPlain(pass, x, z, j);
      PlainMask(pass, true, s, REDACTED);
      assert s[1..] == (x + z)[j + 1..] && s[0] == x[j];
      Stable.BeforeIrrelevant(pass, IsBoundary(s[0]), true, s[1..], REDACTED);
      ClearKeptFrom(pass, x, z, j + 1);
      assert [x[j]] + x[j + 1..] == x[j..];
    }
  }

  /** Two texts end together, and begin alike but for letter case. */
  predicate HeadsAlike(y: string, z: string) {
    (y == "" <==> z == "") && (z != "" ==> Lower(y[0]) == Lower(z[0]))
  }

  /** Text without markers is copied by such a pass, and the rest redacted as if it stood alone. */
  lemma ClearKept(pass: Pass, x: string, z: string)
    requires pass != Assignments && IsClearOf(pass, x) && IsSealed(pass, x, z)
    ensures Redact(pass, x + z) == x + Redact(pass, z) && HeadsAlike(Redact(pass, z), z)
  {
    hide Mask, IsClearOf, IsSealed;
    ClearKeptFrom(pass, x, z, 0);
    assert (x + z)[0..] == x + z && x[0..] == x;
    Stable.RestHeads(pass, true, z, REDACTED);
  }

  lemma ColonStep(z: string) returns (y: string)
    ensures Redact(Url, ":" + z) == ":" + y && HeadsAlike(y, z)
  {
    hide Step, Mask, Stable.Overwritten, IsBoundary, REDACTED;
    var s := ":" + z;
    Stable.MaskOverwrites(Url, true, s, REDACTED);
    var t := Redact(Url, s);
    y := t[1..];
    if StartsWith(s, "://") {
      UrlFrom(s);
      assert t[1] == t[..Step(Url, true, s).from][1] == s[1];
    } else {
      UrlPlain(s);
      PlainMask(Url, true, s, REDACTED);
      assert s[1..] == z;
      Stable.RestHeads(Url, IsBoundary(':'), z, REDACTED);
    }
  }

  lemma UrlPlain(s: string)
    requires s != "" && !StartsWith(s, "://")
    ensures Step(Url, true, s) == PLAIN
  {
  }

  lemma UrlFrom(s: string)
    requires StartsWith(s, "://")
    ensures Step(Url, true, s).from >= 3
  {
    hide AuthorityStep;
    AuthorityPiece(s[3..3 + ScanLen(s[3..], URL_ENDS)]);
  }

  /** The URL pass keeps such text also where a URL begins at its end. */
  lemma UrlKept(x: string, z: string) returns (y: string)
    requires IsClearOf(Url, x) && (x != "" ==> IsLeading(x[|x| - 1]))
    ensures Redact(Url, x + z) == x + y && HeadsAlike(y, z)
  {
    hide Redact, StartsWith;
    if x != "" && x[|x| - 1] == ':' {
      var front := x[..|x| - 1];
      ClearFront(x);
      ClearKept(Url, front, ":" + z);
      assert x + z == front + (":" + z);
      y := ColonStep(z);
      assert front + (":" + y) == x + y;
    } else {
      ClearKept(Url, x, z);
      y := Redact(Url, z);
    }
  }

  lemma ClearFront(x: string)
    requires x != "" && IsClearOf(Url, x)
    ensures IsClearOf(Url, x[..|x| - 1])
  {
    var front := x[..|x| - 1];
    forall n, j | n in Markers(Url) && 0 <= j <= |front|
      ensures !StartsWith(front[j..], n)
    {
      assert !StartsWith(x[j..], n);
      assert forall i | 0 <= i < |front[j..]| :: front[j..][i] == x[j..][i];
    }
  }

  lemma AlikeTransitive(a: string, b: string, c: string)
    requires HeadsAlike(a, b) && HeadsAlike(b, c)
    ensures HeadsAlike(a, c)
  {
  }

  lemma LeadingSealed(pass: Pass, x: string, z: string)
    requires pass == Cli || pass == Auth
    requires x != "" ==> IsLeading(x[|x| - 1])
    ensures IsSealed(pass, x, z)
  {
  }

  /** The first three passes on text that leads to a secret. */
  lemma ThreeKept(x: string, z: string) returns (y: string)
    requires IsClear(x) && (x != "" ==> IsLeading(x[|x| - 1]))
    ensures Redact(Auth, Redact(Cli, Redact(Url, x + z))) == x + y && HeadsAlike(y, z)
  {
    hide Redact, IsClearOf, IsSealed, HeadsAlike;
    var a := UrlKept(x, z);
    LeadingSealed(Cli, x, a);
    ClearKept(Cli, x, a);
    var b := Redact(Cli, a);
    LeadingSealed(Auth, x, b);
    ClearKept(Auth, x, b);
    y := Redact(Auth, b);
    AlikeTransitive(b, a, z);
    AlikeTransitive(y, b, z);
  }

  lemma LeadLeads(x: string, key: string, q: string, a: string, sign: char, b: string, open: string)
    requires IsLead(key, q, a, sign, b, open)
    ensures var p := x + Lead(key, q, a, sign, b, open); p != "" && IsLeading(p[|p| - 1])
  {
    hide IsSecretName;
    var p := x + Lead(key, q, a, sign, b, open);
    var head := x + key + q + a + [sign];
    assert p == head + b + open;
    if open != "" {
      assert p[|p| - 1] == open[0];
    } else if b != "" {
      assert p[|p| - 1] == b[|b| - 1];
    } else {
      assert p[|p| - 1] == sign;
    }
  }

  lemma BehindAlike(open: string, y: string, z: string)
    requires IsBehind(open, z) && HeadsAlike(y, z)
    ensures IsBehind(open, y)
  {
  }

  lemma RestEnds(key: string, q: string, a: string, sign: char, b: string, open: string, rest: string)
    requires IsLead(key, q, a, sign, b, open) && (rest != "" ==> rest[0] in EndsOf(key, open))
    ensures Assigned(true, rest) != "" ==> Assigned(true, rest)[0] in EndsOf(key, open)
  {
    hide Mask, EndsOf, IsLead, IsBoundary;
    if rest == "" {
      AssignedEmpty(true);
    } else {
      EndsBreak(key, q, a, sign, b, open, rest[0]);
      Stable.HeadKept(Assignments, true, rest, REDACTED);
    }
  }

  /**
    All four passes: behind text without a marker and without the name of a secret, the value of
    any of the fifteen names is overwritten up to where it ends, whatever it is and whatever follows.
   */
  lemma ValueHidden(x: string, key: string, q: string, a: string, sign: char, b: string, open: string, z: string) returns (y: string)
    requires IsNameless(x) && EndsAtBoundary(x) && IsLead(key, q, a, sign, b, open) && IsBehind(open, z)
    requires IsClear(x + Lead(key, q, a, sign, b, open))
    ensures var lead := Lead(key, q, a, sign, b, open);
      RedactAll(x + (lead + z)) == x + (lead + REDACTED + y)
    ensures y == "" || y[0] in EndsOf(key, open)
  {
    hide IsNamelessFrom, IsLead, EndsOf, IsBehind, Lead, REDACTED, Mask, ScanLen, IsBoundary, IsClear, HeadsAlike, IsLeading;
    var lead := Lead(key, q, a, sign, b, open);
    LeadLeads(x, key, q, a, sign, b, open);
    assert x + (lead + z) == (x + lead) + z;
    var w := ThreeKept(x + lead, z);
    assert (x + lead) + w == x + (lead + w);
    BehindAlike(open, w, z);
    NamelessKept(true, x, lead + w);
    LeadMask(lead + w, key, q, a, sign, b, open, w);
    var rest := w[ScanLen(w, EndsOf(key, open))..];
    y := Assigned(true, rest);
    RestEnds(key, q, a, sign, b, open, rest);
  }

  lemma EndsLead(key: string, q: string, a: string, sign: char, b: string, open: string, c: char)
    requires IsLead(key, q, a, sign, b, open) && c in EndsOf(key, open)
    ensures IsLeading(c) && c != ':' && c != '/' && Lower(c) != 'b' && c != '-'
  {
    hide IsSecretName, Folded;
  }

  /** A byte that no marker begins with, in front of a text. */
  lemma OneKept(pass: Pass, c: char, z: string)
    requires pass != Assignments && IsLeading(c) && c != ':'
    ensures Redact(pass, [c] + z) == [c] + Redact(pass, z)
  {
    hide Mask, Step, IsBoundary;
    var s := [c] + z;
    OnePlain(pass, s);
    PlainMask(pass, true, s, REDACTED);
    assert s[1..] == z;
    Stable.BeforeIrrelevant(pass, IsBoundary(c), true, z, REDACTED);
  }

  lemma OnePlain(pass: Pass, s: string)
    requires pass != Assignments && s != "" && IsLeading(s[0]) && s[0] != ':'
    ensures Step(pass, true, s) == PLAIN
  {
    hide StartsWith, AuthorityStep, CliCredential;
    if StartsWith(s, "://") { StartsFirst(s, "://"); }
    if StartsWith(s, "-u ") { StartsFirst(s, "-u "); }
    if StartsWith(s, "--user ") { StartsFirst(s, "--user "); }
    if StartsWith(s, "--user=") { StartsFirst(s, "--user="); }
    if StartsWith(s, "Bearer ") { StartsFirst(s, "Bearer "); }
    if StartsWith(s, "Basic ") { StartsFirst(s, "Basic "); }
  }

  lemma StartsFirst(s: string, needle: string)
    requires StartsWith(s, needle) && needle != ""
    ensures s != "" && Lower(s[0]) == Lower(needle[0])
  {
  }

  lemma EndKept(pass: Pass, x: string, rest: string)
    requires pass != Assignments && IsClearOf(pass, if rest == "" then x else x + [rest[0]])
    requires rest != "" ==> IsLeading(rest[0]) && rest[0] != ':'
    ensures Redact(pass, x + rest) == x + Redact(pass, rest) && HeadsAlike(Redact(pass, rest), rest)
    ensures rest != "" ==> Redact(pass, rest)[0] == rest[0]
  {
    hide Mask, IsClearOf, Step, REDACTED;
    if rest == "" {
      ClearKept(pass, x, "");
    } else {
      var c, r := rest[0], rest[1..];
      assert rest == [c] + r && x + rest == (x + [c]) + r;
      EndSealed(pass, x + [c], r);
      ClearKept(pass, x + [c], r);
      OneKept(pass, c, r);
      assert x + [c] + Redact(pass, r) == x + ([c] + Redact(pass, r));
    }
  }

  lemma EndSealed(pass: Pass, x: string, z: string)
    requires x != "" && IsLeading(x[|x| - 1]) && x[|x| - 1] != ':'
    ensures IsSealed(pass, x, z)
  {
  }

  /**
    All four passes, when no marker stands in the value either: the value, and nothing else, is
    overwritten, and what follows it is redacted as if it stood alone.
   */
  lemma ValueReplaced(x: string, key: string, q: string, a: string, sign: char, b: string, open: string, value: string, rest: string)
    requires IsNameless(x) && EndsAtBoundary(x) && IsLead(key, q, a, sign, b, open) && IsBehind(open, value + rest)
    requires forall i | 0 <= i < |value| :: value[i] !in EndsOf(key, open)
    requires rest != "" ==> rest[0] in EndsOf(key, open)
    requires var p := x + Lead(key, q, a, sign, b, open) + value; IsClear(if rest == "" then p else p + [rest[0]])
    ensures var lead := Lead(key, q, a, sign, b, open);
      RedactAll(x + (lead + (value + rest))) == x + (lead + REDACTED + RedactAll(rest))
  {
    hide IsNamelessFrom, IsLead, EndsOf, IsBehind, Lead, REDACTED, Redact, IsBoundary, IsClearOf, IsLeading;
    var lead := Lead(key, q, a, sign, b, open);
    var p := x + lead + value;
    assert x + (lead + (value + rest)) == p + rest;
    if rest != "" { EndsLead(key, q, a, sign, b, open, rest[0]); }
    EndKept(Url, p, rest);
    var r1 := Redact(Url, rest);
    EndKept(Cli, p, r1);
    var r2 := Redact(Cli, r1);
    EndKept(Auth, p, r2);
    var r3 := Redact(Auth, r2);
    assert p + r3 == x + (lead + (value + r3));
    BehindRest(open, value, rest, r3);
    AssignmentHidden(x, key, q, a, sign, b, open, value, r3);
  }

  lemma BehindRest(open: string, value: string, rest: string, y: string)
    requires IsBehind(open, value + rest) && (y == "" <==> rest == "") && (rest != "" ==> y[0] == rest[0])
    ensures IsBehind(open, value + y)
  {
    if value == "" {
      assert value + rest == rest && value + y == y;
    }
  }

  // Passwords in URLs

  /** A text free of what ends the authority of a URL, and of `@`. */
  predicate IsUrlPart(a: string) {
    forall i | 0 <= i < |a| :: a[i] !in "/?# \t\r\n\"'@"
  }

  /** The URL pass overwrites the password, whatever follows the `@`. */
  lemma PasswordHidden(x: string, name: string, password: string, rest: string) returns (y: string)
    requires IsClearOf(Url, x) && IsUrlPart(name) && ':' !in name && IsUrlPart(password)
    ensures var p := x + "://" + name + ":";
      Redact(Url, p + (password + "@" + rest)) == p + (REDACTED + "@" + y)
  {
    hide Redact, IsUrlPart, IsClearOf, REDACTED;
    var t := "://" + name + ":" + password + "@" + rest;
    var p := x + "://" + name + ":";
    assert p + (password + "@" + rest) == x + t;
    ColonSealed(x, t);
    ClearKept(Url, x, t);
    y := PasswordStep(name, password, rest);
    assert x + (("://" + name + ":") + (REDACTED + "@" + y)) == p + (REDACTED + "@" + y);
  }

  lemma ColonSealed(x: string, t: string)
    requires t != "" && t[0] == ':'
    ensures IsSealed(Url, x, t)
  {
  }

  lemma PasswordStep(name: string, password: string, rest: string) returns (y: string)
    requires IsUrlPart(name) && ':' !in name && IsUrlPart(password)
    ensures Redact(Url, "://" + name + ":" + password + "@" + rest) == ("://" + name + ":") + (REDACTED + "@" + y)
  {
    hide UrlStep, Mask, REDACTED, IsPieceOf, Stable.Overwritten, IsBoundary;
    var s := "://" + name + ":" + password + "@" + rest;
    var n := PasswordPiece(s, name, password, rest);
    var p := UrlStep(s);
    Stable.MaskOverwrites(Url, true, s, REDACTED);
    var tail := Mask(Url, IsBoundary(s[p.len - 1]), s[p.len..], REDACTED);
    PasswordText(s, name, password, rest, p);
    y := s[p.to + 1..p.len] + tail;
    assert ("://" + name + ":") + REDACTED + ("@" + s[p.to + 1..p.len]) + tail == ("://" + name + ":") + (REDACTED + "@" + y);
  }

  lemma PasswordText(s: string, name: string, password: string, rest: string, p: Piece)
    requires s == "://" + name + ":" + password + "@" + rest && IsPieceOf(p, s)
    requires p.hit && p.from == |name| + 4 && p.to == p.from + |password| && p.to < p.len
    ensures Stable.Overwritten(p, s, REDACTED) == ("://" + name + ":") + REDACTED + ("@" + s[p.to + 1..p.len])
  {
    hide REDACTED;
    assert s[..p.from] == "://" + name + ":";
    assert s[p.to] == '@' && s[p.to..p.len] == [s[p.to]] + s[p.to + 1..p.len];
  }

  lemma PasswordPiece(s: string, name: string, password: string, rest: string) returns (n: nat)
    requires IsUrlPart(name) && ':' !in name && IsUrlPart(password)
    requires s == "://" + name + ":" + password + "@" + rest
    ensures UrlStep(s) == Piece(|name| + 4, |name| + 4 + |password|, n, true) && |name| + 4 + |password| < n <= |s|
  {
    hide ScanLen, StartsWith, IsUrlPart;
    var front := name + ":" + password + "@";
    assert s[3..] == front + rest;
    UrlEndsAre();
    n := AuthorityLen(name, password, rest);
    n := n + 3;
    SchemeStarts(s);
    var a := s[3..n];
    assert a == (front + rest)[..n - 3] && a[..|front|] == front;
    AuthorityPieces(a, name, password);
  }

  lemma UrlEndsAre()
    ensures URL_ENDS == "/?# \t\r\n\"'"
  {
  }

  lemma SchemeStarts(s: string)
    requires |s| >= 3 && s[..3] == "://"
    ensures StartsWith(s, "://")
  {
    assert s[0] == ':' && s[1] == '/' && s[2] == '/';
  }

  lemma AuthorityLen(name: string, password: string, rest: string) returns (n: nat)
    requires IsUrlPart(name) && IsUrlPart(password)
    ensures var front := name + ":" + password + "@";
      n == ScanLen(front + rest, URL_ENDS) && |front| <= n <= |front + rest|
  {
    var front := name + ":" + password + "@";
    var s := front + rest;
    n := ScanLen(s, URL_ENDS);
    FrontFree(name, password);
    assert forall i | 0 <= i < |front| :: s[i] == front[i];
  }

  lemma FrontFree(name: string, password: string)
    requires IsUrlPart(name) && IsUrlPart(password)
    ensures var front := name + ":" + password + "@"; forall i | 0 <= i < |front| :: front[i] !in URL_ENDS
  {
    var front := name + ":" + password + "@";
    forall i | 0 <= i < |front|
      ensures front[i] !in URL_ENDS
    {
      if i < |name| {
        assert front[i] == name[i];
      } else if |name| < i < |name| + 1 + |password| {
        assert front[i] == password[i - |name| - 1];
      }
    }
  }

  lemma AuthorityPieces(a: string, name: string, password: string)
    requires var front := name + ":" + password + "@"; |front| <= |a| && a[..|front|] == front
    requires IsUrlPart(name) && ':' !in name && IsUrlPart(password)
    ensures AuthorityStep(a) == Piece(|name| + 4, |name| + 4 + |password|, |a| + 3, true)
  {
    hide ScanLen;
    var front := name + ":" + password + "@";
    var at := |name| + 1 + |password|;
    forall i | 0 <= i < |front| ensures a[i] == front[i] { assert a[..|front|][i] == a[i]; }
    forall i | 0 <= i < at ensures a[i] != '@' {
      if i < |name| { assert a[i] == name[i]; } else if i > |name| { assert a[i] == password[i - |name| - 1]; }
    }
    ScanLenUnique(a, "@", at);
    forall i | 0 <= i < |name| ensures a[..at][i] != ':' { assert a[i] == name[i]; }
    ScanLenUnique(a[..at], ":", |name|);
  }

  lemma HiddenClear()
    ensures IsClear(REDACTED)
  {
    forall pass, n, j | n in Markers(pass) && 0 <= j <= |REDACTED|
      ensures !StartsWith(REDACTED[j..], n)
    {
      FirstBytes(pass, n);
      HiddenBytes();
      assert j < |REDACTED| ==> REDACTED[j..][0] == REDACTED[j];
    }
  }

  lemma FirstBytes(pass: Pass, n: string)
    requires n in Markers(pass)
    ensures n != "" && (Lower(n[0]) == ':' || Lower(n[0]) == '-' || Lower(n[0]) == 'b')
  {
  }

  lemma HiddenBytes()
    ensures forall j | 0 <= j < |REDACTED| :: Lower(REDACTED[j]) != ':' && Lower(REDACTED[j]) != '-' && Lower(REDACTED[j]) != 'b'
    ensures REDACTED != "" && REDACTED[0] == '<' && IsLeading(REDACTED[|REDACTED| - 1]) && REDACTED[|REDACTED| - 1] != ':'
  {
  }

  /** A hidden secret is copied by the other passes, and so is the text in front of it. */
  lemma HiddenStays(pass: Pass, x: string, z: string)
    requires pass != Assignments && IsClearOf(pass, x)
    ensures Redact(pass, x + (REDACTED + z)) == x + (REDACTED + Redact(pass, z)) && HeadsAlike(Redact(pass, z), z)
  {
    hide Redact, IsClearOf, HeadsAlike, REDACTED;
    HiddenClear();
    HiddenBytes();
    HiddenSealed(pass, x, REDACTED + z);
    ClearKept(pass, x, REDACTED + z);
    EndSealed(pass, REDACTED, z);
    ClearKept(pass, REDACTED, z);
  }

  lemma HiddenSealed(pass: Pass, x: string, z: string)
    requires z != "" && z[0] == '<'
    ensures IsSealed(pass, x, z)
  {
  }

  lemma HiddenAssigned(x: string, z: string)
    requires IsNameless(x) && EndsAtBoundary(x)
    ensures Redact(Assignments, x + (REDACTED + z)) == x + (REDACTED + Assigned(true, z))
  {
    hide IsNamelessFrom, Mask, REDACTED, IsBoundary;
    NamelessKept(true, x, REDACTED + z);
    HiddenKept(true, z);
  }

  /** All four passes: the password of a URL is overwritten, behind text without another secret. */
  lemma PasswordGone(x: string, name: string, password: string, rest: string) returns (y: string)
    requires IsClearOf(Url, x) && IsUrlPart(name) && ':' !in name && IsUrlPart(password)
    requires var p := x + "://" + name + ":"; IsClearOf(Cli, p) && IsClearOf(Auth, p) && IsNameless(p)
    ensures var p := x + "://" + name + ":";
      RedactAll(p + (password + "@" + rest)) == p + (REDACTED + ("@" + y))
  {
    hide Redact, IsUrlPart, IsClearOf, REDACTED, IsNamelessFrom, IsBoundary;
    var p := x + "://" + name + ":";
    var y1 := PasswordHidden(x, name, password, rest);
    assert REDACTED + "@" + y1 == REDACTED + ("@" + y1);
    HiddenStays(Cli, p, "@" + y1);
    OneKept(Cli, '@', y1);
    var y2 := Redact(Cli, y1);
    HiddenStays(Auth, p, "@" + y2);
    OneKept(Auth, '@', y2);
    var y3 := Redact(Auth, y2);
    ColonEnds(p);
    HiddenAssigned(p, "@" + y3);
    SchemeBoundaries();
    BoundaryKept(true, "@" + y3);
    assert ("@" + y3)[1..] == y3;
    y := Assigned(true, y3);
  }

  lemma ColonEnds(p: string)
    requires p != "" && p[|p| - 1] == ':'
    ensures EndsAtBoundary(p)
  {
  }

  lemma SchemeBoundaries()
    ensures IsBoundary('@')
  {
  }

  // Credentials in command lines

  /** `-u `, `--user ` or `--user=`, in any letter case. */
  predicate IsUserMarker(m: string) {
    Folded(m) == "-u " || Folded(m) == "--user " || Folded(m) == "--user="
  }

  /** What ends a credential: the quote it stands in, else a space or the line's end. */
  function ShellEnds(q: string): string {
    if q != "" then q else " \t\r\n"
  }

  lemma FoldedStartsWith(m: string, r: string, needle: string)
    requires Folded(m) == Folded(needle)
    ensures StartsWith(m + r, needle) && |m| == |needle|
  {
    FoldedAt(m);
    FoldedAt(needle);
    assert forall i | 0 <= i < |m| :: (m + r)[i] == m[i] && Folded(m)[i] == Folded(needle)[i];
  }

  lemma FoldedMarkers()
    ensures Folded("-u ") == "-u " && Folded("--user ") == "--user " && Folded("--user=") == "--user="
  {
  }

  lemma MarkerFound(m: string, r: string)
    requires IsUserMarker(m)
    ensures m != "" && m[0] == '-' && CliMarker(m + r) == |m|
  {
    hide Folded;
    FoldedMarkers();
    FoldedAt(m);
    if Folded(m) == "-u " {
      FoldedStartsWith(m, r, "-u ");
    } else if Folded(m) == "--user " {
      FoldedStartsWith(m, r, "--user ");
    } else {
      FoldedStartsWith(m, r, "--user=");
    }
    var s := m + r;
    assert s[0] == m[0] && Folded(m)[0] == '-' && s[1] == m[1] && (Folded(m) != "-u " ==> Folded(m)[1] == '-');
  }

  lemma FoldedAt(m: string)
    ensures |Folded(m)| == |m| && forall i | 0 <= i < |m| :: Folded(m)[i] == Lower(m[i])
  {
  }

  /** The credential behind a marker: where its piece begins and ends. */
  lemma CredentialStep(s: string, m: string, q: string, name: string, z: string)
    requires IsUserMarker(m) && IsQuote(q) && s == m + q + (name + ":" + z)
    requires q == "" && name != "" ==> name[0] != '"' && name[0] != '\''
    requires forall i | 0 <= i < |name| :: name[i] !in ShellEnds(q) && name[i] != ':'
    ensures var n := |m + q + name| + 1;
      var end := n + ScanLen(z, ShellEnds(q));
      CliStep(s) == Piece(n, end, if q != "" && end < |s| then end + 1 else end, true)
  {
    hide IsUserMarker, CliMarker, ScanLen, Folded, SHELL_ENDS, Credential, ShellEnds;
    var t := name + ":" + z;
    assert s == m + (q + t) && s == (m + q) + t;
    MarkerFound(m, q + t);
    QuoteThere(m, q, t);
    ShellEndsAre();
    assert ShellEnds(q) == if q != "" then [s[|m|]] else SHELL_ENDS by { ShellEndsOf(q); }
    assert CliStep(s) == Credential(s, |m + q|, ShellEnds(q), q != "");
    CredentialPlace(m + q, q, name, z);
  }

  lemma ShellEndsOf(q: string)
    ensures ShellEnds(q) == if q != "" then q else " \t\r\n"
  {
  }

  lemma CredentialPlace(front: string, q: string, name: string, z: string)
    requires IsQuote(q) && forall i | 0 <= i < |name| :: name[i] !in ShellEnds(q) && name[i] != ':'
    ensures var s := front + (name + ":" + z);
      var n := |front + name| + 1;
      var end := n + ScanLen(z, ShellEnds(q));
      Credential(s, |front|, ShellEnds(q), q != "") == Piece(n, end, if q != "" && end < |s| then end + 1 else end, true)
  {
    hide ScanLen, ShellEnds, IsQuote;
    var t := name + ":" + z;
    var s := front + t;
    var start := |front|;
    assert s[start..] == t;
    CredentialEnd(q, name, z);
    var n := ScanLen(z, ShellEnds(q));
    var end := start + |name| + 1 + n;
    var credential := s[start..end];
    assert credential == name + ":" + z[..n];
    ScanLenUnique(credential, ":", |name|);
  }

  lemma ShellEndsAre()
    ensures SHELL_ENDS == " \t\r\n"
  {
  }

  lemma CredentialEnd(q: string, name: string, z: string)
    requires IsQuote(q) && forall i | 0 <= i < |name| :: name[i] !in ShellEnds(q)
    ensures ScanLen(name + ":" + z, ShellEnds(q)) == |name| + 1 + ScanLen(z, ShellEnds(q))
  {
    hide ScanLen;
    var t := name + ":" + z;
    var n := ScanLen(z, ShellEnds(q));
    forall i | 0 <= i < |name| + 1 + n ensures t[i] !in ShellEnds(q) {
      if i < |name| { assert t[i] == name[i]; } else if i > |name| { assert t[i] == z[i - |name| - 1]; }
    }
    assert n < |z| ==> t[|name| + 1 + n] == z[n];
    ScanLenUnique(t, ShellEnds(q), |name| + 1 + n);
  }

  predicate IsUser(q: string, name: string) {
    && (q == "" && name != "" ==> name[0] != '"' && name[0] != '\'')
    && forall i | 0 <= i < |name| :: name[i] !in ShellEnds(q) && name[i] != ':'
  }

  lemma CredentialMask(m: string, q: string, name: string, z: string)
    requires IsUserMarker(m) && IsQuote(q) && IsUser(q, name)
    ensures var n := ScanLen(z, ShellEnds(q));
      Redact(Cli, m + q + (name + ":" + z)) == (m + q + name + ":") + (REDACTED + Redact(Cli, z[n..]))
  {
    hide ScanLen, CliStep, IsUserMarker, REDACTED, Mask, IsPieceOf, Stable.Overwritten, IsBoundary, IsUser;
    var s := m + q + (name + ":" + z);
    UserPlain(q, name);
    CredentialStep(s, m, q, name, z);
    Stable.MaskOverwrites(Cli, true, s, REDACTED);
    var n := ScanLen(z, ShellEnds(q));
    if n < |z| { assert z[n] in ShellEnds(q); }
    CredentialShown(s, m + q + name + ":", z, n, CliStep(s), q);
  }

  lemma UserPlain(q: string, name: string)
    requires IsUser(q, name)
    ensures q == "" && name != "" ==> name[0] != '"' && name[0] != '\''
    ensures forall i | 0 <= i < |name| :: name[i] !in ShellEnds(q) && name[i] != ':'
  {
  }

  lemma CredentialShown(s: string, front: string, z: string, n: nat, p: Piece, q: string)
    requires s == front + z && n <= |z| && s != "" && IsPieceOf(p, s) && IsQuote(q) && (n < |z| ==> z[n] in ShellEnds(q))
    requires p == Piece(|front|, |front| + n, if q != "" && |front| + n < |s| then |front| + n + 1 else |front| + n, true)
    ensures Stable.Overwritten(p, s, REDACTED) + Mask(Cli, IsBoundary(s[p.len - 1]), s[p.len..], REDACTED)
         == front + (REDACTED + Redact(Cli, z[n..]))
  {
    hide REDACTED, Mask, IsBoundary, ShellEnds;
    var rest := z[n..];
    Stable.BeforeIrrelevant(Cli, IsBoundary(s[p.len - 1]), true, s[p.len..], REDACTED);
    if p.len == p.to {
      assert s[p.len..] == rest;
      ShownText(s, front, z, n, p, "");
      assert "" + Redact(Cli, rest) == Redact(Cli, rest);
    } else {
      assert s[p.len..] == rest[1..];
      ShellEndsOf(q);
      QuoteLeads(q, rest[0]);
      OneKept(Cli, rest[0], rest[1..]);
      assert [rest[0]] + rest[1..] == rest;
      ShownText(s, front, z, n, p, [rest[0]]);
    }
  }

  lemma ShownText(s: string, front: string, z: string, n: nat, p: Piece, close: string)
    requires s == front + z && n <= |z| && IsPieceOf(p, s) && p == Piece(|front|, |front| + n, |front| + n + |close|, true)
    requires |close| <= |z| - n && close == z[n..n + |close|]
    ensures forall y: string :: Stable.Overwritten(p, s, REDACTED) + y == front + (REDACTED + (close + y))
  {
    hide REDACTED;
    assert s[..p.from] == front && s[p.to..p.len] == close;
  }

  lemma QuoteLeads(q: string, c: char)
    requires IsQuote(q) && q != "" && c in q
    ensures IsLeading(c) && c != ':'
  {
  }

  /** The command-line pass: the credential behind the user's name is overwritten, and what follows is redacted as if it stood alone. */
  lemma CredentialHidden(x: string, m: string, q: string, name: string, secret: string, rest: string)
    requires IsClearOf(Cli, x) && EndsAtBoundary(x) && IsUserMarker(m) && IsQuote(q) && IsUser(q, name)
    requires (forall i | 0 <= i < |secret| :: secret[i] !in ShellEnds(q)) && (rest != "" ==> rest[0] in ShellEnds(q))
    ensures var p := m + q + name + ":";
      Redact(Cli, x + (p + (secret + rest))) == x + (p + (REDACTED + Redact(Cli, rest)))
  {
    hide Redact, IsClearOf, REDACTED, IsUserMarker, IsUser, ScanLen, ShellEnds, IsBoundary;
    var z := secret + rest;
    var p := m + q + name + ":";
    var t := m + q + (name + ":" + z);
    assert p + z == t;
    MarkerFound(m, q + (name + ":" + z));
    DashSealed(x, t);
    ClearKept(Cli, x, t);
    CredentialMask(m, q, name, z);
    ScanLenUnique(z, ShellEnds(q), |secret|);
    assert z[|secret|..] == rest;
  }

  lemma DashSealed(x: string, t: string)
    requires EndsAtBoundary(x) && t != "" && t[0] == '-'
    ensures IsSealed(Cli, x, t)
  {
  }

  /** All four passes: the credential is overwritten up to where it ends, behind text without another secret. */
  lemma CredentialGone(x: string, m: string, q: string, name: string, z: string) returns (y: string)
    requires IsClearOf(Cli, x) && EndsAtBoundary(x) && IsUserMarker(m) && IsQuote(q) && IsUser(q, name)
    requires var p := x + (m + q + name + ":"); IsClearOf(Url, p) && IsClearOf(Auth, p) && IsNameless(p)
    ensures var p := x + (m + q + name + ":");
      RedactAll(p + z) == p + (REDACTED + y) && (y == "" || y[0] in ShellEnds(q))
  {
    hide Redact, IsClearOf, REDACTED, IsUserMarker, IsUser, ScanLen, ShellEnds, IsBoundary, IsNamelessFrom, HeadsAlike, IsLeading;
    var front := m + q + name + ":";
    var p := x + front;
    ColonLeads();
    var a := UrlKept(p, z);
    var n := ScanLen(a, ShellEnds(q));
    var r := a[n..];
    CredentialHidden(x, m, q, name, a[..n], r);
    assert a == a[..n] + r && p + a == x + (front + a);
    var b := Redact(Cli, r);
    assert x + (front + (REDACTED + b)) == p + (REDACTED + b);
    ShellRest(Cli, q, r);
    HiddenStays(Auth, p, b);
    var c := Redact(Auth, b);
    ShellRest(Auth, q, b);
    ColonEnds(p);
    HiddenAssigned(p, c);
    y := Assigned(true, c);
    ShellAssigned(q, c);
  }

  lemma ColonLeads()
    ensures IsLeading(':')
  {
  }

  lemma ShellRest(pass: Pass, q: string, r: string)
    requires pass != Assignments && IsQuote(q) && (r != "" ==> r[0] in ShellEnds(q))
    ensures Redact(pass, r) != "" ==> Redact(pass, r)[0] in ShellEnds(q)
  {
    hide Mask;
    if r == "" {
      NothingRedacted(pass);
    } else {
      ShellLeads(q, r[0]);
      OneKept(pass, r[0], r[1..]);
      assert [r[0]] + r[1..] == r;
    }
  }

  lemma ShellLeads(q: string, c: char)
    requires IsQuote(q) && c in ShellEnds(q)
    ensures IsLeading(c) && c != ':' && IsBoundary(c)
  {
  }

  lemma ShellAssigned(q: string, r: string)
    requires IsQuote(q) && (r != "" ==> r[0] in ShellEnds(q))
    ensures Assigned(true, r) != "" ==> Assigned(true, r)[0] in ShellEnds(q)
  {
    hide Mask, IsBoundary;
    if r == "" {
      AssignedEmpty(true);
    } else {
      ShellLeads(q, r[0]);
      Stable.HeadKept(Assignments, true, r, REDACTED);
    }
  }

  // Tokens

  /** What ends a token. */
  function TokenStops(): string {
    " \t\r\n,;\"'"
  }

  /** `Bearer ` or `Basic `, in any letter case. */
  predicate IsTokenMarker(m: string) {
    Folded(m) == "bearer " || Folded(m) == "basic "
  }

  /** How the pass spells a marker. */
  function Spelled(m: string): string {
    if Folded(m) == "bearer " then "Bearer " else "Basic "
  }

  lemma SpelledFolds()
    ensures Folded("Bearer ") == "bearer " && Folded("Basic ") == "basic "
  {
  }

  lemma TokenMarkerFound(m: string, r: string)
    requires IsTokenMarker(m)
    ensures AuthMarker(m + r) == Spelled(m) && |Spelled(m)| == |m| && m != "" && Lower(m[0]) == 'b'
  {
    hide Folded;
    SpelledFolds();
    FoldedAt(m);
    if Folded(m) == "bearer " {
      FoldedStartsWith(m, r, "Bearer ");
    } else {
      FoldedStartsWith(m, r, "Basic ");
      assert (m + r)[1] == m[1] && Folded(m)[1] == 'a';
    }
  }

  lemma TokenMask(m: string, z: string)
    requires IsTokenMarker(m) && z != "" && z[0] !in TokenStops()
    ensures var n := ScanLen(z, TokenStops());
      Redact(Auth, m + z) == Spelled(m) + (REDACTED + Redact(Auth, z[n..]))
  {
    hide Redact, AuthMarker, IsTokenMarker, REDACTED, ScanLen, TOKEN_ENDS, Spelled, TokenStops;
    var s := m + z;
    TokenMarkerFound(m, z);
    SpelledSome(m);
    TokenEndsAre();
    var marker, token, rest := AuthMarked(s);
    assert z == token + rest && z[..|token|] == token && z[|token|..] == rest;
    ScanLenUnique(z, TokenStops(), |token|);
    assert token != "";
  }

  lemma SpelledSome(m: string)
    ensures Spelled(m) != ""
  {
  }

  lemma TokenEndsAre()
    ensures TOKEN_ENDS == TokenStops()
  {
  }

  /** The token pass: the token is overwritten, and what follows is redacted as if it stood alone. */
  lemma TokenHidden(x: string, m: string, token: string, rest: string)
    requires IsClearOf(Auth, x) && IsTokenMarker(m) && token != ""
    requires (forall i | 0 <= i < |token| :: token[i] !in TokenStops()) && (rest != "" ==> rest[0] in TokenStops())
    ensures Redact(Auth, x + (m + (token + rest))) == x + (Spelled(m) + (REDACTED + Redact(Auth, rest)))
  {
    hide Redact, IsClearOf, REDACTED, IsTokenMarker, ScanLen, Spelled, TokenStops;
    var z := token + rest;
    TokenMarkerFound(m, z);
    LetterSealed(x, m + z);
    ClearKept(Auth, x, m + z);
    TokenMask(m, z);
    ScanLenUnique(z, TokenStops(), |token|);
    assert z[|token|..] == rest;
  }

  lemma LetterSealed(x: string, t: string)
    requires t != "" && Lower(t[0]) == 'b'
    ensures IsSealed(Auth, x, t)
  {
  }

  /** The first two passes on a marker and what is behind it. */
  lemma TwoKept(x: string, m: string, z: string) returns (b: string)
    requires IsTokenMarker(m) && IsClearOf(Url, x + m) && IsClearOf(Cli, x + m)
    ensures Redact(Cli, Redact(Url, x + (m + z))) == x + (m + b) && HeadsAlike(b, z)
  {
    hide Redact, IsClearOf, IsTokenMarker, HeadsAlike, IsLeading, IsSealed;
    var p := x + m;
    MarkerLeads(x, m);
    assert x + (m + z) == p + z;
    var a := UrlKept(p, z);
    LeadingSealed(Cli, p, a);
    ClearKept(Cli, p, a);
    b := Redact(Cli, a);
    AlikeTransitive(b, a, z);
    assert p + b == x + (m + b);
  }

  /** The token pass on a marker and what is behind it. */
  lemma TokenShown(x: string, m: string, b: string) returns (c: string)
    requires IsClearOf(Auth, x) && IsTokenMarker(m) && b != "" && b[0] !in TokenStops()
    ensures Redact(Auth, x + (m + b)) == (x + Spelled(m)) + (REDACTED + c) && (c == "" || c[0] in TokenStops())
  {
    hide Redact, IsClearOf, REDACTED, IsTokenMarker, Spelled, TokenStops;
    var token, rest := TokenSplit(b);
    TokenHidden(x, m, token, rest);
    c := Redact(Auth, rest);
    TokenRest(rest);
    Regrouped(x, Spelled(m), REDACTED + c);
  }

  lemma Regrouped(a: string, b: string, c: string)
    ensures a + (b + c) == (a + b) + c
  {
  }

  lemma TokenSplit(b: string) returns (token: string, rest: string)
    requires b != "" && b[0] !in TokenStops()
    ensures b == token + rest && token != "" && (rest != "" ==> rest[0] in TokenStops())
    ensures forall i | 0 <= i < |token| :: token[i] !in TokenStops()
  {
    hide TokenStops;
    TokenSome(b);
    var n := ScanLen(b, TokenStops());
    token, rest := b[..n], b[n..];
  }

  /** The last two passes on a marker and a token. */
  lemma LastTwo(x: string, m: string, b: string) returns (y: string)
    requires IsClearOf(Auth, x) && IsTokenMarker(m) && b != "" && b[0] !in TokenStops() && IsNameless(x + Spelled(m))
    ensures Redact(Assignments, Redact(Auth, x + (m + b))) == x + (Spelled(m) + (REDACTED + y))
    ensures y == "" || y[0] in TokenStops()
  {
    hide Redact, IsClearOf, REDACTED, IsTokenMarker, Spelled, IsNamelessFrom, IsBoundary, TokenStops, Assigned;
    var c := TokenShown(x, m, b);
    SpelledEnds(x, m);
    HiddenAssigned(x + Spelled(m), c);
    y := Assigned(true, c);
    TokenAssigned(c);
    Regrouped(x, Spelled(m), REDACTED + y);
  }

  /** All four passes: the token is overwritten up to where it ends, behind text without another secret. */
  lemma TokenGone(x: string, m: string, z: string) returns (y: string)
    requires IsClearOf(Auth, x) && IsTokenMarker(m) && z != "" && z[0] !in TokenStops()
    requires IsClearOf(Url, x + m) && IsClearOf(Cli, x + m) && IsNameless(x + Spelled(m))
    ensures RedactAll(x + (m + z)) == x + (Spelled(m) + (REDACTED + y)) && (y == "" || y[0] in TokenStops())
  {
    hide Redact, IsClearOf, REDACTED, IsTokenMarker, Spelled, IsNamelessFrom, HeadsAlike, TokenStops;
    var b := TwoKept(x, m, z);
    HeadNoEnd(b, z);
    y := LastTwo(x, m, b);
  }

  lemma MarkerLeads(x: string, m: string)
    requires IsTokenMarker(m)
    ensures x + m != "" && IsLeading((x + m)[|x + m| - 1])
  {
    FoldedAt(m);
    assert (x + m)[|x + m| - 1] == m[|m| - 1];
  }

  lemma SpelledEnds(x: string, m: string)
    ensures EndsAtBoundary(x + Spelled(m))
  {
    assert (x + Spelled(m))[|x + Spelled(m)| - 1] == ' ';
  }

  lemma HeadNoEnd(b: string, z: string)
    requires HeadsAlike(b, z) && z != "" && z[0] !in TokenStops()
    ensures b != "" && b[0] !in TokenStops()
  {
  }

  lemma TokenSome(b: string)
    requires b != "" && b[0] !in TokenStops()
    ensures ScanLen(b, TokenStops()) > 0
  {
  }

  lemma TokenRest(r: string)
    requires r != "" ==> r[0] in TokenStops()
    ensures Redact(Auth, r) != "" ==> Redact(Auth, r)[0] in TokenStops()
  {
    hide Mask;
    if r == "" {
      NothingRedacted(Auth);
    } else {
      OneKept(Auth, r[0], r[1..]);
      assert [r[0]] + r[1..] == r;
    }
  }

  lemma TokenAssigned(r: string)
    requires r != "" ==> r[0] in TokenStops()
    ensures Assigned(true, r) != "" ==> Assigned(true, r)[0] in TokenStops()
  {
    hide Mask;
    if r == "" {
      AssignedEmpty(true);
    } else {
      Stable.HeadKept(Assignments, true, r, REDACTED);
    }
  }
}

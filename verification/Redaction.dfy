/**
  The four redaction passes. Each walks its input and, at every place, either copies one
  byte or recognises a secret with what surrounds it. `Step` says which; `Mask` is the
  whole walk, with `word` standing in for what the source writes as `<redacted>`.
 */
module Redaction {
  import opened Scan
  import Utf8

  const REDACTED := "<redacted>"

  const URL_ENDS := "/?# \t\r\n\"'"
  const SHELL_ENDS := " \t\r\n"
  const TOKEN_ENDS := " \t\r\n,;\"'"
  const VALUE_ENDS := " \t\r\n,;&}]"
  const AUTHORIZATION_ENDS := "\r\n,;"

  const SENSITIVE_KEYS: seq<string> := [
    "access_token", "api_key", "apikey", "authorization", "bearer_token", "bot_token",
    "cookie", "jwt", "passwd", "password", "pwd", "refresh_token", "secret",
    "session_token", "token"
  ]

  datatype Pass = Url | Cli | Auth | Assignments

  /** The next `len` bytes of the input: `from` bytes to copy, then a secret that ends at
      `to` when `hit`, then bytes to copy again. */
  datatype Piece = Piece(from: nat, to: nat, len: nat, hit: bool)

  const PLAIN := Piece(1, 1, 1, false)

  function Copied(n: nat): Piece {
    Piece(n, n, n, false)
  }

  function UrlStep(s: string): Piece
    requires s != []
  {
    if StartsWith(s, "://") then AuthorityStep(s[3..3 + ScanLen(s[3..], URL_ENDS)])
    else PLAIN
  }

  /** The piece made of `://` and the authority behind it. */
  function AuthorityStep(authority: string): Piece {
    var at := ScanLen(authority, "@");
    var colon := ScanLen(authority[..at], ":");
    if at < |authority| && colon < at then Piece(colon + 4, at + 3, |authority| + 3, true)
    else Copied(|authority| + 3)
  }

  function CliMarker(s: string): (n: nat)
    ensures n <= |s|
  {
    if StartsWith(s, "-u ") then 3
    else if StartsWith(s, "--user ") || StartsWith(s, "--user=") then 7
    else 0
  }

  function CliStep(s: string): Piece
    requires s != []
  {
    var marker := CliMarker(s);
    if marker == 0 then PLAIN else CliCredential(s, marker)
  }

  function CliCredential(s: string, marker: nat): Piece
    requires marker <= |s|
  {
    if QuoteAt(s, marker) then Credential(s, marker + 1, [s[marker]], true)
    else Credential(s, marker, SHELL_ENDS, false)
  }

  function Credential(s: string, start: nat, ends: string, quoted: bool): Piece
    requires start <= |s|
  {
    var end := start + ScanLen(s[start..], ends);
    CredentialOf(start, s[start..end], if quoted && end < |s| then 1 else 0)
  }

  /** The piece made of `start` bytes, a credential, and `close` closing quotes. */
  function CredentialOf(start: nat, credential: string, close: nat): Piece {
    var colon := ScanLen(credential, ":");
    var end := start + |credential|;
    if colon < |credential| then Piece(start + colon + 1, end, end + close, true)
    else Copied(end + close)
  }

  function AuthMarker(s: string): (m: string)
    ensures StartsWith(s, m)
  {
    if StartsWith(s, "Bearer ") then "Bearer "
    else if StartsWith(s, "Basic ") then "Basic "
    else ""
  }

  function AuthStep(s: string): Piece
    requires s != []
  {
    var marker := AuthMarker(s);
    var n := |marker|;
    if n == 0 then PLAIN
    else
      var end := n + ScanLen(s[n..], TOKEN_ENDS);
      Piece(n, end, end, end > n)
  }

  predicate KeyMatches(before: bool, s: string, key: string) {
    StartsWith(s, key) && before && (|key| >= |s| || IsBoundary(s[|key|]))
  }

  /** Length of the first key of `keys` that stands at the front of `s`; 0 when none does. */
  function MatchKey(before: bool, s: string, keys: seq<string>): (n: nat)
    ensures n <= |s|
  {
    if keys == [] then 0
    else if KeyMatches(before, s, keys[0]) then |keys[0]|
    else MatchKey(before, s, keys[1..])
  }

  predicate IsAuthorization(key: string) {
    |key| == 13 && StartsWith(key, "authorization")
  }

  function AssignStep(before: bool, s: string): Piece
    requires s != []
  {
    var key := MatchKey(before, s, SENSITIVE_KEYS);
    if key == 0 then PLAIN else KeyStep(s, key)
  }

  function KeyStep(s: string, key: nat): Piece
    requires key <= |s|
  {
    var cursor := if QuoteAt(s, key) then key + 1 else key;
    var sign := cursor + SpaceLen(s[cursor..]);
    if sign < |s| && (s[sign] == ':' || s[sign] == '=')
    then SignStep(s, sign + 1, IsAuthorization(s[..key]))
    else Copied(cursor)
  }

  function SignStep(s: string, after: nat, authorization: bool): Piece
    requires after <= |s|
  {
    ValueStep(s, after + SpaceLen(s[after..]), authorization)
  }

  function ValueEnds(s: string, value: nat, authorization: bool): string {
    if authorization then AUTHORIZATION_ENDS
    else if QuoteAt(s, value) then [s[value]]
    else VALUE_ENDS
  }

  function ValueStep(s: string, value: nat, authorization: bool): Piece
    requires value <= |s|
  {
    var quoted := QuoteAt(s, value);
    var start := if quoted then value + 1 else value;
    var end := start + ScanLen(s[start..], ValueEnds(s, value, authorization));
    var closed := if quoted && end < |s| && s[end] == s[value] then end + 1 else end;
    Piece(start, end, closed, true)
  }

  /** `before` says that a key may begin here: the byte before is a boundary, or there is none. */
  function Step(pass: Pass, before: bool, s: string): Piece
    requires s != []
  {
    match pass
    case Url => UrlStep(s)
    case Cli => CliStep(s)
    case Auth => AuthStep(s)
    case Assignments => AssignStep(before, s)
  }

  predicate IsPieceOf(p: Piece, s: string) {
    && 1 <= p.len <= |s|
    && 1 <= p.from <= p.to <= p.len
    && (!p.hit ==> p.from == p.to)
  }

  /** A secret lies between an ASCII byte and another, or the end; every place is a cut. */
  predicate IsCleanPiece(p: Piece, s: string)
    requires IsPieceOf(p, s)
  {
    && (p.hit ==> Utf8.IsAscii(s[p.from - 1]) && (p.to == |s| || Utf8.IsAscii(s[p.to])))
    && Utf8.IsCut(s, p.from) && Utf8.IsCut(s, p.to) && Utf8.IsCut(s, p.len)
  }

  /** The bytes copied in front of a secret; a recognised `Bearer` or `Basic` is respelled. */
  function Lead(pass: Pass, s: string, n: nat): string
    requires n <= |s|
  {
    if pass == Auth && |AuthMarker(s)| == n then AuthMarker(s) else s[..n]
  }

  function Emit(pass: Pass, p: Piece, s: string, word: string): string
    requires IsPieceOf(p, s)
  {
    Lead(pass, s, p.from) + (if p.hit then word else "") + s[p.to..p.len]
  }

  lemma AuthorityPiece(a: string)
    ensures var p := AuthorityStep(a);
      && 3 <= p.from <= p.to <= p.len == |a| + 3
      && (if p.hit then 3 < p.from && a[p.from - 4] == ':' && p.to < p.len && a[p.to - 3] == '@'
          else p == Copied(|a| + 3))
  {
    var at := ScanLen(a, "@");
    var colon := ScanLen(a[..at], ":");
    assert at < |a| && colon < at ==> a[colon] == a[..at][colon] == ':' && a[at] == '@';
  }

  lemma UrlEndsAscii(c: char)
    requires c in URL_ENDS
    ensures Utf8.IsAscii(c)
  {
  }

  lemma UrlPiece(s: string)
    requires s != []
    ensures IsPieceOf(UrlStep(s), s)
    ensures !Utf8.IsAscii(s[0]) ==> UrlStep(s) == PLAIN
    ensures Utf8.IsAscii(s[0]) ==> IsCleanPiece(UrlStep(s), s)
  {
    hide AuthorityStep, URL_ENDS;
    if StartsWith(s, "://") {
      var n := ScanLen(s[3..], URL_ENDS);
      var a := s[3..3 + n];
      AuthorityPiece(a);
      var p := AuthorityStep(a);
      if 3 + n < |s| {
        assert s[3..][n] == s[3 + n];
        UrlEndsAscii(s[3 + n]);
      }
      assert Utf8.IsAscii(s[0]);
    }
  }

  lemma AuthPiece(s: string)
    requires s != []
    ensures IsPieceOf(AuthStep(s), s)
    ensures !Utf8.IsAscii(s[0]) ==> AuthStep(s) == PLAIN
    ensures Utf8.IsAscii(s[0]) ==> IsCleanPiece(AuthStep(s), s)
  {
    var n := |AuthMarker(s)|;
    if n > 0 {
      var m := ScanLen(s[n..], TOKEN_ENDS);
      assert m < |s[n..]| ==> s[n + m] in TOKEN_ENDS;
      assert Lower(s[n - 1]) == ' ';
    }
  }

  lemma CredentialPiece(s: string, start: nat, ends: string, quoted: bool)
    requires 0 < start <= |s| && Utf8.IsAscii(s[start - 1])
    requires forall c | c in ends :: Utf8.IsAscii(c)
    ensures IsPieceOf(Credential(s, start, ends, quoted), s)
    ensures IsCleanPiece(Credential(s, start, ends, quoted), s)
  {
    var n := ScanLen(s[start..], ends);
    assert n < |s[start..]| ==> s[start + n] in ends;
    var colon := ScanLen(s[start..start + n], ":");
    assert colon < n ==> s[start + colon] == ':';
  }

  lemma CliPiece(s: string)
    requires s != []
    ensures IsPieceOf(CliStep(s), s)
    ensures !Utf8.IsAscii(s[0]) ==> CliStep(s) == PLAIN
    ensures Utf8.IsAscii(s[0]) ==> IsCleanPiece(CliStep(s), s)
  {
    var marker := CliMarker(s);
    if marker > 0 {
      assert Lower(s[marker - 1]) == ' ' || Lower(s[marker - 1]) == '=';
      if QuoteAt(s, marker) {
        CredentialPiece(s, marker + 1, [s[marker]], true);
      } else {
        CredentialPiece(s, marker, SHELL_ENDS, false);
      }
      assert Lower(s[0]) == '-';
    }
  }

  lemma ValuePiece(s: string, value: nat, authorization: bool)
    requires 0 < value <= |s| && Utf8.IsAscii(s[value - 1])
    ensures IsPieceOf(ValueStep(s, value, authorization), s)
    ensures IsCleanPiece(ValueStep(s, value, authorization), s)
  {
    var start := if QuoteAt(s, value) then value + 1 else value;
    var ends := ValueEnds(s, value, authorization);
    var n := ScanLen(s[start..], ends);
    assert n < |s[start..]| ==> s[start + n] in ends;
  }

  lemma SignPiece(s: string, after: nat, authorization: bool)
    requires 0 < after <= |s| && Utf8.IsAscii(s[after - 1])
    ensures IsPieceOf(SignStep(s, after, authorization), s)
    ensures IsCleanPiece(SignStep(s, after, authorization), s)
  {
    hide ValueStep;
    var n := SpaceLen(s[after..]);
    assert n > 0 ==> s[after..][n - 1] == s[after + n - 1];
    ValuePiece(s, after + n, authorization);
  }

  lemma KeyPiece(s: string, key: nat)
    requires 0 < key <= |s| && Utf8.IsAscii(s[key - 1])
    ensures IsPieceOf(KeyStep(s, key), s) && IsCleanPiece(KeyStep(s, key), s)
  {
    hide SignStep;
    var cursor := if QuoteAt(s, key) then key + 1 else key;
    var sign := cursor + SpaceLen(s[cursor..]);
    if sign < |s| && (s[sign] == ':' || s[sign] == '=') {
      SignPiece(s, sign + 1, IsAuthorization(s[..key]));
    }
  }

  lemma {:induction false} KeyIsAscii(before: bool, s: string, keys: seq<string>)
    requires forall k | 0 <= k < |keys| :: IsKeyWord(keys[k])
    ensures var n := MatchKey(before, s, keys);
      forall i | 0 <= i < n :: !IsBoundary(s[i]) && Utf8.IsAscii(s[i])
    ensures MatchKey(before, s, keys) > 0 ==> before
  {
    if keys != [] && !KeyMatches(before, s, keys[0]) {
      KeyIsAscii(before, s, keys[1..]);
    }
  }

  /** Where a key is found it is the first of the list that stands there between boundaries, and none stands where none is found. */
  lemma {:induction false} MatchedKey(before: bool, s: string, keys: seq<string>) returns (k: nat)
    requires forall i | 0 <= i < |keys| :: keys[i] != ""
    ensures k <= |keys| && forall i | 0 <= i < k :: !KeyMatches(before, s, keys[i])
    ensures if k == |keys| then MatchKey(before, s, keys) == 0
            else KeyMatches(before, s, keys[k]) && MatchKey(before, s, keys) == |keys[k]|
  {
    hide KeyMatches;
    k := 0;
    if keys != [] && !KeyMatches(before, s, keys[0]) {
      var rest := MatchedKey(before, s, keys[1..]);
      k := rest + 1;
    }
  }

  predicate IsKeyWord(key: string) {
    key != [] && forall i | 0 <= i < |key| :: 'a' <= key[i] <= 'z' || key[i] == '_'
  }

  lemma SensitiveKeysAreWords()
    ensures forall k | 0 <= k < |SENSITIVE_KEYS| :: IsKeyWord(SENSITIVE_KEYS[k])
  {
  }

  lemma AssignPiece(before: bool, s: string)
    requires s != []
    ensures IsPieceOf(AssignStep(before, s), s)
    ensures !Utf8.IsAscii(s[0]) ==> AssignStep(before, s) == PLAIN
    ensures Utf8.IsAscii(s[0]) ==> IsCleanPiece(AssignStep(before, s), s)
  {
    var key := MatchKey(before, s, SENSITIVE_KEYS);
    SensitiveKeysAreWords();
    KeyIsAscii(before, s, SENSITIVE_KEYS);
    if key > 0 {
      KeyPiece(s, key);
    }
  }

  lemma StepIsPiece(pass: Pass, before: bool, s: string)
    requires s != []
    ensures IsPieceOf(Step(pass, before, s), s)
    ensures !Utf8.IsAscii(s[0]) ==> Step(pass, before, s) == PLAIN
    ensures Utf8.IsAscii(s[0]) ==> IsCleanPiece(Step(pass, before, s), s)
  {
    match pass
    case Url => UrlPiece(s);
    case Cli => CliPiece(s);
    case Auth => AuthPiece(s);
    case Assignments => AssignPiece(before, s);
  }

  /** The whole walk of one pass over `s`, with `word` written in place of every secret. */
  function Mask(pass: Pass, before: bool, s: string, word: string): string
    decreases |s|
  {
    if s == [] then ""
    else
      StepIsPiece(pass, before, s);
      var p := Step(pass, before, s);
      Emit(pass, p, s, word) + Mask(pass, IsBoundary(s[p.len - 1]), s[p.len..], word)
  }

  lemma AuthMarkerShape(s: string)
    ensures AuthMarker(s) == "" || AuthMarker(s) == "Bearer " || AuthMarker(s) == "Basic "
    ensures |AuthMarker(s)| in {0, 6, 7}
    ensures forall i | 0 <= i < |AuthMarker(s)| :: Utf8.IsAscii(AuthMarker(s)[i])
  {
  }

  lemma PlainMask(pass: Pass, before: bool, s: string, word: string)
    requires s != [] && Step(pass, before, s) == PLAIN
    ensures Mask(pass, before, s, word) == [s[0]] + Mask(pass, IsBoundary(s[0]), s[1..], word)
  {
    hide Step, AuthMarker;
    AuthMarkerShape(s);
    assert Emit(pass, PLAIN, s, word) == [s[0]];
  }

  function Redact(pass: Pass, s: string): string {
    Mask(pass, true, s, REDACTED)
  }
}

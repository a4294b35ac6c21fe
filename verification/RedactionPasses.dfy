/** The passes as loops over an index and an output buffer, and the spans they overwrite. */
module RedactionPasses {
  import opened Scan
  import opened Redaction
  import RedactionUtf8
  import Utf8

  /** True when a key may begin at `index`. */
  predicate Before(bytes: string, index: nat)
    requires index <= |bytes|
  {
    index == 0 || IsBoundary(bytes[index - 1])
  }

  /** What has been written and what the rest of the walk will write make up the result. */
  predicate IsUnderway(pass: Pass, bytes: string, index: nat, output: string) {
    index <= |bytes|
    && output + Mask(pass, Before(bytes, index), bytes[index..], REDACTED) == Redact(pass, bytes)
  }

  lemma Advance(pass: Pass, bytes: string, index: nat, output: string)
    requires index < |bytes| && IsUnderway(pass, bytes, index, output)
    ensures var s := bytes[index..];
      var p := Step(pass, Before(bytes, index), s);
      IsPieceOf(p, s) && IsUnderway(pass, bytes, index + p.len, output + Emit(pass, p, s, REDACTED))
  {
    hide Step, Emit, IsBoundary;
    var s := bytes[index..];
    StepIsPiece(pass, Before(bytes, index), s);
    var p := Step(pass, Before(bytes, index), s);
    assert s[p.len - 1] == bytes[index + p.len - 1];
    assert s[p.len..] == bytes[index + p.len..];
    var e := Emit(pass, p, s, REDACTED);
    var rest := Mask(pass, Before(bytes, index + p.len), bytes[index + p.len..], REDACTED);
    assert output + (e + rest) == (output + e) + rest;
  }

  lemma Finished(pass: Pass, bytes: string, output: string)
    requires IsUnderway(pass, bytes, |bytes|, output)
    ensures output == Redact(pass, bytes)
  {
  }

  /** The buffer is well-formed, so the raw text is never what is returned. */
  function Finish(output: string, value: string): string {
    if Utf8.Valid(output) then output else value
  }

  lemma FinishKeeps(pass: Pass, value: string)
    requires Utf8.Valid(value)
    ensures Finish(Redact(pass, value), value) == Redact(pass, value)
    ensures Utf8.Valid(Redact(pass, value))
  {
    hide Redact;
    RedactionUtf8.RedactValid(pass, value);
  }

  lemma Start(pass: Pass, value: string)
    ensures IsUnderway(pass, value, 0, "")
  {
    assert value[0..] == value;
  }

  lemma PlainEmits(pass: Pass, s: string)
    requires s != ""
    ensures IsPieceOf(PLAIN, s) && Emit(pass, PLAIN, s, REDACTED) == [s[0]]
  {
    hide AuthMarker;
    AuthMarkerShape(s);
  }

  /** The authority as the pass writes it. */
  function AuthorityText(a: string): string {
    var at := ScanLen(a, "@");
    var colon := ScanLen(a[..at], ":");
    if at < |a| && colon < at then a[..colon + 1] + REDACTED + a[at..] else a
  }

  lemma AuthorityEmits(a: string)
    ensures var p := AuthorityStep(a);
      && 3 <= p.from <= p.to <= |a| + 3 == p.len
      && AuthorityText(a) == a[..p.from - 3] + (if p.hit then REDACTED else "") + a[p.to - 3..]
  {
    hide REDACTED, ScanLen;
    AuthorityPiece(a);
    assert a[..|a|] + "" + a[|a|..] == a;
  }

  lemma UrlEmits(s: string)
    requires StartsWith(s, "://")
    ensures |s| >= 3 && IsPieceOf(UrlStep(s), s)
    ensures var n := ScanLen(s[3..], URL_ENDS);
      UrlStep(s).len == 3 + n && Emit(Url, UrlStep(s), s, REDACTED) == "://" + AuthorityText(s[3..3 + n])
  {
    hide URL_ENDS, REDACTED, AuthorityText, AuthorityStep;
    UrlPiece(s);
    var a := s[3..3 + ScanLen(s[3..], URL_ENDS)];
    AuthorityEmits(a);
    UrlMarker(s);
    EmitBehind("://", a, s, AuthorityStep(a));
  }

  lemma UrlMarker(s: string)
    requires StartsWith(s, "://")
    ensures |s| >= 3 && s[..3] == "://"
  {
    assert forall i | 0 <= i < 3 :: Lower(s[i]) == "://"[i];
  }

  lemma EmitBehind(marker: string, a: string, s: string, p: Piece)
    requires IsPieceOf(p, s) && |marker| <= p.from && p.len == |marker| + |a|
    requires s[..|marker|] == marker && s[|marker|..p.len] == a
    ensures Emit(Url, p, s, REDACTED)
         == marker + (a[..p.from - |marker|] + (if p.hit then REDACTED else "") + a[p.to - |marker|..])
  {
    hide REDACTED;
    assert s[..p.from] == marker + a[..p.from - |marker|];
    assert s[p.to..p.len] == a[p.to - |marker|..];
  }

  lemma SliceOfSuffix(value: string, index: nat, i: nat, j: nat)
    requires index + i <= index + j <= |value|
    ensures value[index..][i..j] == value[index + i..index + j]
    ensures value[index..][i..] == value[index + i..]
  {
  }

  /** One turn of a pass at `index`: the piece there has been written and stepped over. */
  predicate IsTurn(pass: Pass, bytes: string, index: nat, written: string, next: nat)
    requires index < |bytes|
  {
    var s := bytes[index..];
    var p := Step(pass, Before(bytes, index), s);
    IsPieceOf(p, s) && next == index + p.len && written == Emit(pass, p, s, REDACTED)
  }

  lemma UrlPlain(s: string)
    requires s != "" && !StartsWith(s, "://")
    ensures UrlStep(s) == PLAIN
  {
  }

  method UrlTurn(bytes: string, start: nat) returns (written: string, index: nat)
    requires start < |bytes|
    ensures IsTurn(Url, bytes, start, written, index)
  {
    hide UrlStep, AuthorityText, StartsWith, Emit, URL_ENDS, Before, ScanLen;
    ghost var s := bytes[start..];
    index := start;
    if StartsWith(bytes[index..], "://") {
      UrlEmits(s);
      index := index + 3;
      var end := ScanUntilAny(bytes, index, URL_ENDS);
      SliceOfSuffix(bytes, start, 3, end - start);
      written := MaskAuthority(bytes[index..end]);
      written := "://" + written;
      index := end;
    } else {
      UrlPlain(s);
      PlainEmits(Url, s);
      written := [bytes[index]];
      index := index + 1;
    }
  }

  method MaskAuthority(authority: string) returns (written: string)
    ensures written == AuthorityText(authority)
  {
    hide REDACTED;
    var at := ScanLen(authority, "@");
    if at < |authority| {
      var userinfo := authority[..at];
      var colon := ScanLen(userinfo, ":");
      if colon < |userinfo| {
        return userinfo[..colon + 1] + REDACTED + authority[at..];
      }
    }
    return authority;
  }

  method RedactUrlCredentials(value: string) returns (redacted: string)
    requires Utf8.Valid(value)
    ensures redacted == Redact(Url, value) && Utf8.Valid(redacted)
  {
    hide Mask, UrlStep, Utf8.Valid, Redact, IsUnderway, Emit;
    var output := "";
    var index := 0;
    Start(Url, value);
    while index < |value|
      invariant index <= |value| && IsUnderway(Url, value, index, output)
    {
      Advance(Url, value, index, output);
      var written, next := UrlTurn(value, index);
      output, index := output + written, next;
    }
    Finished(Url, value, output);
    FinishKeeps(Url, value);
    redacted := Finish(output, value);
  }

  /** The credential as the pass writes it. */
  function CredentialText(c: string): string {
    var colon := ScanLen(c, ":");
    if colon < |c| then c[..colon + 1] + REDACTED else c
  }

  lemma CredentialOfEmits(s: string, start: nat, end: nat, closed: nat)
    requires 0 < start <= end <= closed <= |s|
    ensures var p := CredentialOf(start, s[start..end], closed - end);
      IsPieceOf(p, s) && p.len == closed
      && Emit(Cli, p, s, REDACTED) == s[..start] + CredentialText(s[start..end]) + s[end..closed]
  {
    hide REDACTED;
    var c := s[start..end];
    var p := CredentialOf(start, c, closed - end);
    var colon := ScanLen(c, ":");
    if colon < |c| {
      assert s[..p.from] == s[..start] + c[..colon + 1];
    } else {
      assert s[..closed] == s[..start] + c + s[end..closed];
      assert s[closed..closed] == "";
    }
  }

  /** End of the credential that begins at `start`, and of its closing quote. */
  function CredentialEnd(bytes: string, start: nat, ends: string): (end: nat)
    requires start <= |bytes|
    ensures start <= end <= |bytes|
  {
    start + ScanLen(bytes[start..], ends)
  }

  function CredentialClose(bytes: string, end: nat, quoted: bool): nat {
    if quoted && end < |bytes| then end + 1 else end
  }

  lemma CredentialEmits(bytes: string, begin: nat, start: nat, ends: string, quoted: bool)
    requires begin < start <= |bytes|
    ensures var end := CredentialEnd(bytes, start, ends);
      var closed := CredentialClose(bytes, end, quoted);
      var s := bytes[begin..];
      var p := Credential(s, start - begin, ends, quoted);
      && closed <= |bytes| && IsPieceOf(p, s) && begin + p.len == closed
      && Emit(Cli, p, s, REDACTED)
         == bytes[begin..start] + CredentialText(bytes[start..end]) + bytes[end..closed]
  {
    hide REDACTED, ScanLen, Emit, CredentialOf, CredentialText;
    var s := bytes[begin..];
    var end := CredentialEnd(bytes, start, ends);
    var closed := CredentialClose(bytes, end, quoted);
    assert s[start - begin..] == bytes[start..];
    assert s[start - begin..end - begin] == bytes[start..end];
    assert s[end - begin..closed - begin] == bytes[end..closed];
    assert s[..start - begin] == bytes[begin..start];
    CredentialOfEmits(s, start - begin, end - begin, closed - begin);
  }

  method MaskCredential(credential: string) returns (written: string)
    ensures written == CredentialText(credential)
  {
    var colon := ScanLen(credential, ":");
    if colon < |credential| {
      written := credential[..colon + 1] + REDACTED;
    } else {
      written := credential;
    }
  }

  method CredentialTurn(bytes: string, start: nat, ends: string, quote: bool)
    returns (written: string, index: nat)
    requires start <= |bytes|
    ensures var end := CredentialEnd(bytes, start, ends);
      && index == CredentialClose(bytes, end, quote) && end <= index <= |bytes|
      && written == CredentialText(bytes[start..end]) + bytes[end..index]
  {
    hide ScanLen, CredentialText;
    var end := ScanUntilAny(bytes, start, ends);
    index := end;
    written := MaskCredential(bytes[start..index]);
    if quote && index < |bytes| {
      written := written + [bytes[index]];
      index := index + 1;
      assert bytes[end..index] == [bytes[end]];
    }
  }

  method CliTurn(bytes: string, start: nat) returns (written: string, index: nat)
    requires start < |bytes|
    ensures IsTurn(Cli, bytes, start, written, index)
  {
    hide CredentialText, StartsWith, Emit, SHELL_ENDS, Before, CredentialEnd, CredentialClose, CliMarker, Credential;
    ghost var s := bytes[start..];
    index := start;
    var marker := CliMarker(bytes[index..]);
    if marker == 0 {
      PlainEmits(Cli, s);
      written := [bytes[index]];
      index := index + 1;
      return;
    }
    index := index + marker;
    var quoted := QuoteAt(bytes, index);
    assert quoted <==> QuoteAt(s, marker);
    var ends := if quoted then [bytes[index]] else SHELL_ENDS;
    if quoted {
      index := index + 1;
    }
    CredentialEmits(bytes, start, index, ends, quoted);
    written := bytes[start..index];
    var credential;
    credential, index := CredentialTurn(bytes, index, ends, quoted);
    written := written + credential;
  }

  /** Where the token behind a marker ends. */
  lemma AuthEmits(bytes: string, begin: nat)
    requires begin < |bytes| && AuthMarker(bytes[begin..]) != ""
    ensures var s := bytes[begin..];
      var marker := AuthMarker(s);
      var start := begin + |marker|;
      && start <= |bytes| && IsPieceOf(AuthStep(s), s)
      && var end := CredentialEnd(bytes, start, TOKEN_ENDS);
      begin + AuthStep(s).len == end
      && Emit(Auth, AuthStep(s), s, REDACTED) == marker + if start < end then REDACTED else ""
  {
    hide REDACTED, ScanLen, TOKEN_ENDS, AuthMarker;
    var s := bytes[begin..];
    AuthPiece(s);
    AuthMarkerShape(s);
    assert s[|AuthMarker(s)|..] == bytes[begin + |AuthMarker(s)|..];
    var p := AuthStep(s);
    assert s[p.to..p.len] == "";
  }

  method AuthTurn(bytes: string, start: nat) returns (written: string, index: nat)
    requires start < |bytes|
    ensures IsTurn(Auth, bytes, start, written, index)
  {
    hide Emit, TOKEN_ENDS, Before, AuthMarker, REDACTED;
    ghost var s := bytes[start..];
    index := start;
    var marker := AuthMarker(bytes[index..]);
    AuthMarkerShape(s);
    if marker == "" {
      PlainEmits(Auth, s);
      written := [bytes[index]];
      index := index + 1;
      return;
    }
    AuthEmits(bytes, start);
    written := marker;
    index := index + |marker|;
    var tokenEnd := ScanUntilAny(bytes, index, TOKEN_ENDS);
    if tokenEnd > index {
      written := written + REDACTED;
      index := tokenEnd;
    } else {
      assert marker + "" == marker;
    }
  }

  /** Where the value at `value` begins behind its quote, ends, and closes. */
  function ValueStart(bytes: string, value: nat): (start: nat)
    requires value <= |bytes|
    ensures value <= start <= |bytes|
  {
    if QuoteAt(bytes, value) then value + 1 else value
  }

  function ValueEnd(bytes: string, value: nat, authorization: bool): (end: nat)
    requires value <= |bytes|
    ensures ValueStart(bytes, value) <= end <= |bytes|
  {
    var start := ValueStart(bytes, value);
    start + ScanLen(bytes[start..], ValueEnds(bytes, value, authorization))
  }

  function ValueClose(bytes: string, value: nat, authorization: bool): (closed: nat)
    requires value <= |bytes|
    ensures ValueEnd(bytes, value, authorization) <= closed <= |bytes|
  {
    var end := ValueEnd(bytes, value, authorization);
    if QuoteAt(bytes, value) && end < |bytes| && bytes[end] == bytes[value] then end + 1 else end
  }

  /** Seen from `begin`, the value is delimited at the same places. */
  lemma ValuePlaces(bytes: string, begin: nat, value: nat, authorization: bool)
    requires begin < value <= |bytes|
    ensures ValueStep(bytes[begin..], value - begin, authorization)
         == Piece(ValueStart(bytes, value) - begin, ValueEnd(bytes, value, authorization) - begin,
                  ValueClose(bytes, value, authorization) - begin, true)
  {
    hide ScanLen, ValueEnds;
    var s := bytes[begin..];
    var start := ValueStart(bytes, value);
    assert value < |bytes| ==> s[value - begin] == bytes[value];
    SameEnds(bytes, begin, value, authorization);
    assert s[start - begin..] == bytes[start..];
    var end := ValueEnd(bytes, value, authorization);
    assert end < |bytes| ==> s[end - begin] == bytes[end];
  }

  lemma SameEnds(bytes: string, begin: nat, value: nat, authorization: bool)
    requires begin < value <= |bytes|
    ensures ValueEnds(bytes[begin..], value - begin, authorization) == ValueEnds(bytes, value, authorization)
  {
    hide AUTHORIZATION_ENDS, VALUE_ENDS;
    assert value < |bytes| ==> bytes[begin..][value - begin] == bytes[value];
  }

  lemma HitEmits(bytes: string, begin: nat, start: nat, end: nat, closed: nat)
    requires begin < start <= end <= closed <= |bytes|
    ensures var p := Piece(start - begin, end - begin, closed - begin, true);
      var s := bytes[begin..];
      IsPieceOf(p, s)
      && Emit(Assignments, p, s, REDACTED) == bytes[begin..start] + REDACTED + bytes[end..closed]
  {
    hide REDACTED;
    var s := bytes[begin..];
    assert s[..start - begin] == bytes[begin..start];
    assert s[end - begin..closed - begin] == bytes[end..closed];
  }

  lemma ValueEmits(bytes: string, begin: nat, value: nat, authorization: bool)
    requires begin < value <= |bytes|
    ensures var s := bytes[begin..];
      var p := ValueStep(s, value - begin, authorization);
      var start := ValueStart(bytes, value);
      var closed := ValueClose(bytes, value, authorization);
      && IsPieceOf(p, s) && begin + p.len == closed
      && Emit(Assignments, p, s, REDACTED)
         == bytes[begin..start] + REDACTED + bytes[ValueEnd(bytes, value, authorization)..closed]
  {
    hide ValueStep, ValueStart, ValueEnd, ValueClose, Emit, REDACTED;
    ValuePlaces(bytes, begin, value, authorization);
    HitEmits(bytes, begin, ValueStart(bytes, value), ValueEnd(bytes, value, authorization),
             ValueClose(bytes, value, authorization));
  }

  method ValueTurn(bytes: string, value: nat, authorization: bool) returns (written: string, index: nat)
    requires value <= |bytes|
    ensures index == ValueClose(bytes, value, authorization)
    ensures written == bytes[value..ValueStart(bytes, value)] + REDACTED
                       + bytes[ValueEnd(bytes, value, authorization)..index]
  {
    hide REDACTED, ScanLen, AUTHORIZATION_ENDS, VALUE_ENDS;
    var quoted := QuoteAt(bytes, value);
    var start := if quoted then value + 1 else value;
    written := bytes[value..start] + REDACTED;
    var end := ScanUntilAny(bytes, start, ValueEnds(bytes, value, authorization));
    index := end;
    if quoted && index < |bytes| && bytes[index] == bytes[value] {
      written := written + [bytes[index]];
      index := index + 1;
      assert bytes[end..index] == [bytes[end]];
    }
  }

  /** The place of the sign behind the key at `begin`, or of what is there instead. */
  function SignPlace(bytes: string, cursor: nat): (sign: nat)
    requires cursor <= |bytes|
    ensures cursor <= sign <= |bytes|
  {
    cursor + SpaceLen(bytes[cursor..])
  }

  predicate IsSign(bytes: string, i: nat) {
    i < |bytes| && (bytes[i] == ':' || bytes[i] == '=')
  }

  lemma SignedEmits(bytes: string, begin: nat, key: nat)
    requires 0 < key && begin + key <= |bytes|
    ensures var s := bytes[begin..];
      var cursor := ValueStart(bytes, begin + key);
      var sign := SignPlace(bytes, cursor);
      if IsSign(bytes, sign) then
        KeyStep(s, key) == ValueStep(s, SignPlace(bytes, sign + 1) - begin, IsAuthorization(s[..key]))
      else
        KeyStep(s, key) == Copied(cursor - begin)
  {
    hide ValueStep, SpaceLen, IsAuthorization;
    var s := bytes[begin..];
    var cursor := ValueStart(bytes, begin + key);
    assert QuoteAt(s, key) <==> QuoteAt(bytes, begin + key);
    assert s[cursor - begin..] == bytes[cursor..];
    var sign := SignPlace(bytes, cursor);
    if IsSign(bytes, sign) {
      assert s[sign + 1 - begin..] == bytes[sign + 1..];
    }
  }

  lemma CopiedEmits(s: string, n: nat)
    requires 0 < n <= |s|
    ensures IsPieceOf(Copied(n), s) && Emit(Assignments, Copied(n), s, REDACTED) == s[..n]
  {
    assert s[n..n] == "";
  }

  /** What stands at `begin` when a key of `key` bytes does. */
  method KeyTurn(bytes: string, begin: nat, key: nat) returns (written: string, index: nat)
    requires 0 < key && begin + key <= |bytes|
    ensures var s := bytes[begin..];
      var p := KeyStep(s, key);
      IsPieceOf(p, s) && index == begin + p.len && written == Emit(Assignments, p, s, REDACTED)
  {
    hide Emit, REDACTED, ValueStep, KeyStep, IsAuthorization, IsPieceOf, ScanLen, SpaceLen, StartsWith;
    SignedEmits(bytes, begin, key);
    SliceOfSuffix(bytes, begin, 0, key);
    var cursor, signed := SignTurn(bytes, begin + key);
    hide SignPlace, IsSign, QuoteAt;
    if signed {
      written, index := SignedTurn(bytes, begin, cursor, IsAuthorization(bytes[begin..begin + key]));
    } else {
      CopiedEmits(bytes[begin..], cursor - begin);
      SliceOfSuffix(bytes, begin, 0, cursor - begin);
      written := bytes[begin..cursor];
      index := cursor;
    }
  }

  /** Steps over the closing quote of a key, and over the sign and what surrounds it when there is one. */
  method SignTurn(bytes: string, afterName: nat) returns (cursor: nat, signed: bool)
    requires afterName <= |bytes|
    ensures afterName <= cursor <= |bytes|
    ensures var behind := ValueStart(bytes, afterName);
      var sign := SignPlace(bytes, behind);
      && signed == IsSign(bytes, sign)
      && cursor == if signed then SignPlace(bytes, sign + 1) else behind
  {
    hide SpaceLen;
    cursor := afterName;
    if QuoteAt(bytes, cursor) {
      cursor := cursor + 1;
    }
    var afterKey := SkipAsciiSpaces(bytes, cursor);
    signed := IsSign(bytes, afterKey);
    if signed {
      cursor := SkipAsciiSpaces(bytes, afterKey + 1);
    }
  }

  method SignedTurn(bytes: string, begin: nat, value: nat, authorization: bool)
    returns (written: string, index: nat)
    requires begin < value <= |bytes|
    ensures var s := bytes[begin..];
      var p := ValueStep(s, value - begin, authorization);
      IsPieceOf(p, s) && index == begin + p.len && written == Emit(Assignments, p, s, REDACTED)
  {
    hide Emit, REDACTED, ValueStep, ValueStart, ValueEnd, ValueClose, IsPieceOf;
    ValueEmits(bytes, begin, value, authorization);
    written := bytes[begin..value];
    var masked;
    masked, index := ValueTurn(bytes, value, authorization);
    assert bytes[begin..ValueStart(bytes, value)] == written + bytes[value..ValueStart(bytes, value)];
    written := written + masked;
  }

  method AssignTurn(bytes: string, begin: nat) returns (written: string, index: nat)
    requires begin < |bytes|
    ensures IsTurn(Assignments, bytes, begin, written, index)
  {
    hide Emit, Before, REDACTED, MatchKey, KeyStep, SENSITIVE_KEYS, IsPieceOf;
    var key := MatchKey(Before(bytes, begin), bytes[begin..], SENSITIVE_KEYS);
    if key == 0 {
      PlainEmits(Assignments, bytes[begin..]);
      written := [bytes[begin]];
      index := begin + 1;
    } else {
      written, index := KeyTurn(bytes, begin, key);
    }
  }

  method RedactCliUserCredentials(value: string) returns (redacted: string)
    requires Utf8.Valid(value)
    ensures redacted == Redact(Cli, value) && Utf8.Valid(redacted)
  {
    hide Mask, CliStep, Utf8.Valid, Redact, IsUnderway, Emit;
    var output := "";
    var index := 0;
    Start(Cli, value);
    while index < |value|
      invariant index <= |value| && IsUnderway(Cli, value, index, output)
    {
      Advance(Cli, value, index, output);
      var written, next := CliTurn(value, index);
      output, index := output + written, next;
    }
    Finished(Cli, value, output);
    FinishKeeps(Cli, value);
    redacted := Finish(output, value);
  }

  method RedactBareAuthTokens(value: string) returns (redacted: string)
    requires Utf8.Valid(value)
    ensures redacted == Redact(Auth, value) && Utf8.Valid(redacted)
  {
    hide Mask, AuthStep, Utf8.Valid, Redact, IsUnderway, Emit;
    var output := "";
    var index := 0;
    Start(Auth, value);
    while index < |value|
      invariant index <= |value| && IsUnderway(Auth, value, index, output)
    {
      Advance(Auth, value, index, output);
      var written, next := AuthTurn(value, index);
      output, index := output + written, next;
    }
    Finished(Auth, value, output);
    FinishKeeps(Auth, value);
    redacted := Finish(output, value);
  }

  method RedactSensitiveAssignments(value: string) returns (redacted: string)
    requires Utf8.Valid(value)
    ensures redacted == Redact(Assignments, value) && Utf8.Valid(redacted)
  {
    hide Mask, AssignStep, Utf8.Valid, Redact, IsUnderway, Emit;
    var output := "";
    var index := 0;
    Start(Assignments, value);
    while index < |value|
      invariant index <= |value| && IsUnderway(Assignments, value, index, output)
    {
      Advance(Assignments, value, index, output);
      var written, next := AssignTurn(value, index);
      output, index := output + written, next;
    }
    Finished(Assignments, value, output);
    FinishKeeps(Assignments, value);
    redacted := Finish(output, value);
  }

  /** The four passes in the order the source applies them. */
  function RedactAll(value: string): string {
    Redact(Assignments, Redact(Auth, Redact(Cli, Redact(Url, value))))
  }

  method RedactSensitiveText(value: string) returns (redacted: string)
    requires Utf8.Valid(value)
    ensures redacted == RedactAll(value) && Utf8.Valid(redacted)
  {
    hide Utf8.Valid, Redact;
    redacted := RedactUrlCredentials(value);
    redacted := RedactCliUserCredentials(redacted);
    redacted := RedactBareAuthTokens(redacted);
    redacted := RedactSensitiveAssignments(redacted);
  }
}

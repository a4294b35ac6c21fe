/**
  A pass sees the same structure in its own output as in its input: writing any opaque word
  over the secrets and redacting again gives what redacting the original gave. With the word
  `<redacted>` itself this is idempotence.
 */
module RedactionStable {
  import opened Scan
  import opened Redaction

  const DELIMITERS := " \t\r\n,;&}]\"'/?#@"

  /** A word that ends no scan: not empty, and without any byte that some pass stops at. */
  predicate IsOpaque(word: string) {
    word != "" && forall i | 0 <= i < |word| :: word[i] !in DELIMITERS
  }

  lemma RedactedIsOpaque()
    ensures IsOpaque(REDACTED)
  {
  }

  lemma LeadFolds(pass: Pass, s: string, n: nat)
    requires n <= |s|
    ensures |Lead(pass, s, n)| == n
    ensures forall i | 0 <= i < n :: Lower(Lead(pass, s, n)[i]) == Lower(s[i])
    ensures pass != Auth ==> Lead(pass, s, n) == s[..n]
  {
  }

  /** What a pass puts before the first secret is its input, letter case aside. */
  lemma MaskFolds(pass: Pass, before: bool, s: string, word: string)
    requires s != []
    ensures IsPieceOf(Step(pass, before, s), s)
    ensures var n := Step(pass, before, s).from;
      |Mask(pass, before, s, word)| >= n
      && forall i | 0 <= i < n :: Lower(Mask(pass, before, s, word)[i]) == Lower(s[i])
  {
    hide Step, Lead;
    StepIsPiece(pass, before, s);
    LeadFolds(pass, s, Step(pass, before, s).from);
  }

  lemma HeadKept(pass: Pass, before: bool, s: string, word: string)
    requires s != []
    ensures |Mask(pass, before, s, word)| > 0
    ensures Lower(Mask(pass, before, s, word)[0]) == Lower(s[0])
    ensures IsBoundary(s[0]) ==> Mask(pass, before, s, word)[0] == s[0]
  {
    hide Step, Mask;
    MaskFolds(pass, before, s, word);
  }

  lemma {:induction false} NoKeyAtBoundary(before: bool, s: string, keys: seq<string>)
    requires s == [] || IsBoundary(s[0])
    requires forall k | 0 <= k < |keys| :: IsKeyWord(keys[k])
    ensures MatchKey(before, s, keys) == 0
  {
    if keys != [] {
      assert IsKeyWord(keys[0]);
      NoKeyAtBoundary(before, s, keys[1..]);
    }
  }

  lemma BoundaryIsPlain(before: bool, s: string)
    requires s != [] && IsBoundary(s[0])
    ensures AssignStep(before, s) == PLAIN
  {
    SensitiveKeysAreWords();
    NoKeyAtBoundary(before, s, SENSITIVE_KEYS);
  }

  /** What stood before a boundary byte does not matter. */
  lemma BeforeIrrelevant(pass: Pass, a: bool, b: bool, s: string, word: string)
    requires pass != Assignments || s == [] || IsBoundary(s[0])
    ensures Mask(pass, a, s, word) == Mask(pass, b, s, word)
  {
    hide AssignStep, UrlStep, CliStep, AuthStep;
    if s != [] {
      if pass == Assignments {
        BoundaryIsPlain(a, s);
        BoundaryIsPlain(b, s);
      }
      assert Step(pass, a, s) == Step(pass, b, s);
    }
  }

  /** The step that the output of a step must lead to again. */
  function Repeated(p: Piece, word: string): Piece
    requires p.from <= p.to <= p.len
  {
    var n := p.from + (if p.hit then |word| else 0);
    Piece(p.from, n, n + p.len - p.to, p.hit)
  }

  predicate SameStep(pass: Pass, before: bool, s: string, t: string, word: string)
    requires s != [] && t != []
  {
    var p := Step(pass, before, s);
    && IsPieceOf(p, s) && p.from <= |t|
    && Step(pass, before, t) == Repeated(p, word)
    && Lead(pass, t, p.from) == Lead(pass, s, p.from)
  }

  /** `rest` ends where `tail` ends and otherwise begins as `tail` begins. */
  predicate HeadsAgree(rest: string, tail: string) {
    && (rest == "" <==> tail == "")
    && (tail != "" ==> Lower(rest[0]) == Lower(tail[0]))
    && (tail != "" && IsBoundary(tail[0]) ==> rest[0] == tail[0])
  }

  /** A scan that stopped at the end of `kept` stops there again when a word ends it. */
  lemma ScanAgain(kept: string, word: string, rest: string, tail: string, ends: string)
    requires forall i | 0 <= i < |kept| :: kept[i] !in ends
    requires forall i | 0 <= i < |word| :: word[i] !in ends
    requires HeadsAgree(rest, tail)
    requires tail != "" ==> tail[0] in ends && IsBoundary(tail[0])
    ensures ScanLen(kept + word + rest, ends) == |kept| + |word|
  {
    ScanLenUnique(kept + word + rest, ends, |kept| + |word|);
  }

  lemma UrlEndsAreDelimiters(c: char)
    requires c in URL_ENDS
    ensures c in DELIMITERS && IsBoundary(c)
  {
  }

  /** What a pass makes of the bytes of one piece. */
  function Overwritten(p: Piece, s: string, word: string): string
    requires IsPieceOf(p, s)
  {
    s[..p.from] + (if p.hit then word else "") + s[p.to..p.len]
  }

  lemma AuthorityAgain(a: string, word: string)
    requires AuthorityStep(a).hit && forall i | 0 <= i < |word| :: word[i] != '@'
    ensures var p := AuthorityStep(a);
      AuthorityStep(a[..p.from - 3] + word + a[p.to - 3..]) == Repeated(p, word)
  {
    var at := ScanLen(a, "@");
    var colon := ScanLen(a[..at], ":");
    var b := a[..colon + 1] + word + a[at..];
    assert a[at] == '@';
    ScanLenUnique(b, "@", colon + 1 + |word|);
    var user := b[..colon + 1 + |word|];
    assert user[colon] == a[..at][colon] == ':';
    ScanLenUnique(user, ":", colon);
  }

  lemma NoAtInOpaque(word: string)
    requires IsOpaque(word)
    ensures forall i | 0 <= i < |word| :: word[i] != '@'
  {
  }

  lemma UrlFound(head: string, b: string, rest: string)
    requires |head| == 3 && StartsWith(head, "://") && ScanLen(b + rest, URL_ENDS) == |b|
    ensures UrlStep(head + (b + rest)) == AuthorityStep(b)
  {
    hide URL_ENDS, AuthorityStep;
    var t := head + (b + rest);
    assert forall i | 0 <= i < 3 :: t[i] == head[i];
    assert t[3..] == b + rest;
    assert t[3..3 + |b|] == b;
  }

  /** The authority `a` once its piece is overwritten. */
  function Masked(p: Piece, a: string, word: string): string
    requires 3 <= p.from <= p.to <= |a| + 3
  {
    if p.hit then a[..p.from - 3] + word + a[p.to - 3..] else a
  }

  lemma UrlText(s: string, p: Piece, word: string, rest: string)
    requires IsPieceOf(p, s) && 3 <= p.from
    ensures Overwritten(p, s, word) + rest == s[..3] + (Masked(p, s[3..p.len], word) + rest)
  {
  }

  lemma MaskedAgain(a: string, word: string)
    requires IsOpaque(word)
    ensures var p := AuthorityStep(a);
      3 <= p.from <= p.to <= |a| + 3 && AuthorityStep(Masked(p, a, word)) == Repeated(p, word)
  {
    hide IsOpaque, AuthorityStep;
    AuthorityPiece(a);
    NoAtInOpaque(word);
    if AuthorityStep(a).hit {
      AuthorityAgain(a, word);
    }
  }

  lemma ScannedFree(s: string, ends: string)
    ensures var c := s[..ScanLen(s, ends)]; forall i | 0 <= i < |c| :: c[i] !in ends
  {
  }

  lemma AuthorityFree(a: string, p: Piece, word: string)
    requires forall i | 0 <= i < |a| :: a[i] !in URL_ENDS
    requires IsOpaque(word) && 3 <= p.from <= p.to <= |a| + 3
    ensures var b := Masked(p, a, word);
      forall i | 0 <= i < |b| :: b[i] !in URL_ENDS
  {
    hide URL_ENDS, DELIMITERS;
    forall c | c in URL_ENDS ensures c in DELIMITERS { UrlEndsAreDelimiters(c); }
  }

  lemma PrefixStarts(s: string)
    requires StartsWith(s, "://")
    ensures |s| >= 3 && StartsWith(s[..3], "://")
  {
  }

  lemma UrlTail(tail: string)
    requires tail != "" ==> tail[0] in URL_ENDS
    ensures tail != "" ==> tail[0] in DELIMITERS && IsBoundary(tail[0])
  {
    hide URL_ENDS, DELIMITERS, IsBoundary;
    if tail != "" {
      UrlEndsAreDelimiters(tail[0]);
    }
  }

  lemma UrlStable(s: string, rest: string, word: string)
    requires StartsWith(s, "://") && IsOpaque(word)
    requires IsPieceOf(UrlStep(s), s) && HeadsAgree(rest, s[UrlStep(s).len..])
    ensures UrlStep(Overwritten(UrlStep(s), s, word) + rest) == Repeated(UrlStep(s), word)
  {
    hide URL_ENDS, DELIMITERS, AuthorityStep, Overwritten, IsOpaque, ScanLen, StartsWith, IsBoundary, Masked, Repeated;
    PrefixStarts(s);
    var n := ScanLen(s[3..], URL_ENDS);
    var a := s[3..][..n];
    assert a == s[3..3 + n];
    var p := AuthorityStep(a);
    AuthorityPiece(a);
    var tail := s[3 + n..];
    assert tail != "" ==> tail[0] == s[3..][n];
    UrlTail(tail);
    var b := Masked(p, a, word);
    UrlText(s, p, word, rest);
    ScannedFree(s[3..], URL_ENDS);
    AuthorityFree(a, p, word);
    ScanAgain(b, "", rest, tail, URL_ENDS);
    assert b + "" + rest == b + rest;
    UrlFound(s[..3], b, rest);
    MaskedAgain(a, word);
  }

  lemma CredentialOfAgain(start: nat, c: string, close: nat, word: string)
    requires CredentialOf(start, c, close).hit
    ensures var p := CredentialOf(start, c, close);
      start < p.from <= start + |c|
      && CredentialOf(start, c[..p.from - start] + word, close) == Repeated(p, word)
  {
    var colon := ScanLen(c, ":");
    ScanLenUnique(c[..colon + 1] + word, ":", colon);
  }

  lemma CredentialOfShape(start: nat, c: string, close: nat)
    ensures var p := CredentialOf(start, c, close);
      && start <= p.from <= p.to && p.len == start + |c| + close
      && (if p.hit then p.to == start + |c| && start < p.from else p == Copied(p.len))
  {
  }

  /** Where the kept part of a credential ends, and what is written behind it. */
  function KeptEnd(p: Piece, end: nat): nat {
    if p.hit then p.from else end
  }

  function Middle(p: Piece, word: string): string {
    if p.hit then word else ""
  }

  lemma CredentialText(s: string, start: nat, end: nat, p: Piece, word: string, rest: string)
    requires IsPieceOf(p, s) && start <= p.from && start <= end <= p.len
    requires if p.hit then p.to == end else p == Copied(p.len)
    ensures start <= KeptEnd(p, end) <= |s|
    ensures Overwritten(p, s, word) + rest
         == s[..start] + (s[start..KeptEnd(p, end)] + Middle(p, word) + (s[end..p.len] + rest))
  {
    if p.hit {
      assert s[..p.from] == s[..start] + s[start..p.from];
    } else {
      assert s[..p.from] == s[..start] + s[start..end] + s[end..p.len];
    }
  }

  /** Bytes of a credential, cut anywhere, with an opaque word behind them: no scan ends there. */
  lemma CredentialFree(s: string, start: nat, ends: string, cut: nat, word: string)
    requires start <= |s| && cut <= ScanLen(s[start..], ends)
    requires forall i | 0 <= i < |word| :: word[i] !in ends
    ensures var d := s[start..start + cut] + word; forall i | 0 <= i < |d| :: d[i] !in ends
  {
    assert forall i | 0 <= i < cut :: s[start + i] == s[start..][i];
  }

  /** Scanning `head + credential + close + rest` for a credential finds that credential. */
  lemma CredentialFound(head: string, d: string, close: string, rest: string, ends: string, quoted: bool)
    requires ScanLen(d + (close + rest), ends) == |d|
    requires |close| == (if quoted && close + rest != "" then 1 else 0)
    ensures Credential(head + (d + (close + rest)), |head|, ends, quoted)
         == CredentialOf(|head|, d, |close|)
  {
    var t := head + (d + (close + rest));
    assert t[|head|..] == d + (close + rest);
    assert t[|head|..|head| + |d|] == d;
  }

  lemma ScanStops(s: string, start: nat, ends: string)
    requires start <= |s|
    ensures var end := start + ScanLen(s[start..], ends); end < |s| ==> s[end] in ends
  {
    var n := ScanLen(s[start..], ends);
    assert n < |s[start..]| ==> s[start..][n] == s[start + n];
  }

  lemma CredentialStable(s: string, start: nat, ends: string, quoted: bool, rest: string, word: string)
    requires 0 < start <= |s|
    requires IsPieceOf(Credential(s, start, ends, quoted), s)
    requires forall i | 0 <= i < |word| :: word[i] !in ends
    requires forall c | c in ends :: IsBoundary(c)
    requires HeadsAgree(rest, s[Credential(s, start, ends, quoted).len..])
    ensures var p := Credential(s, start, ends, quoted);
      var t := Overwritten(p, s, word) + rest;
      start <= |t| && Credential(t, start, ends, quoted) == Repeated(p, word)
  {
    hide CredentialOf, Credential, IsBoundary, Overwritten, HeadsAgree;
    var p := Credential(s, start, ends, quoted);
    var n := ScanLen(s[start..], ends);
    var c := s[start..start + n];
    CredentialShapes(s, start, ends, quoted);
    var end := start + n;
    var close := s[end..p.len];
    CredentialText(s, start, end, p, word, rest);
    var d := s[start..KeptEnd(p, end)] + Middle(p, word);
    CredentialFree(s, start, ends, KeptEnd(p, end) - start, Middle(p, word));
    ScanStops(s, start, ends);
    CredentialEnd(d, close, rest, s[p.len..], ends);
    RestEmpty(rest, s[p.len..]);
    CredentialFound(s[..start], d, close, rest, ends, quoted);
    CredentialAgain(s, start, end, p, word);
  }

  lemma CredentialAgain(s: string, start: nat, end: nat, p: Piece, word: string)
    requires start <= end <= p.len <= |s| && p == CredentialOf(start, s[start..end], p.len - end)
    ensures start <= KeptEnd(p, end) <= |s| && p.from <= p.to <= p.len
    ensures CredentialOf(start, s[start..KeptEnd(p, end)] + Middle(p, word), p.len - end) == Repeated(p, word)
  {
    hide CredentialOf;
    var c := s[start..end];
    CredentialOfShape(start, c, p.len - end);
    if p.hit {
      CredentialOfAgain(start, c, p.len - end, word);
      assert s[start..p.from] == c[..p.from - start];
    } else {
      assert c + "" == c;
    }
  }

  lemma RestEmpty(rest: string, tail: string)
    requires HeadsAgree(rest, tail)
    ensures rest == "" <==> tail == ""
  {
  }

  lemma CredentialShapes(s: string, start: nat, ends: string, quoted: bool)
    requires start <= |s|
    ensures var n := ScanLen(s[start..], ends);
      var p := Credential(s, start, ends, quoted);
      && start <= p.from <= p.to && p.len == start + n + (if quoted && start + n < |s| then 1 else 0)
      && p.len <= |s|
      && p == CredentialOf(start, s[start..start + n], p.len - start - n)
      && (if p.hit then p.to == start + n && start < p.from <= p.to else p == Copied(p.len))
  {
  }

  lemma CredentialEnd(d: string, close: string, rest: string, tail: string, ends: string)
    requires forall i | 0 <= i < |d| :: d[i] !in ends
    requires close != "" ==> close[0] in ends
    requires close == "" && tail != "" ==> tail[0] in ends && IsBoundary(tail[0])
    requires HeadsAgree(rest, tail)
    ensures ScanLen(d + (close + rest), ends) == |d|
  {
    ScanLenUnique(d + (close + rest), ends, |d|);
  }

  lemma MarkerAgain(s: string, t: string, n: nat)
    requires 0 < CliMarker(s) <= n <= |s| && n <= |t| && s[..n] == t[..n]
    ensures CliMarker(t) == CliMarker(s)
  {
    assert forall i | 0 <= i < n :: s[i] == s[..n][i] == t[i];
  }

  lemma CredentialShape(s: string, marker: nat)
    requires marker <= |s|
    ensures CliCredential(s, marker).from >= marker
    ensures CliCredential(s, marker).from == marker ==>
      CliCredential(s, marker) == Copied(marker) && (marker < |s| ==> s[marker] in SHELL_ENDS)
  {
    assert marker < |s| ==> s[marker..][0] == s[marker];
  }

  lemma ShellEndsAreDelimiters(c: char)
    requires c in SHELL_ENDS
    ensures c in DELIMITERS && IsBoundary(c) && c != '"' && c != '\''
  {
  }

  lemma QuotesAreDelimiters(c: char)
    requires c == '"' || c == '\''
    ensures c in DELIMITERS && IsBoundary(c)
  {
  }

  lemma CliStable(s: string, rest: string, word: string)
    requires CliMarker(s) > 0 && IsOpaque(word)
    requires IsPieceOf(CliStep(s), s) && HeadsAgree(rest, s[CliStep(s).len..])
    ensures CliStep(Overwritten(CliStep(s), s, word) + rest) == Repeated(CliStep(s), word)
  {
    hide SHELL_ENDS, DELIMITERS, Credential, CliMarker;
    var marker := CliMarker(s);
    var p := CliCredential(s, marker);
    var t := Overwritten(p, s, word) + rest;
    CredentialShape(s, marker);
    assert s[..p.from] == t[..p.from];
    MarkerAgain(s, t, p.from);
    forall c | c in SHELL_ENDS ensures c in DELIMITERS && IsBoundary(c) { ShellEndsAreDelimiters(c); }
    if QuoteAt(s, marker) {
      QuotesAreDelimiters(s[marker]);
      assert p.from > marker by { if p.from == marker { ShellEndsAreDelimiters(s[marker]); } }
      assert t[marker] == t[..p.from][marker] == s[marker];
      CredentialStable(s, marker + 1, [s[marker]], true, rest, word);
    } else {
      assert !QuoteAt(t, marker) by {
        if p.from == marker {
          if marker < |s| { ShellEndsAreDelimiters(s[marker]); }
        } else {
          assert t[marker] == t[..p.from][marker] == s[marker];
        }
      }
      CredentialStable(s, marker, SHELL_ENDS, false, rest, word);
    }
  }

  /** No marker of the pass can begin at `needle[i]`, given what follows it. */
  predicate IsInert(pass: Pass, needle: string, i: nat)
    requires i < |needle|
  {
    match pass
    case Url => needle[i] != ':'
    case Cli => needle[i] != '-' || (i + 2 < |needle| && needle[i + 1] == 'u' && needle[i + 2] == 's')
    case Auth => Lower(needle[i]) != 'b'
    case Assignments => false
  }

  predicate IsInner(pass: Pass, needle: string) {
    forall i | 0 <= i < |needle| :: IsInert(pass, needle, i)
  }

  /** At a marker, text that continues with such a needle is out of the question. */
  lemma MarkerClashes(pass: Pass, s: string, t: string, needle: string)
    requires pass != Assignments && s != [] && Step(pass, true, s) != PLAIN
    requires IsPieceOf(Step(pass, true, s), s) && needle != "" && IsInner(pass, needle)
    requires Step(pass, true, s).from <= |t|
    requires forall i | 0 <= i < Step(pass, true, s).from :: Lower(t[i]) == Lower(s[i])
    ensures !StartsWith(t, needle)
  {
    match pass
    case Url =>
      UrlMarkerClashes(s, t, needle);
    case Cli =>
      hide CliCredential;
      CredentialShape(s, CliMarker(s));
      CliMarkerClashes(s, t, needle);
    case Auth =>
      AuthMarkerClashes(s, t, needle);
  }

  lemma UrlMarkerClashes(s: string, t: string, needle: string)
    requires StartsWith(s, "://") && |t| > 0 && Lower(t[0]) == Lower(s[0])
    requires needle != "" && IsInner(Url, needle)
    ensures !StartsWith(t, needle)
  {
    assert Lower(t[0]) == ':';
    assert IsInert(Url, needle, 0);
  }

  lemma CliMarkerClashes(s: string, t: string, needle: string)
    requires CliMarker(s) > 0 && |t| >= CliMarker(s)
    requires forall i | 0 <= i < CliMarker(s) :: Lower(t[i]) == Lower(s[i])
    requires needle != "" && IsInner(Cli, needle)
    ensures !StartsWith(t, needle)
  {
    assert Lower(t[0]) == '-';
    assert Lower(t[1]) == '-' || Lower(t[2]) == ' ';
    assert IsInert(Cli, needle, 0);
  }

  lemma AuthMarkerClashes(s: string, t: string, needle: string)
    requires AuthMarker(s) != "" && |t| > 0 && |s| > 0 && Lower(t[0]) == Lower(s[0])
    requires needle != "" && IsInner(Auth, needle)
    ensures !StartsWith(t, needle)
  {
    assert Lower(t[0]) == 'b';
    assert IsInert(Auth, needle, 0);
  }

  lemma StartsWithTail(s: string, needle: string)
    requires s != "" && needle != ""
    ensures StartsWith(s, needle) <==> Lower(s[0]) == Lower(needle[0]) && StartsWith(s[1..], needle[1..])
  {
    if Lower(s[0]) == Lower(needle[0]) && StartsWith(s[1..], needle[1..]) {
      forall i | 0 <= i < |needle| ensures Lower(s[i]) == Lower(needle[i]) {
        if i > 0 {
          assert s[i] == s[1..][i - 1] && needle[i] == needle[1..][i - 1];
        }
      }
    }
    if StartsWith(s, needle) {
      forall i | 0 <= i < |needle| - 1 ensures Lower(s[1..][i]) == Lower(needle[1..][i]) {
        assert s[1..][i] == s[i + 1] && needle[1..][i] == needle[i + 1];
      }
    }
  }

  lemma StepBefore(pass: Pass, before: bool, s: string)
    requires pass != Assignments && s != []
    ensures Step(pass, before, s) == Step(pass, true, s)
  {
  }

  lemma EmptyMask(pass: Pass, before: bool, word: string)
    ensures Mask(pass, before, "", word) == ""
  {
  }

  lemma InnerTail(pass: Pass, needle: string)
    requires needle != "" && IsInner(pass, needle)
    ensures IsInner(pass, needle[1..])
  {
    forall i | 0 <= i < |needle| - 1 ensures IsInert(pass, needle[1..], i) {
      assert IsInert(pass, needle, i + 1);
    }
  }

  /** A pass leaves in place whatever text its markers may be followed by. */
  lemma {:induction false} InnerKept(pass: Pass, before: bool, s: string, word: string, needle: string)
    requires pass != Assignments && IsInner(pass, needle)
    ensures StartsWith(Mask(pass, before, s, word), needle) <==> StartsWith(s, needle)
    decreases |s|
  {
    hide Step, StartsWith, Mask;
    if s == [] {
      assert Mask(pass, before, s, word) == "" by { EmptyMask(pass, before, word); }
    } else if needle == "" {
      EmptyNeedle(s);
      EmptyNeedle(Mask(pass, before, s, word));
    } else {
      StepBefore(pass, before, s);
      MaskFolds(pass, before, s, word);
      if Step(pass, before, s) == PLAIN {
        PlainMask(pass, before, s, word);
        var t := Mask(pass, before, s, word);
        StartsWithTail(s, needle);
        StartsWithTail(t, needle);
        assert t[1..] == Mask(pass, IsBoundary(s[0]), s[1..], word);
        InnerTail(pass, needle);
        InnerKept(pass, IsBoundary(s[0]), s[1..], word, needle[1..]);
      } else {
        MarkerClashes(pass, s, s, needle);
        MarkerClashes(pass, s, Mask(pass, before, s, word), needle);
      }
    }
  }

  lemma EmptyNeedle(s: string)
    ensures StartsWith(s, "")
  {
  }

  lemma UrlPlainAgain(s: string, rest: string)
    requires s != [] && !StartsWith(s, "://")
    requires StartsWith(rest, "//") <==> StartsWith(s[1..], "//")
    ensures UrlStep([s[0]] + rest) == PLAIN
  {
    var t := [s[0]] + rest;
    assert t[1..] == rest && "://"[1..] == "//";
    StartsWithTail(t, "://");
    StartsWithTail(s, "://");
  }

  lemma UrlPlainMeans(s: string)
    requires s != "" && UrlStep(s) == PLAIN
    ensures !StartsWith(s, "://")
  {
    hide AuthorityStep;
    if StartsWith(s, "://") {
      AuthorityPiece(s[3..3 + ScanLen(s[3..], URL_ENDS)]);
    }
  }

  lemma CliPlainAgain(s: string, rest: string)
    requires s != [] && CliMarker(s) == 0
    requires StartsWith(rest, "u ") <==> StartsWith(s[1..], "u ")
    requires StartsWith(rest, "-user ") <==> StartsWith(s[1..], "-user ")
    requires StartsWith(rest, "-user=") <==> StartsWith(s[1..], "-user=")
    ensures CliMarker([s[0]] + rest) == 0
  {
    hide StartsWith;
    var t := [s[0]] + rest;
    assert t[1..] == rest;
    assert "-u "[1..] == "u " && "--user "[1..] == "-user " && "--user="[1..] == "-user=";
    StartsWithTail(t, "-u ");
    StartsWithTail(s, "-u ");
    StartsWithTail(t, "--user ");
    StartsWithTail(s, "--user ");
    StartsWithTail(t, "--user=");
    StartsWithTail(s, "--user=");
  }

  lemma AuthPlainAgain(s: string, rest: string)
    requires s != [] && AuthMarker(s) == ""
    requires StartsWith(rest, "earer ") <==> StartsWith(s[1..], "earer ")
    requires StartsWith(rest, "asic ") <==> StartsWith(s[1..], "asic ")
    ensures AuthMarker([s[0]] + rest) == ""
  {
    hide StartsWith;
    var t := [s[0]] + rest;
    assert t[1..] == rest && "Bearer "[1..] == "earer " && "Basic "[1..] == "asic ";
    StartsWithTail(t, "Bearer ");
    StartsWithTail(s, "Bearer ");
    StartsWithTail(t, "Basic ");
    StartsWithTail(s, "Basic ");
  }

  lemma InnerNeedles()
    ensures IsInner(Url, "//") && IsInner(Cli, "u ") && IsInner(Cli, "-user ") && IsInner(Cli, "-user=")
    ensures IsInner(Auth, "earer ") && IsInner(Auth, "asic ")
  {
  }

  /** A byte that was copied because no marker began at it is copied again. */
  lemma PlainAgain(pass: Pass, before: bool, s: string, word: string)
    requires pass != Assignments && s != [] && Step(pass, before, s) == PLAIN
    ensures Step(pass, before, Mask(pass, before, s, word)) == PLAIN
  {
    hide Mask, StartsWith, IsInner, CliCredential, AuthorityStep;
    PlainMask(pass, before, s, word);
    InnerNeedles();
    var rest := Mask(pass, IsBoundary(s[0]), s[1..], word);
    match pass
    case Url =>
      UrlPlainMeans(s);
      InnerKept(Url, IsBoundary(s[0]), s[1..], word, "//");
      UrlPlainAgain(s, rest);
    case Cli =>
      CredentialShape(s, CliMarker(s));
      InnerKept(Cli, IsBoundary(s[0]), s[1..], word, "u ");
      InnerKept(Cli, IsBoundary(s[0]), s[1..], word, "-user ");
      InnerKept(Cli, IsBoundary(s[0]), s[1..], word, "-user=");
      CliPlainAgain(s, rest);
    case Auth =>
      InnerKept(Auth, IsBoundary(s[0]), s[1..], word, "earer ");
      InnerKept(Auth, IsBoundary(s[0]), s[1..], word, "asic ");
      AuthPlainAgain(s, rest);
  }

  lemma TokenEndsAreDelimiters(c: char)
    requires c in TOKEN_ENDS
    ensures c in DELIMITERS && IsBoundary(c)
  {
  }

  lemma AuthMarkerAgain(marker: string, rest: string)
    requires marker == "Bearer " || marker == "Basic "
    ensures AuthMarker(marker + rest) == marker
  {
    var t := marker + rest;
    assert t[1] == marker[1];
  }

  lemma AuthFound(marker: string, token: string, rest: string)
    requires marker == "Bearer " || marker == "Basic "
    requires ScanLen(token + rest, TOKEN_ENDS) == |token|
    ensures var n := |marker|;
      AuthStep(marker + (token + rest)) == Piece(n, n + |token|, n + |token|, token != "")
  {
    hide TOKEN_ENDS;
    AuthMarkerAgain(marker, token + rest);
    assert (marker + (token + rest))[|marker|..] == token + rest;
  }

  lemma TokenTail(tail: string)
    requires tail != "" ==> tail[0] in TOKEN_ENDS
    ensures tail != "" ==> tail[0] in DELIMITERS && IsBoundary(tail[0])
    ensures forall c | c in TOKEN_ENDS :: c in DELIMITERS
  {
    hide TOKEN_ENDS, DELIMITERS, IsBoundary;
    forall c | c in TOKEN_ENDS ensures c in DELIMITERS && IsBoundary(c) { TokenEndsAreDelimiters(c); }
  }

  /** A token is masked whole: the piece ends where the token does. */
  lemma AuthParts(s: string)
    requires AuthMarker(s) != "" && IsPieceOf(AuthStep(s), s)
    ensures var n := |AuthMarker(s)|;
      var p := AuthStep(s);
      && n <= p.len && p.from == n && p.to == p.len == n + ScanLen(s[n..], TOKEN_ENDS) && (p.hit <==> p.len > n)
      && (p.len < |s| ==> s[p.len] in TOKEN_ENDS) && s[p.to..p.len] == ""
  {
    hide TOKEN_ENDS, AuthMarker;
    AuthMarkerShape(s);
  }

  lemma AuthStable(s: string, rest: string, word: string)
    requires AuthMarker(s) != "" && IsOpaque(word)
    requires IsPieceOf(AuthStep(s), s) && HeadsAgree(rest, s[AuthStep(s).len..])
    ensures var p := AuthStep(s);
      var t := AuthMarker(s) + (if p.hit then word else "") + s[p.to..p.len] + rest;
      AuthStep(t) == Repeated(p, word) && AuthMarker(t) == AuthMarker(s)
  {
    AuthParts(s);
    hide TOKEN_ENDS, DELIMITERS, AuthMarker, ScanLen, IsBoundary;
    AuthMarkerShape(s);
    var marker := AuthMarker(s);
    var p := AuthStep(s);
    var token := if p.hit then word else "";
    assert marker + token + s[p.to..p.len] + rest == marker + (token + rest);
    var tail := s[p.len..];
    TokenTail(tail);
    ScanAgain(token, "", rest, tail, TOKEN_ENDS);
    assert token + "" + rest == token + rest;
    AuthFound(marker, token, rest);
    AuthMarkerAgain(marker, token + rest);
  }

  /** Length of the run of key characters in front of `s`. */
  function WordLen(s: string): (n: nat)
    ensures n <= |s|
    ensures forall i | 0 <= i < n :: !IsBoundary(s[i])
    ensures n < |s| ==> IsBoundary(s[n])
  {
    if s == "" || IsBoundary(s[0]) then 0 else 1 + WordLen(s[1..])
  }

  lemma WordLenUnique(s: string, n: nat)
    requires n <= |s| && forall i | 0 <= i < n :: !IsBoundary(s[i])
    requires n < |s| ==> IsBoundary(s[n])
    ensures WordLen(s) == n
  {
    var m := WordLen(s);
    assert m < |s| ==> IsBoundary(s[m]);
    assert n < |s| ==> IsBoundary(s[n]);
  }

  lemma KeyIsWord(before: bool, s: string, key: string)
    requires IsKeyWord(key)
    ensures KeyMatches(before, s, key) <==> before && WordLen(s) == |key| && StartsWith(s, key)
  {
    if StartsWith(s, key) {
      assert forall i | 0 <= i < |key| :: Lower(s[i]) == Lower(key[i]) && !IsBoundary(s[i]);
      if |key| >= |s| || IsBoundary(s[|key|]) {
        WordLenUnique(s, |key|);
      }
    }
  }

  /** Which key stands at a place depends on the word there and on nothing behind it. */
  lemma {:induction false} KeyByWord(before: bool, s: string, t: string, keys: seq<string>)
    requires WordLen(s) == WordLen(t) && s[..WordLen(s)] == t[..WordLen(s)]
    requires forall k | 0 <= k < |keys| :: IsKeyWord(keys[k])
    ensures MatchKey(before, s, keys) == MatchKey(before, t, keys)
    ensures MatchKey(before, s, keys) in {0, WordLen(s)}
  {
    hide WordLen, KeyMatches, StartsWith, IsKeyWord;
    if keys != [] {
      assert IsKeyWord(keys[0]);
      KeyIsWord(before, s, keys[0]);
      KeyIsWord(before, t, keys[0]);
      StartsWithinWord(s, t, WordLen(s), keys[0]);
      KeyByWord(before, s, t, keys[1..]);
    }
  }

  lemma StartsWithinWord(s: string, t: string, n: nat, key: string)
    requires n <= |s| && n <= |t| && s[..n] == t[..n]
    ensures |key| == n ==> (StartsWith(s, key) <==> StartsWith(t, key))
  {
    assert forall i | 0 <= i < n :: s[i] == s[..n][i] == t[..n][i] == t[i];
  }

  lemma NoKeyInsideWord(s: string)
    ensures MatchKey(false, s, SENSITIVE_KEYS) == 0
  {
    SensitiveKeysAreWords();
    KeyIsAscii(false, s, SENSITIVE_KEYS);
  }

  /** Inside a word no key begins, so the rest of the word is copied. */
  lemma {:induction false} WordKept(s: string, word: string)
    ensures var t := Mask(Assignments, false, s, word);
      WordLen(t) == WordLen(s) && t[..WordLen(s)] == s[..WordLen(s)]
    decreases |s|
  {
    hide Mask, IsBoundary;
    var t := Mask(Assignments, false, s, word);
    if s == "" {
      EmptyMask(Assignments, false, word);
    } else {
      NoKeyInsideWord(s);
      PlainMask(Assignments, false, s, word);
      if !IsBoundary(s[0]) {
        WordKept(s[1..], word);
        assert t[1..] == Mask(Assignments, false, s[1..], word);
        var n := WordLen(s[1..]);
        assert t[..n + 1] == [t[0]] + t[1..][..n];
        assert s[..n + 1] == [s[0]] + s[1..][..n];
      }
    }
  }

  /** A byte at which no key begins is copied again. */
  lemma AssignPlainAgain(before: bool, s: string, word: string)
    requires s != "" && MatchKey(before, s, SENSITIVE_KEYS) == 0
    ensures Mask(Assignments, before, s, word) != ""
    ensures MatchKey(before, Mask(Assignments, before, s, word), SENSITIVE_KEYS) == 0
  {
    hide Mask, IsBoundary, MatchKey;
    var t := Mask(Assignments, before, s, word);
    PlainMask(Assignments, before, s, word);
    SensitiveKeysAreWords();
    if IsBoundary(s[0]) {
      NoKeyAtBoundary(before, t, SENSITIVE_KEYS);
    } else {
      WordKept(s[1..], word);
      var n := WordLen(s[1..]);
      assert t[1..] == Mask(Assignments, false, s[1..], word);
      assert WordLen(s) == n + 1 && WordLen(t) == n + 1;
      assert t[..n + 1] == [t[0]] + t[1..][..n];
      assert s[..n + 1] == [s[0]] + s[1..][..n];
      KeyByWord(before, s, t, SENSITIVE_KEYS);
    }
  }

  /** Spaces are copied, and what follows them keeps its kind. */
  lemma {:induction false} SpacesKept(before: bool, s: string, word: string)
    ensures var t := Mask(Assignments, before, s, word);
      var n := SpaceLen(s);
      && SpaceLen(t) == n
      && (n == |s| <==> n == |t|)
      && (n < |s| ==> (t[n] in ":=" <==> s[n] in ":="))
    decreases |s|
  {
    hide Mask;
    var t := Mask(Assignments, before, s, word);
    if s == "" {
      EmptyMask(Assignments, before, word);
    } else {
      HeadKept(Assignments, before, s, word);
      if s[0] == ' ' || s[0] == '\t' {
        BoundaryIsPlain(before, s);
        PlainMask(Assignments, before, s, word);
        SpacesKept(IsBoundary(s[0]), s[1..], word);
        assert t[1..] == Mask(Assignments, IsBoundary(s[0]), s[1..], word);
      }
    }
  }

  /** The word in front of `s`, when the text that replaces what follows it starts alike. */
  lemma WordOfPrefix(s: string, t: string, n: nat)
    requires WordLen(s) < n <= |s| && n <= |t| && s[..n] == t[..n]
    ensures WordLen(t) == WordLen(s) && s[..WordLen(s)] == t[..WordLen(s)]
  {
    assert forall i | 0 <= i < n :: s[i] == s[..n][i] == t[..n][i] == t[i];
    WordLenUnique(t, WordLen(s));
  }

  /** A key that no sign follows is copied, and again. */
  lemma BareKeyAgain(before: bool, s: string, word: string)
    requires s != ""
    requires var key := MatchKey(before, s, SENSITIVE_KEYS);
      key > 0 && KeyStep(s, key) == Copied(if QuoteAt(s, key) then key + 1 else key)
    ensures var key := MatchKey(before, s, SENSITIVE_KEYS);
      var cursor := if QuoteAt(s, key) then key + 1 else key;
      var t := s[..cursor] + Mask(Assignments, IsBoundary(s[cursor - 1]), s[cursor..], word);
      MatchKey(before, t, SENSITIVE_KEYS) == key && KeyStep(t, key) == Copied(cursor)
  {
    hide Mask, IsBoundary, MatchKey, KeyStep, SpaceLen;
    var key := MatchKey(before, s, SENSITIVE_KEYS);
    var cursor := if QuoteAt(s, key) then key + 1 else key;
    var b := IsBoundary(s[cursor - 1]);
    var rest := Mask(Assignments, b, s[cursor..], word);
    var t := s[..cursor] + rest;
    SensitiveKeysAreWords();
    KeyByWord(before, s, s, SENSITIVE_KEYS);
    assert key == WordLen(s);
    if key < |s| {
      QuoteOrBoundary(s, key);
      if cursor == key {
        HeadKept(Assignments, b, s[key..], word);
        assert s[key..][0] == s[key] == rest[0] == t[key];
      }
      assert t[key] == s[key];
      assert s[..key + 1] == t[..key + 1];
      WordOfPrefix(s, t, key + 1);
    } else {
      EmptyMask(Assignments, b, word);
      assert s[cursor..] == "" && t == s;
    }
    KeyByWord(before, s, t, SENSITIVE_KEYS);
    SpacesKept(b, s[cursor..], word);
    NoSign(s, key);
    assert t[cursor..] == rest;
    BareKey(t, key, cursor);
  }

  lemma QuoteOrBoundary(s: string, key: nat)
    requires key < |s|
    ensures QuoteAt(s, key) ==> IsBoundary(s[key])
  {
  }

  lemma NoSign(s: string, key: nat)
    requires key <= |s| && KeyStep(s, key) == Copied(if QuoteAt(s, key) then key + 1 else key)
    ensures var cursor := if QuoteAt(s, key) then key + 1 else key;
      var n := SpaceLen(s[cursor..]);
      n < |s[cursor..]| ==> s[cursor..][n] !in ":="
  {
    hide ScanLen, ValueEnds;
    var cursor := if QuoteAt(s, key) then key + 1 else key;
    var n := SpaceLen(s[cursor..]);
    assert n < |s[cursor..]| ==> s[cursor..][n] == s[cursor + n];
  }

  lemma BareKey(t: string, key: nat, cursor: nat)
    requires key <= |t| && cursor == (if QuoteAt(t, key) then key + 1 else key)
    requires var n := SpaceLen(t[cursor..]); n < |t[cursor..]| ==> t[cursor..][n] !in ":="
    ensures KeyStep(t, key) == Copied(cursor)
  {
    hide SignStep, IsAuthorization;
    var n := SpaceLen(t[cursor..]);
    assert n < |t[cursor..]| ==> t[cursor..][n] == t[cursor + n];
  }

  lemma ValueEndsAreDelimiters(s: string, value: nat, authorization: bool, c: char)
    requires c in ValueEnds(s, value, authorization)
    ensures c in DELIMITERS && IsBoundary(c)
  {
    if !authorization && QuoteAt(s, value) {
      QuotesAreDelimiters(s[value]);
      assert c == s[value];
    }
  }

  lemma OpaqueHead(word: string)
    requires IsOpaque(word)
    ensures word != "" && !QuoteAt(word, 0) && word[0] != ' ' && word[0] != '\t'
  {
  }

  lemma OpaqueFree(s: string, value: nat, authorization: bool, word: string)
    requires IsOpaque(word)
    ensures forall i | 0 <= i < |word| :: word[i] !in ValueEnds(s, value, authorization)
  {
    hide DELIMITERS, ValueEnds;
    forall c | c in ValueEnds(s, value, authorization) ensures c in DELIMITERS {
      ValueEndsAreDelimiters(s, value, authorization, c);
    }
  }

  lemma ValueText(s: string, p: Piece, word: string, rest: string)
    requires IsPieceOf(p, s) && p.hit
    ensures Overwritten(p, s, word) + rest == s[..p.from] + (word + (s[p.to..p.len] + rest))
  {
  }

  /** `head` ends with the opening quote, if there is one. */
  lemma ValueFound(head: string, value: nat, authorization: bool, word: string, close: string, rest: string)
    requires word != "" && !QuoteAt(word, 0)
    requires value <= |head| <= value + 1 && (|head| == value + 1 <==> QuoteAt(head, value))
    requires ScanLen(word + (close + rest), ValueEnds(head, value, authorization)) == |word|
    requires |close| == (if QuoteAt(head, value) && close + rest != "" && (close + rest)[0] == head[value] then 1 else 0)
    ensures var n := |head| + |word|;
      ValueStep(head + (word + (close + rest)), value, authorization)
      == Piece(|head|, n, n + |close|, true)
  {
    hide ScanLen, AUTHORIZATION_ENDS, VALUE_ENDS;
    var t := head + (word + (close + rest));
    assert QuoteAt(t, value) <==> QuoteAt(head, value);
    assert QuoteAt(head, value) ==> t[value] == head[value];
    assert t[|head|..] == word + (close + rest);
    assert |head| + |word| < |t| ==> t[|head| + |word|] == (close + rest)[0];
  }

  lemma ValueStable(s: string, value: nat, authorization: bool, rest: string, word: string)
    requires 0 < value <= |s| && IsOpaque(word)
    requires IsPieceOf(ValueStep(s, value, authorization), s)
    requires HeadsAgree(rest, s[ValueStep(s, value, authorization).len..])
    ensures var p := ValueStep(s, value, authorization);
      var t := Overwritten(p, s, word) + rest;
      value < |t| && ValueStep(t, value, authorization) == Repeated(p, word)
      && t[value] != ' ' && t[value] != '\t'
  {
    hide ScanLen, AUTHORIZATION_ENDS, VALUE_ENDS, IsOpaque, Overwritten;
    var p := ValueStep(s, value, authorization);
    var ends := ValueEnds(s, value, authorization);
    var head := s[..p.from];
    var close := s[p.to..p.len];
    var tail := s[p.len..];
    ValueText(s, p, word, rest);
    OpaqueHead(word);
    OpaqueFree(s, value, authorization, word);
    assert p.to < |s| ==> s[p.from..][p.to - p.from] == s[p.to] && s[p.to] in ends;
    if p.to < |s| { ValueEndsAreDelimiters(s, value, authorization, s[p.to]); }
    assert tail != "" && close == "" ==> tail[0] == s[p.to];
    CredentialEnd(word, close, rest, tail, ends);
    assert QuoteAt(head, value) <==> QuoteAt(s, value);
    assert QuoteAt(head, value) ==> head[value] == s[value];
    assert ValueEnds(head, value, authorization) == ends;
    ValueFound(head, value, authorization, word, close, rest);
  }

  lemma SignStable(s: string, after: nat, authorization: bool, rest: string, word: string)
    requires 0 < after <= |s| && IsOpaque(word)
    requires IsPieceOf(SignStep(s, after, authorization), s)
    requires HeadsAgree(rest, s[SignStep(s, after, authorization).len..])
    ensures var p := SignStep(s, after, authorization);
      var t := Overwritten(p, s, word) + rest;
      after <= p.from && after <= |t| && SignStep(t, after, authorization) == Repeated(p, word)
  {
    hide IsOpaque, ValueStep, Overwritten, SpaceLen;
    var n := SpaceLen(s[after..]);
    var p := ValueStep(s, after + n, authorization);
    var t := Overwritten(p, s, word) + rest;
    ValueFrom(s, after + n, authorization);
    OverwrittenPrefix(s, p, word, rest);
    ValueStable(s, after + n, authorization, rest, word);
    SpacesBefore(s, t, after, n, p.from);
  }

  lemma OverwrittenPrefix(s: string, p: Piece, word: string, rest: string)
    requires IsPieceOf(p, s)
    ensures var t := Overwritten(p, s, word) + rest; p.from <= |t| && t[..p.from] == s[..p.from]
  {
  }

  lemma ValueFrom(s: string, value: nat, authorization: bool)
    requires value <= |s|
    ensures ValueStep(s, value, authorization).from >= value && ValueStep(s, value, authorization).hit
  {
  }

  lemma SpacesBefore(s: string, t: string, after: nat, n: nat, kept: nat)
    requires after + n <= kept <= |s| && after + n < |t| && kept <= |t| && s[..kept] == t[..kept]
    requires n == SpaceLen(s[after..]) && t[after + n] != ' ' && t[after + n] != '\t'
    ensures SpaceLen(t[after..]) == n
  {
    forall i | 0 <= i < n ensures t[after..][i] == ' ' || t[after..][i] == '\t' {
      assert s[after + i] == s[..kept][after + i] == t[..kept][after + i] == t[after + i];
      assert s[after..][i] == s[after + i];
    }
    SpaceLenUnique(t[after..], n);
  }

  predicate HasSign(s: string, key: nat)
    requires key <= |s|
  {
    var cursor := if QuoteAt(s, key) then key + 1 else key;
    var sign := cursor + SpaceLen(s[cursor..]);
    sign < |s| && (s[sign] == ':' || s[sign] == '=')
  }

  function SignAt(s: string, key: nat): (sign: nat)
    requires key <= |s| && HasSign(s, key)
    ensures key <= sign < |s|
  {
    var cursor := if QuoteAt(s, key) then key + 1 else key;
    cursor + SpaceLen(s[cursor..])
  }

  /** A text that keeps the sign keeps where it is. */
  lemma SignKept(s: string, t: string, key: nat, kept: nat)
    requires key <= |s| && HasSign(s, key) && SignAt(s, key) < kept <= |s|
    requires kept <= |t| && s[..kept] == t[..kept]
    ensures key <= |t| && HasSign(t, key) && SignAt(t, key) == SignAt(s, key)
  {
    assert forall i | 0 <= i < kept :: s[i] == s[..kept][i] == t[..kept][i] == t[i];
    var cursor := if QuoteAt(s, key) then key + 1 else key;
    assert QuoteAt(s, key) <==> QuoteAt(t, key);
    SpacesBefore(s, t, cursor, SpaceLen(s[cursor..]), kept);
  }

  lemma SignedStep(s: string, key: nat)
    requires key <= |s|
    ensures KeyStep(s, key) ==
      if HasSign(s, key) then SignStep(s, SignAt(s, key) + 1, IsAuthorization(s[..key]))
      else Copied(if QuoteAt(s, key) then key + 1 else key)
  {
    hide SignStep, IsAuthorization;
  }

  lemma KeyStable(before: bool, s: string, rest: string, word: string)
    requires s != "" && IsOpaque(word) && IsPieceOf(AssignStep(before, s), s)
    requires var key := MatchKey(before, s, SENSITIVE_KEYS); key > 0 && HasSign(s, key)
    requires HeadsAgree(rest, s[AssignStep(before, s).len..])
    ensures AssignStep(before, Overwritten(AssignStep(before, s), s, word) + rest)
         == Repeated(AssignStep(before, s), word)
  {
    hide MatchKey, HasSign, SignAt, SignStep, IsOpaque, IsAuthorization, KeyStep, Overwritten, HeadsAgree, IsBoundary;
    var key := MatchKey(before, s, SENSITIVE_KEYS);
    SignedStep(s, key);
    var sign := SignAt(s, key);
    var authorization := IsAuthorization(s[..key]);
    var p := SignStep(s, sign + 1, authorization);
    var t := Overwritten(p, s, word) + rest;
    SignStable(s, sign + 1, authorization, rest, word);
    OverwrittenPrefix(s, p, word, rest);
    SignKept(s, t, key, p.from);
    SensitiveKeysAreWords();
    KeyByWord(before, s, s, SENSITIVE_KEYS);
    WordOfPrefix(s, t, p.from);
    KeyByWord(before, s, t, SENSITIVE_KEYS);
    assert t[..key] == t[..p.from][..key] == s[..key];
    SignedStep(t, key);
  }

  /** The rest of a walk begins as the rest of the input does. */
  lemma RestHeads(pass: Pass, before: bool, tail: string, word: string)
    ensures HeadsAgree(Mask(pass, before, tail, word), tail)
  {
    if tail == "" {
      EmptyMask(pass, before, word);
    } else {
      hide Mask;
      HeadKept(pass, before, tail, word);
    }
  }

  lemma EmitLen(pass: Pass, p: Piece, s: string, word: string)
    requires IsPieceOf(p, s)
    ensures |Emit(pass, p, s, word)| == Repeated(p, word).len
    ensures pass != Auth ==> Emit(pass, p, s, word) == Overwritten(p, s, word)
  {
    hide Lead;
    LeadFolds(pass, s, p.from);
  }

  lemma MaskText(pass: Pass, before: bool, s: string, word: string)
    requires s != ""
    ensures var p := Step(pass, before, s);
      && IsPieceOf(p, s) && 1 <= p.from <= p.to <= p.len <= |s|
      && Mask(pass, before, s, word) == Emit(pass, p, s, word) + Mask(pass, IsBoundary(s[p.len - 1]), s[p.len..], word)
      && |Emit(pass, p, s, word)| == Repeated(p, word).len
      && (pass != Auth ==> Emit(pass, p, s, word) == Overwritten(p, s, word))
  {
    hide Step, Emit, Overwritten;
    StepIsPiece(pass, before, s);
    EmitLen(pass, Step(pass, before, s), s, word);
  }

  /** Outside the `Authorization` pass, the walk copies all but the secrets. */
  lemma MaskOverwrites(pass: Pass, before: bool, s: string, word: string)
    requires pass != Auth && s != ""
    ensures var p := Step(pass, before, s);
      var t := Mask(pass, before, s, word);
      && IsPieceOf(p, s) && 1 <= p.from <= p.to <= p.len <= |s|
      && t == Overwritten(p, s, word) + Mask(pass, IsBoundary(s[p.len - 1]), s[p.len..], word)
      && p.from <= |t| && t != "" && t[..p.from] == s[..p.from]
  {
    hide Step, Mask, Emit, Overwritten, IsPieceOf;
    MaskText(pass, before, s, word);
    var p := Step(pass, before, s);
    OverwrittenPrefix(s, p, word, Mask(pass, IsBoundary(s[p.len - 1]), s[p.len..], word));
  }

  lemma UrlAgain(before: bool, s: string, word: string)
    requires s != "" && IsOpaque(word)
    ensures Mask(Url, before, s, word) != "" && SameStep(Url, before, s, Mask(Url, before, s, word), word)
  {
    hide Mask, UrlStep, IsOpaque, HeadsAgree, Overwritten, AuthMarker, IsPieceOf;
    var p := UrlStep(s);
    MaskOverwrites(Url, before, s, word);
    if p == PLAIN {
      PlainAgain(Url, before, s, word);
    } else {
      RestHeads(Url, IsBoundary(s[p.len - 1]), s[p.len..], word);
      MarkedUrl(s);
      UrlStable(s, Mask(Url, IsBoundary(s[p.len - 1]), s[p.len..], word), word);
    }
  }

  lemma MarkedUrl(s: string)
    requires s != "" && UrlStep(s) != PLAIN
    ensures StartsWith(s, "://")
  {
  }

  lemma CliAgain(before: bool, s: string, word: string)
    requires s != "" && IsOpaque(word)
    ensures Mask(Cli, before, s, word) != "" && SameStep(Cli, before, s, Mask(Cli, before, s, word), word)
  {
    hide Mask, CliStep, IsOpaque, HeadsAgree, Overwritten, AuthMarker, IsPieceOf;
    var p := CliStep(s);
    MaskOverwrites(Cli, before, s, word);
    if p == PLAIN {
      PlainAgain(Cli, before, s, word);
    } else {
      RestHeads(Cli, IsBoundary(s[p.len - 1]), s[p.len..], word);
      MarkedCli(s);
      CliStable(s, Mask(Cli, IsBoundary(s[p.len - 1]), s[p.len..], word), word);
    }
  }

  lemma MarkedCli(s: string)
    requires s != "" && CliStep(s) != PLAIN
    ensures CliMarker(s) > 0
  {
  }

  lemma MaskAuth(before: bool, s: string, word: string)
    requires s != "" && AuthMarker(s) != ""
    ensures var p := AuthStep(s);
      && IsPieceOf(p, s) && 1 <= p.from <= p.to <= p.len <= |s| && p.from == |AuthMarker(s)|
      && Mask(Auth, before, s, word) == AuthMarker(s) + (if p.hit then word else "") + s[p.to..p.len]
                                        + Mask(Auth, IsBoundary(s[p.len - 1]), s[p.len..], word)
  {
    hide AuthStep, AuthMarker, Mask, IsPieceOf;
    MaskText(Auth, before, s, word);
    MarkedAuth(s);
  }

  lemma AuthAgain(before: bool, s: string, word: string)
    requires s != "" && IsOpaque(word)
    ensures Mask(Auth, before, s, word) != "" && SameStep(Auth, before, s, Mask(Auth, before, s, word), word)
  {
    hide Mask, AuthStep, IsOpaque, HeadsAgree, AuthMarker;
    AuthMarkerShape(s);
    MarkedAuth(s);
    var p := AuthStep(s);
    if AuthMarker(s) == "" {
      PlainMask(Auth, before, s, word);
      PlainAgain(Auth, before, s, word);
      AuthMarkerShape(Mask(Auth, before, s, word));
    } else {
      MaskAuth(before, s, word);
      RestHeads(Auth, IsBoundary(s[p.len - 1]), s[p.len..], word);
      AuthStable(s, Mask(Auth, IsBoundary(s[p.len - 1]), s[p.len..], word), word);
    }
  }

  lemma MarkedAuth(s: string)
    requires s != ""
    ensures if AuthMarker(s) == "" then AuthStep(s) == PLAIN else AuthStep(s).from == |AuthMarker(s)|
  {
  }

  lemma BareAssignAgain(before: bool, s: string, word: string)
    requires s != "" && MatchKey(before, s, SENSITIVE_KEYS) > 0
    requires !HasSign(s, MatchKey(before, s, SENSITIVE_KEYS))
    ensures Mask(Assignments, before, s, word) != ""
    ensures SameStep(Assignments, before, s, Mask(Assignments, before, s, word), word)
  {
    hide Mask, MatchKey, KeyStep, HasSign, Overwritten, IsBoundary;
    MaskOverwrites(Assignments, before, s, word);
    SignedStep(s, MatchKey(before, s, SENSITIVE_KEYS));
    BareKeyAgain(before, s, word);
    CopiedText(s, AssignStep(before, s), word);
  }

  lemma SignedAssignAgain(before: bool, s: string, word: string)
    requires s != "" && IsOpaque(word) && MatchKey(before, s, SENSITIVE_KEYS) > 0
    requires HasSign(s, MatchKey(before, s, SENSITIVE_KEYS))
    ensures Mask(Assignments, before, s, word) != ""
    ensures SameStep(Assignments, before, s, Mask(Assignments, before, s, word), word)
  {
    hide Mask, MatchKey, KeyStep, IsOpaque, HeadsAgree, HasSign, Overwritten, IsBoundary, IsPieceOf;
    var p := AssignStep(before, s);
    MaskOverwrites(Assignments, before, s, word);
    RestHeads(Assignments, IsBoundary(s[p.len - 1]), s[p.len..], word);
    KeyStable(before, s, Mask(Assignments, IsBoundary(s[p.len - 1]), s[p.len..], word), word);
  }

  lemma AssignAgain(before: bool, s: string, word: string)
    requires s != "" && IsOpaque(word)
    ensures Mask(Assignments, before, s, word) != ""
    ensures SameStep(Assignments, before, s, Mask(Assignments, before, s, word), word)
  {
    hide Mask, MatchKey, KeyStep, IsOpaque, HasSign;
    var key := MatchKey(before, s, SENSITIVE_KEYS);
    if key == 0 {
      MaskOverwrites(Assignments, before, s, word);
      AssignPlainAgain(before, s, word);
    } else if HasSign(s, key) {
      SignedAssignAgain(before, s, word);
    } else {
      BareAssignAgain(before, s, word);
    }
  }

  lemma CopiedText(s: string, p: Piece, word: string)
    requires IsPieceOf(p, s) && p == Copied(p.len)
    ensures Overwritten(p, s, word) == s[..p.len]
  {
  }

  /** Every step is taken again over the output of the walk. */
  lemma StepAgain(pass: Pass, before: bool, s: string, word: string)
    requires s != "" && IsOpaque(word)
    ensures Mask(pass, before, s, word) != ""
    ensures SameStep(pass, before, s, Mask(pass, before, s, word), word)
  {
    match pass
    case Url => UrlAgain(before, s, word);
    case Cli => CliAgain(before, s, word);
    case Auth => AuthAgain(before, s, word);
    case Assignments => AssignAgain(before, s, word);
  }

  /** Where the byte in front of the rest was a secret, the rest begins with a boundary. */
  lemma SecretThenBoundary(before: bool, s: string)
    requires s != "" && AssignStep(before, s).hit && AssignStep(before, s).to == AssignStep(before, s).len
    ensures AssignStep(before, s).len < |s| ==> IsBoundary(s[AssignStep(before, s).len])
  {
    hide MatchKey, IsBoundary, KeyStep, SignAt, HasSign, ValueStep;
    var key := MatchKey(before, s, SENSITIVE_KEYS);
    SignedStep(s, key);
    assert HasSign(s, key);
    var after := SignAt(s, key) + 1;
    ValueThenBoundary(s, after + SpaceLen(s[after..]), IsAuthorization(s[..key]));
  }

  lemma ValueThenBoundary(s: string, value: nat, authorization: bool)
    requires value <= |s|
    ensures var p := ValueStep(s, value, authorization); p.to < |s| ==> IsBoundary(s[p.to])
  {
    hide IsBoundary, ValueEnds, DELIMITERS;
    var p := ValueStep(s, value, authorization);
    if p.to < |s| {
      assert s[p.from..][p.to - p.from] == s[p.to];
      ValueEndsAreDelimiters(s, value, authorization, s[p.to]);
    }
  }

  /** A piece that does not end in a secret keeps its last byte. */
  lemma LastKept(p: Piece, s: string, word: string, rest: string)
    requires IsPieceOf(p, s) && !(p.hit && p.to == p.len)
    ensures var n := Repeated(p, word).len;
      0 < n <= |Overwritten(p, s, word)| && (Overwritten(p, s, word) + rest)[n - 1] == s[p.len - 1]
  {
  }

  /** The byte in front of the rest leaves the same choice after masking as before. */
  lemma BeforeRest(pass: Pass, before: bool, s: string, word: string, other: string)
    requires s != "" && IsOpaque(word)
    requires IsPieceOf(Step(pass, before, s), s)
    ensures var p := Step(pass, before, s);
      var t := Mask(pass, before, s, word);
      var q := Repeated(p, word);
      var tail := s[p.len..];
      && 0 < q.len <= |t|
      && Mask(pass, IsBoundary(t[q.len - 1]), tail, other) == Mask(pass, IsBoundary(s[p.len - 1]), tail, other)
  {
    hide Mask, UrlStep, CliStep, AuthStep, AssignStep, IsOpaque, IsBoundary, Overwritten, Emit;
    var p := Step(pass, before, s);
    var t := Mask(pass, before, s, word);
    var q := Repeated(p, word);
    var tail := s[p.len..];
    MaskText(pass, before, s, word);
    if pass == Assignments {
      if p.hit && p.to == p.len {
        SecretThenBoundary(before, s);
        BeforeIrrelevant(pass, IsBoundary(t[q.len - 1]), IsBoundary(s[p.len - 1]), tail, other);
      } else {
        LastKept(p, s, word, Mask(pass, IsBoundary(s[p.len - 1]), tail, word));
      }
    } else {
      BeforeIrrelevant(pass, IsBoundary(t[q.len - 1]), IsBoundary(s[p.len - 1]), tail, other);
    }
  }

  lemma EmitAgain(pass: Pass, p: Piece, s: string, t: string, word: string, other: string)
    requires IsPieceOf(p, s) && p.from <= |t| && Repeated(p, word).len <= |t|
    requires Lead(pass, t, p.from) == Lead(pass, s, p.from)
    requires t[..Repeated(p, word).len] == Emit(pass, p, s, word)
    requires IsPieceOf(Repeated(p, word), t)
    ensures Emit(pass, Repeated(p, word), t, other) == Emit(pass, p, s, other)
  {
    hide Lead;
    LeadFolds(pass, s, p.from);
    var q := Repeated(p, word);
    assert t[q.to..q.len] == t[..q.len][q.to..];
    assert Emit(pass, p, s, word)[q.to..] == s[p.to..p.len];
  }

  /** Redacting again what was masked with an opaque word gives what redacting first gave. */
  lemma {:induction false} MaskStable(pass: Pass, before: bool, s: string, word: string, other: string)
    requires IsOpaque(word)
    ensures Mask(pass, before, Mask(pass, before, s, word), other) == Mask(pass, before, s, other)
    decreases |s|
  {
    hide Mask, Step, IsOpaque, Emit, Lead, IsPieceOf, IsBoundary;
    if s == "" {
      EmptyMask(pass, before, word);
    } else {
      var t := Mask(pass, before, s, word);
      var p := Step(pass, before, s);
      MaskText(pass, before, s, word);
      PieceBounds(p, s);
      var q := Repeated(p, word);
      StepAgain(pass, before, s, word);
      MaskText(pass, before, t, other);
      EmitAgain(pass, p, s, t, word, other);
      BeforeRest(pass, before, s, word, word);
      BeforeRest(pass, before, s, word, other);
      assert t[q.len..] == Mask(pass, IsBoundary(s[p.len - 1]), s[p.len..], word);
      MaskStable(pass, IsBoundary(t[q.len - 1]), s[p.len..], word, other);
      MaskText(pass, before, s, other);
    }
  }

  lemma PieceBounds(p: Piece, s: string)
    requires IsPieceOf(p, s)
    ensures 1 <= p.len <= |s| && p.from <= p.to <= p.len
  {
  }

  /** Redaction does not depend on what the secrets are: any opaque word in their place
      redacts to the same text. */
  lemma RedactIgnoresSecrets(pass: Pass, s: string, word: string)
    requires IsOpaque(word)
    ensures Redact(pass, Mask(pass, true, s, word)) == Redact(pass, s)
  {
    MaskStable(pass, true, s, word, REDACTED);
  }

  /** Each pass is idempotent. */
  lemma RedactIdempotent(pass: Pass, s: string)
    ensures Redact(pass, Redact(pass, s)) == Redact(pass, s)
  {
    RedactedIsOpaque();
    MaskStable(pass, true, s, REDACTED, REDACTED);
  }
}

/**
  What a pass does to its input, said without the walk: it overwrites an ordered list of
  disjoint spans, each of which begins behind an ASCII byte and ends in front of one or at
  the end, and leaves every other byte alone, but for the case of `Bearer` and `Basic`.
 */
module RedactionSpans {
  import opened Scan
  import opened Redaction
  import Utf8

  datatype Span = Span(from: nat, to: nat)

  /** The spans that a pass overwrites in `text` from `at` on. */
  function Spans(pass: Pass, before: bool, text: string, at: nat): seq<Span>
    requires at <= |text|
    decreases |text| - at
  {
    if at == |text| then []
    else
      StepIsPiece(pass, before, text[at..]);
      var p := Step(pass, before, text[at..]);
      Hit(p, at) + Spans(pass, IsBoundary(text[at + p.len - 1]), text, at + p.len)
  }

  function Hit(p: Piece, at: nat): seq<Span> {
    if p.hit then [Span(at + p.from, at + p.to)] else []
  }

  /** `text` from `at` on, with `word` in place of each span. */
  function Splice(text: string, spans: seq<Span>, word: string, at: nat): string
    requires at <= |text| && AreSpans(text, spans, at)
    decreases |spans|
  {
    if spans == [] then text[at..]
    else text[at..spans[0].from] + word + Splice(text, spans[1..], word, spans[0].to)
  }

  /** Spans of `text` from `at` on, in order, with at least one byte before and between. */
  predicate AreSpans(text: string, spans: seq<Span>, at: nat)
    decreases |spans|
  {
    spans == [] || (at < spans[0].from <= spans[0].to <= |text| && AreSpans(text, spans[1..], spans[0].to))
  }

  /** Every span lies between an ASCII byte and another, or the end. */
  predicate AreDelimited(text: string, spans: seq<Span>) {
    forall i | 0 <= i < |spans| ::
      && 0 < spans[i].from <= |text| && Utf8.IsAscii(text[spans[i].from - 1])
      && (spans[i].to < |text| ==> Utf8.IsAscii(text[spans[i].to]))
  }

  /** Equal but for the case of ASCII letters. */
  predicate SameFolded(a: string, b: string) {
    |a| == |b| && forall i | 0 <= i < |a| :: Lower(a[i]) == Lower(b[i])
  }

  lemma {:induction false} EarlierSpans(text: string, spans: seq<Span>, early: nat, at: nat)
    requires early <= at && AreSpans(text, spans, at)
    ensures AreSpans(text, spans, early)
  {
  }

  lemma SpliceHead(text: string, spans: seq<Span>, word: string, at: nat)
    requires at <= |text| && AreSpans(text, spans, at)
    ensures if spans == [] then Splice(text, spans, word, at) == text[at..]
            else at < spans[0].from <= spans[0].to <= |text| && AreSpans(text, spans[1..], spans[0].to)
                 && Splice(text, spans, word, at) == text[at..spans[0].from] + (word + Splice(text, spans[1..], word, spans[0].to))
  {
    hide AreDelimited;
    if spans != [] {
      Regroup(text[at..spans[0].from], word, Splice(text, spans[1..], word, spans[0].to));
    }
  }

  lemma Regroup(a: string, b: string, c: string)
    ensures a + b + c == a + (b + c)
  {
  }

  lemma SpliceFrom(text: string, spans: seq<Span>, word: string, early: nat, at: nat)
    requires early <= at <= |text| && AreSpans(text, spans, at)
    ensures AreSpans(text, spans, early)
    ensures Splice(text, spans, word, early) == text[early..at] + Splice(text, spans, word, at)
  {
    hide AreSpans, Splice;
    EarlierSpans(text, spans, early, at);
    SpliceHead(text, spans, word, at);
    SpliceHead(text, spans, word, early);
    if spans == [] {
      SliceFrom(text, early, at, |text|);
      assert text[early..] == text[early..|text|] && text[at..] == text[at..|text|];
    } else {
      SliceFrom(text, early, at, spans[0].from);
      Regroup(text[early..at], text[at..spans[0].from], word + Splice(text, spans[1..], word, spans[0].to));
    }
  }

  lemma SliceFrom(text: string, a: nat, b: nat, c: nat)
    requires a <= b <= c <= |text|
    ensures text[a..c] == text[a..b] + text[b..c]
  {
  }

  lemma PieceBounds(p: Piece, s: string)
    requires IsPieceOf(p, s)
    ensures 1 <= p.from <= p.to <= p.len <= |s| && (!p.hit ==> p.from == p.to)
  {
  }

  /** The walk of `Spans`, one piece at a time. */
  lemma SpansStep(pass: Pass, before: bool, text: string, at: nat) returns (p: Piece, next: bool)
    requires at < |text|
    ensures p == Step(pass, before, text[at..]) && IsPieceOf(p, text[at..]) && 0 < p.len <= |text| - at
    ensures p == PLAIN || IsCleanPiece(p, text[at..])
    ensures next == IsBoundary(text[at + p.len - 1])
    ensures Spans(pass, before, text, at) == Hit(p, at) + Spans(pass, next, text, at + p.len)
  {
    hide Step, IsCleanPiece, Hit, IsBoundary;
    StepIsPiece(pass, before, text[at..]);
    p := Step(pass, before, text[at..]);
    next := IsBoundary(text[at + p.len - 1]);
  }

  lemma {:induction false} SpansAreSpans(pass: Pass, before: bool, text: string, at: nat)
    requires at <= |text|
    ensures AreSpans(text, Spans(pass, before, text, at), at)
    ensures AreDelimited(text, Spans(pass, before, text, at))
    decreases |text| - at
  {
    hide *;
    if at < |text| {
      var p, next := SpansStep(pass, before, text, at);
      SpansAreSpans(pass, next, text, at + p.len);
      HitFirst(text, p, at, Spans(pass, next, text, at + p.len));
    } else {
      NoSpans(pass, before, text);
    }
  }

  lemma NoSpans(pass: Pass, before: bool, text: string)
    ensures Spans(pass, before, text, |text|) == [] && AreSpans(text, [], |text|) && AreDelimited(text, [])
  {
    hide Step;
  }

  lemma HitFirst(text: string, p: Piece, at: nat, rest: seq<Span>)
    requires at < |text| && IsPieceOf(p, text[at..])
    requires p == PLAIN || IsCleanPiece(p, text[at..])
    requires AreSpans(text, rest, at + p.len) && AreDelimited(text, rest)
    ensures AreSpans(text, Hit(p, at) + rest, at) && AreDelimited(text, Hit(p, at) + rest)
  {
    hide IsPieceOf, AreSpans, IsCleanPiece, AreDelimited;
    PieceBounds(p, text[at..]);
    if p.hit {
      EarlierSpans(text, rest, at + p.to, at + p.len);
      HitDelimited(text, p, at);
      FirstSpan(text, Span(at + p.from, at + p.to), at, rest);
    } else {
      EarlierSpans(text, rest, at, at + p.len);
      assert [] + rest == rest;
    }
  }

  lemma HitDelimited(text: string, p: Piece, at: nat)
    requires at < |text| && IsPieceOf(p, text[at..]) && p.hit
    requires IsCleanPiece(p, text[at..])
    ensures 0 < p.from <= p.to <= |text| - at && Utf8.IsAscii(text[at + p.from - 1])
    ensures at + p.to < |text| ==> Utf8.IsAscii(text[at + p.to])
  {
    hide Utf8.IsAscii, Utf8.IsCut;
    var s := text[at..];
    assert s[p.from - 1] == text[at + p.from - 1];
    assert p.to < |s| ==> s[p.to] == text[at + p.to];
  }

  lemma FirstSpan(text: string, first: Span, at: nat, rest: seq<Span>)
    requires at < first.from <= first.to <= |text|
    requires Utf8.IsAscii(text[first.from - 1]) && (first.to < |text| ==> Utf8.IsAscii(text[first.to]))
    requires AreSpans(text, rest, first.to) && AreDelimited(text, rest)
    ensures AreSpans(text, [first] + rest, at) && AreDelimited(text, [first] + rest)
  {
    hide Utf8.IsAscii;
    var all := [first] + rest;
    assert all[1..] == rest;
    forall i | 0 <= i < |all|
      ensures 0 < all[i].from <= |text| && Utf8.IsAscii(text[all[i].from - 1])
      ensures all[i].to < |text| ==> Utf8.IsAscii(text[all[i].to])
    {
      if i > 0 {
        assert all[i] == rest[i - 1];
      }
    }
  }

  lemma LeadFolded(pass: Pass, s: string, n: nat)
    requires n <= |s|
    ensures SameFolded(Lead(pass, s, n), s[..n])
    ensures pass != Auth ==> Lead(pass, s, n) == s[..n]
  {
    hide AuthMarker;
  }

  lemma FoldedJoin(a: string, b: string, c: string, d: string)
    requires SameFolded(a, b) && SameFolded(c, d)
    ensures SameFolded(a + c, b + d)
  {
  }

  lemma FoldedSelf(a: string)
    ensures SameFolded(a, a)
  {
  }

  /** One piece, written as the pass writes it, against the same piece spliced. */
  lemma PieceSplice(text: string, p: Piece, at: nat, rest: seq<Span>, word: string)
    requires at < |text| && IsPieceOf(p, text[at..])
    requires AreSpans(text, rest, at + p.len) && AreSpans(text, Hit(p, at) + rest, at)
    ensures var s := text[at..];
      Splice(text, Hit(p, at) + rest, word, at)
      == s[..p.from] + ((if p.hit then word else "") + s[p.to..p.len]) + Splice(text, rest, word, at + p.len)
  {
    hide IsPieceOf, Splice, AreSpans;
    PieceBounds(p, text[at..]);
    PieceSlices(text, p, at);
    if p.hit {
      HitSplice(text, p, at, rest, word);
    } else {
      assert [] + rest == rest;
      SpliceFrom(text, rest, word, at, at + p.len);
      var s := text[at..];
      assert "" + s[p.to..p.len] == s[p.to..p.len];
    }
  }

  lemma PieceSlices(text: string, p: Piece, at: nat)
    requires at <= |text| && p.from <= p.to <= p.len <= |text| - at
    ensures text[at..][..p.from] == text[at..at + p.from]
    ensures text[at..][p.to..p.len] == text[at + p.to..at + p.len]
    ensures p.from == p.to ==> text[at..at + p.len] == text[at..at + p.from] + text[at + p.to..at + p.len]
  {
  }

  lemma HitSplice(text: string, p: Piece, at: nat, rest: seq<Span>, word: string)
    requires at < |text| && 1 <= p.from <= p.to <= p.len <= |text| - at
    requires AreSpans(text, rest, at + p.len)
    ensures var all := [Span(at + p.from, at + p.to)] + rest;
      && AreSpans(text, all, at)
      && Splice(text, all, word, at)
         == text[at..at + p.from] + (word + text[at + p.to..at + p.len]) + Splice(text, rest, word, at + p.len)
  {
    hide Splice, AreSpans;
    var first := Span(at + p.from, at + p.to);
    var all := [first] + rest;
    assert all[1..] == rest && all[0] == first && all != [];
    EarlierSpans(text, rest, at + p.to, at + p.len);
    SpansFrom(text, all, at);
    SpliceHead(text, all, word, at);
    SpliceFrom(text, rest, word, at + p.to, at + p.len);
    Joined(text[at..at + p.from], word, text[at + p.to..at + p.len], Splice(text, rest, word, at + p.len));
  }

  lemma SpansFrom(text: string, spans: seq<Span>, at: nat)
    requires spans != [] && at < spans[0].from <= spans[0].to <= |text| && AreSpans(text, spans[1..], spans[0].to)
    ensures AreSpans(text, spans, at)
  {
  }

  lemma Joined(a: string, b: string, c: string, d: string)
    ensures a + (b + (c + d)) == a + (b + c) + d
  {
  }

  lemma MaskStep(pass: Pass, before: bool, text: string, at: nat, p: Piece, next: bool, word: string)
    requires at < |text| && p == Step(pass, before, text[at..]) && IsPieceOf(p, text[at..])
    requires 0 < p.len <= |text| - at && next == IsBoundary(text[at + p.len - 1])
    ensures Mask(pass, before, text[at..], word)
         == Emit(pass, p, text[at..], word) + Mask(pass, next, text[at + p.len..], word)
  {
    hide Step, IsPieceOf, IsBoundary, Emit;
    var s := text[at..];
    assert s[p.len..] == text[at + p.len..] && s[p.len - 1] == text[at + p.len - 1];
  }

  /** The output is the input with its spans overwritten; `Auth` also respells its marker. */
  lemma {:induction false} MaskSplices(pass: Pass, before: bool, text: string, at: nat, word: string)
    requires at <= |text|
    ensures AreSpans(text, Spans(pass, before, text, at), at)
    ensures var spliced := Splice(text, Spans(pass, before, text, at), word, at);
      && SameFolded(Mask(pass, before, text[at..], word), spliced)
      && (pass != Auth ==> Mask(pass, before, text[at..], word) == spliced)
    decreases |text| - at
  {
    hide *;
    if at < |text| {
      SpansAreSpans(pass, before, text, at);
      var p, next := SpansStep(pass, before, text, at);
      MaskSplices(pass, next, text, at + p.len, word);
      MaskStep(pass, before, text, at, p, next, word);
      var rest := Spans(pass, next, text, at + p.len);
      PieceSplice(text, p, at, rest, word);
      LeadOfPiece(pass, text[at..], p);
      EmitFolded(pass, p, text[at..], word, Mask(pass, next, text[at + p.len..], word),
                 Splice(text, rest, word, at + p.len));
    } else {
      EndSplice(pass, before, text, word);
    }
  }

  lemma LeadOfPiece(pass: Pass, s: string, p: Piece)
    requires IsPieceOf(p, s)
    ensures p.from <= |s| && SameFolded(Lead(pass, s, p.from), s[..p.from])
    ensures pass != Auth ==> Lead(pass, s, p.from) == s[..p.from]
  {
    LeadFolded(pass, s, p.from);
  }

  lemma EndSplice(pass: Pass, before: bool, text: string, word: string)
    ensures Spans(pass, before, text, |text|) == [] && AreSpans(text, [], |text|)
    ensures Splice(text, [], word, |text|) == Mask(pass, before, text[|text|..], word) == ""
    ensures SameFolded("", "")
  {
    hide Step;
  }

  lemma EmitFolded(pass: Pass, p: Piece, s: string, word: string, masked: string, spliced: string)
    requires IsPieceOf(p, s)
    requires SameFolded(Lead(pass, s, p.from), s[..p.from]) && (pass != Auth ==> Lead(pass, s, p.from) == s[..p.from])
    requires SameFolded(masked, spliced) && (pass != Auth ==> masked == spliced)
    ensures var spelled := s[..p.from] + ((if p.hit then word else "") + s[p.to..p.len]) + spliced;
      && SameFolded(Emit(pass, p, s, word) + masked, spelled)
      && (pass != Auth ==> Emit(pass, p, s, word) + masked == spelled)
  {
    hide Lead, SameFolded;
    var lead := Lead(pass, s, p.from);
    var behind := (if p.hit then word else "") + s[p.to..p.len];
    assert Emit(pass, p, s, word) == lead + behind;
    FoldedSelf(behind);
    FoldedJoin(lead, s[..p.from], behind, behind);
    FoldedJoin(lead + behind, s[..p.from] + behind, masked, spliced);
  }

  /** The same for a whole pass. */
  lemma RedactSplices(pass: Pass, text: string)
    ensures var spans := Spans(pass, true, text, 0);
      && AreSpans(text, spans, 0) && AreDelimited(text, spans)
      && SameFolded(Redact(pass, text), Splice(text, spans, REDACTED, 0))
      && (pass != Auth ==> Redact(pass, text) == Splice(text, spans, REDACTED, 0))
  {
    hide Mask, Spans, Splice, AreSpans, AreDelimited, SameFolded, REDACTED;
    SpansAreSpans(pass, true, text, 0);
    MaskSplices(pass, true, text, 0, REDACTED);
    assert text[0..] == text;
  }
}

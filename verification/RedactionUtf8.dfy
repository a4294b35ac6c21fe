/** Every pass keeps its text well-formed UTF-8, so its fallback to the raw text is dead. */
module RedactionUtf8 {
  import opened Scan
  import opened Redaction
  import Utf8

  /** Bytes outside ASCII are copied one by one, and a key may begin after them. */
  lemma {:induction false} NonAsciiCopied(pass: Pass, before: bool, s: string, n: nat, word: string)
    requires 0 < n <= |s| && forall i | 0 <= i < n :: !Utf8.IsAscii(s[i])
    ensures Mask(pass, before, s, word) == s[..n] + Mask(pass, true, s[n..], word)
    decreases n
  {
    hide Step, Mask;
    StepIsPiece(pass, before, s);
    PlainMask(pass, before, s, word);
    assert IsBoundary(s[0]);
    if n > 1 {
      var t := s[1..];
      NonAsciiCopied(pass, true, t, n - 1, word);
      assert t[n - 1..] == s[n..];
      assert s[..n] == s[..1] + t[..n - 1];
    }
  }

  lemma LeadValid(pass: Pass, s: string, n: nat)
    requires Utf8.Valid(s) && Utf8.IsCut(s, n) && n <= |s|
    ensures Utf8.Valid(Lead(pass, s, n))
  {
    hide AuthMarker;
    AuthMarkerShape(s);
    Utf8.CutValid(s, n);
    Utf8.AsciiValid(AuthMarker(s));
  }

  lemma EmitValid(pass: Pass, p: Piece, s: string, word: string)
    requires IsPieceOf(p, s) && IsCleanPiece(p, s) && Utf8.Valid(s) && Utf8.Valid(word)
    ensures Utf8.Valid(Emit(pass, p, s, word))
  {
    hide Lead, Utf8.Valid, Utf8.IsCut, Utf8.IsAscii;
    LeadValid(pass, s, p.from);
    Utf8.SliceValid(s, p.to, p.len);
    assert Utf8.Valid("") by { Utf8.AsciiValid(""); }
    Utf8.ConcatValid(Lead(pass, s, p.from), if p.hit then word else "");
    Utf8.ConcatValid(Lead(pass, s, p.from) + (if p.hit then word else ""), s[p.to..p.len]);
  }

  lemma {:induction false} MaskValid(pass: Pass, before: bool, s: string, word: string)
    requires Utf8.Valid(s) && Utf8.Valid(word)
    ensures Utf8.Valid(Mask(pass, before, s, word))
    decreases |s|
  {
    hide Step, Emit, IsPieceOf, IsCleanPiece;
    if s == [] {
    } else if Utf8.IsAscii(s[0]) {
      StepIsPiece(pass, before, s);
      var p := Step(pass, before, s);
      assert 0 < p.len <= |s| && Utf8.IsCut(s, p.len) by { EndsAtCut(p, s); }
      Utf8.CutValid(s, p.len);
      EmitValid(pass, p, s, word);
      MaskValid(pass, IsBoundary(s[p.len - 1]), s[p.len..], word);
      Utf8.ConcatValid(Emit(pass, p, s, word),
                       Mask(pass, IsBoundary(s[p.len - 1]), s[p.len..], word));
    } else {
      var n := Utf8.CharLen(s);
      NonAsciiCopied(pass, before, s, n, word);
      MaskValid(pass, true, s[n..], word);
      Utf8.PrependChar(s, Mask(pass, true, s[n..], word));
    }
  }

  lemma EndsAtCut(p: Piece, s: string)
    requires IsPieceOf(p, s) && IsCleanPiece(p, s)
    ensures 0 < p.len <= |s| && Utf8.IsCut(s, p.len)
  {
  }

  /** A redacted text is well-formed whenever the text was. */
  lemma RedactValid(pass: Pass, s: string)
    requires Utf8.Valid(s)
    ensures Utf8.Valid(Redact(pass, s))
  {
    Utf8.AsciiValid(REDACTED);
    MaskValid(pass, true, s, REDACTED);
  }
}

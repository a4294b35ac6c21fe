/** A pass brings no marker of another pass into a text that has none. */
module RedactionFree {
  import opened Scan
  import opened Redaction
  import opened RedactionSpans
  import Stable = RedactionStable

  predicate IsFreeOf(s: string, needle: string) {
    forall j | 0 <= j <= |s| :: !StartsWith(s[j..], needle)
  }

  /** A needle that `<redacted>` neither begins nor stands in the middle of. */
  predicate IsForeign(needle: string) {
    && needle != "" && '<' !in needle
    && forall i | 0 <= i < |REDACTED| :: Lower(REDACTED[i]) != Lower(needle[0])
  }

  /** Text alike but for letter case, continued by text that shows no more of the needle than `rest` does. */
  lemma StartThrough(shown: string, x: string, y: string, rest: string, needle: string)
    requires SameFolded(shown, x)
    requires |x| <= |needle| ==> (StartsWith(y, needle[|x|..]) ==> StartsWith(rest, needle[|x|..]))
    ensures StartsWith(shown + y, needle) ==> StartsWith(x + rest, needle)
  {
    if StartsWith(shown + y, needle) {
      var s, t := shown + y, x + rest;
      if |x| <= |needle| {
        var tail := needle[|x|..];
        forall i | 0 <= i < |tail| ensures Lower(y[i]) == Lower(tail[i]) {
          assert s[|x| + i] == y[i] && needle[|x| + i] == tail[i];
        }
      }
      forall i | 0 <= i < |needle| ensures Lower(t[i]) == Lower(needle[i]) {
        assert Lower(s[i]) == Lower(needle[i]);
        if i < |x| {
          assert s[i] == shown[i] && t[i] == x[i];
        } else {
          assert t[i] == rest[i - |x|] && needle[i] == needle[|x|..][i - |x|];
        }
      }
    }
  }

  /** A secret ends what a needle can match. */
  lemma StopsAtSecret(shown: string, x: string, y: string, rest: string, needle: string)
    requires SameFolded(shown, x) && '<' !in needle && y != "" && y[0] == '<'
    ensures StartsWith(shown + y, needle) ==> StartsWith(x + rest, needle)
  {
    var s, t := shown + y, x + rest;
    assert s[|x|] == '<';
    if StartsWith(s, needle) {
      assert |needle| <= |x|;
      forall i | 0 <= i < |needle| ensures Lower(t[i]) == Lower(needle[i]) {
        assert s[i] == shown[i] && t[i] == x[i];
      }
    }
  }

  lemma HiddenHead()
    ensures REDACTED != "" && REDACTED[0] == '<'
  {
  }

  /** One piece and the rest, as the pass shows them. */
  lemma PieceText(pass: Pass, before: bool, s: string) returns (p: Piece, lead: string, y: string)
    requires s != ""
    ensures p == Step(pass, before, s) && IsPieceOf(p, s) && 1 <= p.from <= p.to <= p.len <= |s|
    ensures !p.hit ==> p.from == p.to
    ensures SameFolded(lead, s[..p.from])
    ensures y == Mask(pass, IsBoundary(s[p.len - 1]), s[p.len..], REDACTED)
    ensures Mask(pass, before, s, REDACTED) == lead + ((if p.hit then REDACTED else "") + (s[p.to..p.len] + y))
  {
    hide Step, REDACTED, IsBoundary, Lead, SameFolded, IsPieceOf, Mask, Emit, Stable.Overwritten;
    Stable.MaskText(pass, before, s, REDACTED);
    p := Step(pass, before, s);
    PieceBounds(p, s);
    lead := Lead(pass, s, p.from);
    LeadFolded(pass, s, p.from);
    y := Mask(pass, IsBoundary(s[p.len - 1]), s[p.len..], REDACTED);
    EmitParts(pass, p, s);
    Regroup(lead, if p.hit then REDACTED else "", s[p.to..p.len], y);
  }

  lemma EmitParts(pass: Pass, p: Piece, s: string)
    requires IsPieceOf(p, s)
    ensures Emit(pass, p, s, REDACTED) == Lead(pass, s, p.from) + (if p.hit then REDACTED else "") + s[p.to..p.len]
  {
    hide Lead, REDACTED;
  }

  lemma Regroup(a: string, b: string, c: string, d: string)
    ensures a + b + c + d == a + (b + (c + d))
  {
  }

  lemma FoldedFrom(a: string, b: string, j: nat)
    requires SameFolded(a, b) && j <= |a|
    ensures SameFolded(a[j..], b[j..])
  {
  }

  lemma ExactFolded(a: string)
    ensures SameFolded(a, a)
  {
  }

  /** From any place of the bytes in front of a secret on, the pass shows the needle only where it was. */
  lemma {:induction false} LeadStart(pass: Pass, before: bool, s: string, j: nat, needle: string)
    requires s != "" && '<' !in needle && j <= Step(pass, before, s).from
    ensures j <= |Mask(pass, before, s, REDACTED)| && j <= |s|
    ensures StartsWith(Mask(pass, before, s, REDACTED)[j..], needle) ==> StartsWith(s[j..], needle)
    decreases |s|, 1
  {
    hide Step, Mask, StartsWith, SameFolded, REDACTED, IsPieceOf, IsBoundary;
    var p, lead, y := PieceText(pass, before, s);
    FoldedLength(lead, s[..p.from]);
    FoldedFrom(lead, s[..p.from], j);
    var x := s[..p.from][j..];
    var z := (if p.hit then REDACTED else "") + (s[p.to..p.len] + y);
    assert Mask(pass, before, s, REDACTED)[j..] == lead[j..] + z;
    assert s[j..] == x + s[p.from..];
    if p.hit {
      HiddenHead();
      StopsAtSecret(lead[j..], x, z, s[p.from..], needle);
    } else {
      assert z == s[p.to..p.len] + y;
      if |x| <= |needle| {
        CopyStart(pass, before, s, p.to, needle[|x|..], y);
      }
      StartThrough(lead[j..], x, z, s[p.from..], needle);
    }
  }

  lemma FoldedLength(a: string, b: string)
    requires SameFolded(a, b)
    ensures |a| == |b|
  {
  }

  /** The same from any place of the bytes behind a secret. */
  lemma {:induction false} CopyStart(pass: Pass, before: bool, s: string, at: nat, needle: string, y: string)
    requires s != "" && '<' !in needle
    requires var p := Step(pass, before, s);
      IsPieceOf(p, s) && p.to <= at <= p.len <= |s| && 0 < p.len && y == Mask(pass, IsBoundary(s[p.len - 1]), s[p.len..], REDACTED)
    ensures var p := Step(pass, before, s);
      StartsWith(s[at..p.len] + y, needle) ==> StartsWith(s[at..], needle)
    decreases |s|, 0
  {
    hide Step, Mask, StartsWith, SameFolded, REDACTED, IsPieceOf, IsBoundary;
    var p := Step(pass, before, s);
    var x := s[at..p.len];
    var rest := s[p.len..];
    ExactFolded(x);
    if |x| <= |needle| {
      RestStart(pass, IsBoundary(s[p.len - 1]), rest, needle[|x|..]);
    }
    StartThrough(x, x, y, rest, needle);
    assert s[at..] == x + rest;
  }

  lemma {:induction false} RestStart(pass: Pass, before: bool, rest: string, needle: string)
    requires '<' !in needle
    ensures StartsWith(Mask(pass, before, rest, REDACTED), needle) ==> StartsWith(rest, needle)
    decreases |rest|, 2
  {
    hide Step, Mask, StartsWith, REDACTED;
    if rest == "" {
      Stable.EmptyMask(pass, before, REDACTED);
    } else {
      LeadStart(pass, before, rest, 0, needle);
      assert Mask(pass, before, rest, REDACTED)[0..] == Mask(pass, before, rest, REDACTED) && rest[0..] == rest;
    }
  }

  /** No pass brings such a needle into a text free of it. */
  lemma {:induction false} FreeKept(pass: Pass, before: bool, s: string, needle: string)
    requires IsForeign(needle) && IsFreeOf(s, needle)
    ensures IsFreeOf(Mask(pass, before, s, REDACTED), needle)
    decreases |s|
  {
    hide Step, Mask, StartsWith, SameFolded, REDACTED, IsPieceOf, IsBoundary;
    if s == "" {
      Stable.EmptyMask(pass, before, REDACTED);
    } else {
      var p, lead, y := PieceText(pass, before, s);
      FoldedLength(lead, s[..p.from]);
      FreeTail(s, needle, p.len);
      FreeKept(pass, IsBoundary(s[p.len - 1]), s[p.len..], needle);
      var t := Mask(pass, before, s, REDACTED);
      forall j | 0 <= j <= |t|
        ensures !StartsWith(t[j..], needle)
      {
        FreeAt(pass, before, s, needle, j, p, lead, y);
      }
    }
  }

  lemma FreeTail(s: string, needle: string, n: nat)
    requires IsFreeOf(s, needle) && n <= |s|
    ensures IsFreeOf(s[n..], needle)
  {
    hide StartsWith;
    forall j | 0 <= j <= |s[n..]|
      ensures !StartsWith(s[n..][j..], needle)
    {
      assert s[n..][j..] == s[n + j..];
    }
  }

  lemma FreeAt(pass: Pass, before: bool, s: string, needle: string, j: nat, p: Piece, lead: string, y: string)
    requires IsForeign(needle) && IsFreeOf(s, needle) && s != "" && p == Step(pass, before, s) && IsPieceOf(p, s)
    requires 1 <= p.from <= p.to <= p.len <= |s| && |lead| == p.from && (!p.hit ==> p.from == p.to)
    requires y == Mask(pass, IsBoundary(s[p.len - 1]), s[p.len..], REDACTED) && IsFreeOf(y, needle)
    requires Mask(pass, before, s, REDACTED) == lead + ((if p.hit then REDACTED else "") + (s[p.to..p.len] + y))
    requires j <= |Mask(pass, before, s, REDACTED)|
    ensures !StartsWith(Mask(pass, before, s, REDACTED)[j..], needle)
  {
    hide Step, Mask, StartsWith, REDACTED, IsPieceOf, IsBoundary;
    var t := Mask(pass, before, s, REDACTED);
    var shown := if p.hit then REDACTED else "";
    var n := p.from + |shown|;
    if j < p.from {
      LeadStart(pass, before, s, j, needle);
    } else if j < n {
      assert t[j..] == shown[j - p.from..] + (s[p.to..p.len] + y);
      HiddenIsNot(shown, j - p.from, s[p.to..p.len] + y, needle);
    } else if j < n + (p.len - p.to) {
      var at := p.to + (j - n);
      assert t[j..] == s[at..p.len] + y;
      CopyStart(pass, before, s, at, needle, y);
    } else {
      assert t[j..] == y[j - n - (p.len - p.to)..];
    }
  }

  lemma HiddenIsNot(shown: string, i: nat, z: string, needle: string)
    requires IsForeign(needle) && shown == REDACTED && i < |shown|
    ensures !StartsWith(shown[i..] + z, needle)
  {
    hide REDACTED;
    assert (shown[i..] + z)[0] == REDACTED[i];
  }
}

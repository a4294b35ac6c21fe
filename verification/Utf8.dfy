/**
  Well-formed UTF-8, as section 4 of RFC 3629 gives it. A byte is written as the
  character with that code, so that markers and delimiters read as they do in the source.
 */
module Utf8 {

  predicate IsAscii(c: char) {
    c as int < 0x80
  }

  predicate InRange(c: char, low: int, high: int) {
    low <= c as int <= high
  }

  predicate IsTail(c: char) {
    InRange(c, 0x80, 0xBF)
  }

  /** Length of the encoded character that `s` begins with; 0 when there is none. */
  function CharLen(s: string): (n: nat)
    ensures n <= |s| && n <= 4
    ensures n > 0 && !IsAscii(s[0]) ==> forall i | 0 <= i < n :: !IsAscii(s[i])
  {
    if |s| >= 1 && IsAscii(s[0]) then 1
    else if |s| >= 2 && InRange(s[0], 0xC2, 0xDF) && IsTail(s[1]) then 2
    else if |s| >= 3 && Second3(s[0], s[1]) && IsTail(s[2]) then 3
    else if |s| >= 4 && Second4(s[0], s[1]) && IsTail(s[2]) && IsTail(s[3]) then 4
    else 0
  }

  predicate Second3(a: char, b: char) {
    || (a as int == 0xE0 && InRange(b, 0xA0, 0xBF))
    || (InRange(a, 0xE1, 0xEC) && IsTail(b))
    || (a as int == 0xED && InRange(b, 0x80, 0x9F))
    || (InRange(a, 0xEE, 0xEF) && IsTail(b))
  }

  predicate Second4(a: char, b: char) {
    || (a as int == 0xF0 && InRange(b, 0x90, 0xBF))
    || (InRange(a, 0xF1, 0xF3) && IsTail(b))
    || (a as int == 0xF4 && InRange(b, 0x80, 0x8F))
  }

  predicate Valid(s: string) {
    s == [] || (CharLen(s) > 0 && Valid(s[CharLen(s)..]))
  }

  /** A place where a valid text may be cut: at either end, or beside an ASCII byte. */
  predicate IsCut(s: string, i: nat) {
    i == 0 || i == |s| || (i < |s| && (IsAscii(s[i]) || IsAscii(s[i - 1])))
  }

  lemma {:induction false} ConcatValid(a: string, b: string)
    requires Valid(a) && Valid(b)
    ensures Valid(a + b)
    decreases |a|
  {
    hide CharLen;
    if a == [] {
      assert a + b == b;
    } else {
      var n := CharLen(a);
      ConcatValid(a[n..], b);
      PrependChar(a, a[n..] + b);
      assert a + b == a[..n] + (a[n..] + b);
    }
  }

  /** No cut falls inside an encoded character. */
  lemma CutAfterChar(s: string, i: nat)
    requires s != [] && CharLen(s) > 0 && 0 < i < |s| && IsCut(s, i)
    ensures CharLen(s) <= i && IsCut(s[CharLen(s)..], i - CharLen(s))
  {
    var n := CharLen(s);
    if i >= n {
      var t := s[n..];
      assert i > n ==> t[i - n] == s[i] && t[i - n - 1] == s[i - 1];
    }
  }

  /** Putting an encoded character in front of a valid text keeps it valid. */
  lemma PrependChar(s: string, t: string)
    requires CharLen(s) > 0 && Valid(t)
    ensures Valid(s[..CharLen(s)] + t)
  {
    var n := CharLen(s);
    var u := s[..n] + t;
    assert CharLen(u) == n;
    assert u[n..] == t;
  }

  /** Cutting a valid text beside an ASCII byte leaves two valid texts. */
  lemma {:induction false} CutValid(s: string, i: nat)
    requires Valid(s) && IsCut(s, i)
    ensures i <= |s| && Valid(s[..i]) && Valid(s[i..])
    decreases |s|
  {
    hide CharLen;
    if i == 0 || i == |s| {
      assert s[..|s|] == s && s[0..] == s;
    } else {
      CutAfterChar(s, i);
      var n := CharLen(s);
      var t := s[n..];
      CutValid(t, i - n);
      PrependChar(s, t[..i - n]);
      assert s[..i] == s[..n] + t[..i - n];
      assert s[i..] == t[i - n..];
    }
  }

  /** The piece between two cuts of a valid text is valid. */
  lemma SliceValid(s: string, i: nat, j: nat)
    requires Valid(s) && i <= j <= |s| && IsCut(s, i) && IsCut(s, j)
    ensures Valid(s[i..j])
  {
    CutValid(s, j);
    var t := s[..j];
    assert IsCut(t, i);
    CutValid(t, i);
    assert t[i..] == s[i..j];
  }

  lemma {:induction false} AsciiValid(s: string)
    requires forall i | 0 <= i < |s| :: IsAscii(s[i])
    ensures Valid(s)
  {
    if s != [] {
      AsciiValid(s[1..]);
    }
  }
}

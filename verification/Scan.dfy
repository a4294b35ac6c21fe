/** The byte scanners that the redaction passes share. */
module Scan {

  function Lower(c: char): char {
    if 'A' <= c <= 'Z' then (c as int + 32) as char else c
  }

  predicate IsAlphanumeric(c: char) {
    'a' <= c <= 'z' || 'A' <= c <= 'Z' || '0' <= c <= '9'
  }

  predicate IsBoundary(c: char) {
    !IsAlphanumeric(c) && c != '_' && c != '-'
  }

  /** True when `s` begins with `needle`, ASCII case ignored. */
  predicate StartsWith(s: string, needle: string) {
    |needle| <= |s| && forall i | 0 <= i < |needle| :: Lower(s[i]) == Lower(needle[i])
  }

  /** Index of the first byte of `s` that is among `delimiters`, or the length of `s`. */
  function ScanLen(s: string, delimiters: string): (n: nat)
    ensures n <= |s|
    ensures forall i | 0 <= i < n :: s[i] !in delimiters
    ensures n < |s| ==> s[n] in delimiters
  {
    if s == [] || s[0] in delimiters then 0 else 1 + ScanLen(s[1..], delimiters)
  }

  function SpaceLen(s: string): (n: nat)
    ensures n <= |s|
    ensures forall i | 0 <= i < n :: s[i] == ' ' || s[i] == '\t'
    ensures n < |s| ==> s[n] != ' ' && s[n] != '\t'
  {
    if s == [] || !(s[0] == ' ' || s[0] == '\t') then 0 else 1 + SpaceLen(s[1..])
  }

  predicate QuoteAt(s: string, i: nat) {
    i < |s| && (s[i] == '"' || s[i] == '\'')
  }

  /** What the three postconditions of `ScanLen` say, they say of one number only. */
  lemma ScanLenUnique(s: string, delimiters: string, n: nat)
    requires n <= |s|
    requires forall i | 0 <= i < n :: s[i] !in delimiters
    requires n < |s| ==> s[n] in delimiters
    ensures ScanLen(s, delimiters) == n
  {
    var m := ScanLen(s, delimiters);
    assert m <= n && n <= m by {
      assert m < |s| ==> s[m] in delimiters;
      assert n < |s| ==> s[n] in delimiters;
    }
  }

  lemma SpaceLenUnique(s: string, n: nat)
    requires n <= |s|
    requires forall i | 0 <= i < n :: s[i] == ' ' || s[i] == '\t'
    requires n < |s| ==> s[n] != ' ' && s[n] != '\t'
    ensures SpaceLen(s) == n
  {
    var m := SpaceLen(s);
    assert m <= n && n <= m by {
      assert m < |s| ==> s[m] != ' ' && s[m] != '\t';
      assert n < |s| ==> s[n] != ' ' && s[n] != '\t';
    }
  }

  /** Scanning from `index` in place finds what `ScanLen` finds in the suffix. */
  method ScanUntilAny(bytes: string, start: nat, delimiters: string) returns (index: nat)
    requires start <= |bytes|
    ensures index == start + ScanLen(bytes[start..], delimiters)
  {
    index := start;
    while index < |bytes| && bytes[index] !in delimiters
      invariant start <= index <= |bytes|
      invariant forall i | start <= i < index :: bytes[i] !in delimiters
    {
      index := index + 1;
    }
    ScanLenUnique(bytes[start..], delimiters, index - start);
  }

  method SkipAsciiSpaces(bytes: string, start: nat) returns (index: nat)
    requires start <= |bytes|
    ensures index == start + SpaceLen(bytes[start..])
  {
    index := start;
    while index < |bytes| && (bytes[index] == ' ' || bytes[index] == '\t')
      invariant start <= index <= |bytes|
      invariant forall i | start <= i < index :: bytes[i] == ' ' || bytes[i] == '\t'
    {
      index := index + 1;
    }
    SpaceLenUnique(bytes[start..], index - start);
  }
}

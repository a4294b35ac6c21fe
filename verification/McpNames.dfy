/** Names for the tools of a connector: sanitised, told apart by a number, and sorted. */
module McpNames {
  import opened Text
  import T = Transcripts

  function Sanitized(value: string): string {
    seq(|value|, i requires 0 <= i < |value| => Kept(value[i]))
  }

  function Kept(c: char): char {
    if 'a' <= c <= 'z' || '0' <= c <= '9' || c == '_' || c == '-' then c
    else if 'A' <= c <= 'Z' then (c as int + 32) as char
    else '-'
  }

  function TrimDashes(s: string): string {
    if s != "" && s[0] == '-' then TrimDashes(s[1..])
    else if s != "" && s[|s| - 1] == '-' then TrimDashes(s[..|s| - 1])
    else s
  }

  function Segment(value: string): string {
    var trimmed := TrimDashes(Sanitized(value));
    if trimmed == "" then "tool" else trimmed
  }

  predicate IsNameChar(c: char) {
    'a' <= c <= 'z' || '0' <= c <= '9' || c == '_' || c == '-'
  }

  lemma {:induction false} TrimmedShape(s: string)
    requires forall i | 0 <= i < |s| :: IsNameChar(s[i])
    ensures var t := TrimDashes(s);
      && (forall i | 0 <= i < |t| :: IsNameChar(t[i])) && (t != "" ==> t[0] != '-' && t[|t| - 1] != '-')
    decreases |s|
  {
    if s != "" && s[0] == '-' {
      TrimmedShape(s[1..]);
    } else if s != "" && s[|s| - 1] == '-' {
      TrimmedShape(s[..|s| - 1]);
    }
  }

  /** A segment is never empty, holds only characters a tool name may have, and no dash at either end. */
  lemma SegmentShape(value: string)
    ensures var s := Segment(value);
      && s != "" && (forall i | 0 <= i < |s| :: IsNameChar(s[i])) && s[0] != '-' && s[|s| - 1] != '-'
  {
    TrimmedShape(Sanitized(value));
    assert forall i | 0 <= i < 4 :: IsNameChar("tool"[i]);
  }

  /** A letter, a digit or an underscore: what a name keeps wherever it stands. */
  predicate IsWordChar(c: char) {
    'a' <= c <= 'z' || 'A' <= c <= 'Z' || '0' <= c <= '9' || c == '_'
  }

  /** What a character is written as: a capital as its small letter, another word character as itself, the rest as a dash. */
  predicate IsWrittenFor(shown: char, c: char) {
    if !IsWordChar(c) then shown == '-'
    else if 'A' <= c <= 'Z' then 'a' <= shown <= 'z' && shown as int - 'a' as int == c as int - 'A' as int
    else shown == c
  }

  lemma {:induction false} TrimmedIs(s: string) returns (a: nat, b: nat)
    ensures a <= b <= |s| && TrimDashes(s) == s[a..b]
    ensures forall i | 0 <= i < a || b <= i < |s| :: s[i] == '-'
    decreases |s|
  {
    if s != "" && s[0] == '-' {
      a, b := TrimmedIs(s[1..]);
      a, b := a + 1, b + 1;
      assert s[1..][a - 1..b - 1] == s[a..b];
      assert forall i | 0 < i < a || b <= i < |s| :: s[i] == s[1..][i - 1];
    } else if s != "" && s[|s| - 1] == '-' {
      a, b := TrimmedIs(s[..|s| - 1]);
    } else {
      a, b := 0, |s|;
    }
  }

  /** The segment is the name from its first word character to its last, written for a tool; it is `tool` when there is none. */
  lemma SegmentLetters(value: string) returns (a: nat, b: nat)
    ensures a <= b <= |value| && forall i | 0 <= i < a || b <= i < |value| :: !IsWordChar(value[i])
    ensures a == b ==> Segment(value) == "tool"
    ensures a < b ==> IsWordChar(value[a]) && IsWordChar(value[b - 1])
    ensures a < b ==> |Segment(value)| == b - a && forall i | a <= i < b :: IsWrittenFor(Segment(value)[i - a], value[i])
  {
    a, b := TrimmedIs(Sanitized(value));
    TrimmedShape(Sanitized(value));
    forall i | 0 <= i < |value|
      ensures IsWrittenFor(Sanitized(value)[i], value[i]) && (Sanitized(value)[i] == '-' <==> !IsWordChar(value[i]))
    {
    }
    assert forall i | 0 <= i < |value| && (i < a || b <= i) :: Sanitized(value)[i] == '-' && !IsWordChar(value[i]);
  }

  function Base(connector: string, tool: string): string {
    "mcp__" + Segment(connector) + "__" + Segment(tool)
  }

  function Count(bases: seq<string>, base: string): nat {
    if bases == [] then 0
    else Count(bases[..|bases| - 1], base) + if bases[|bases| - 1] == base then 1 else 0
  }

  function Numbered(base: string, before: nat): string {
    if before == 0 then base else base + "-" + Decimal(before + 1)
  }

  /** The name of the `i`th tool: its base, numbered when the base was used before. */
  function NameAt(bases: seq<string>, i: nat): string
    requires i < |bases|
  {
    Numbered(bases[i], Count(bases[..i], bases[i]))
  }

  /** How often a base was used, as the table of used names has it. */
  function UsesOf(used: map<string, nat>, base: string): nat {
    if base in used then used[base] else 0
  }

  /**
    One more use of a base. Its name differs from all the names the base was given before and
    will be given later, and falls back on the base for the first use alone.
   */
  method DisambiguateExposedName(base: string, used: map<string, nat>) returns (resolved: string, counted: map<string, nat>)
    ensures resolved == Numbered(base, UsesOf(used, base))
    ensures forall k: nat | k != UsesOf(used, base) :: resolved != Numbered(base, k)
    ensures resolved == base <==> UsesOf(used, base) == 0
    ensures forall b :: UsesOf(counted, b) == UsesOf(used, b) + if b == base then 1 else 0
  {
    var counter := if base in used then used[base] else 0;
    resolved := if counter == 0 then base else base + "-" + Decimal(counter + 1);
    counted := used[base := counter + 1];
    forall k: nat | k != counter
      ensures resolved != Numbered(base, k)
    {
      NumberedDiffers(base, counter, k);
    }
    NumberedZero(base);
  }

  method ExposedNames(bases: seq<string>) returns (names: seq<string>)
    ensures |names| == |bases| && forall i | 0 <= i < |bases| :: names[i] == NameAt(bases, i)
  {
    var used: map<string, nat> := map[];
    names := [];
    for i := 0 to |bases|
      invariant |names| == i && forall j | 0 <= j < i :: names[j] == NameAt(bases, j)
      invariant forall b :: Count(bases[..i], b) == UsesOf(used, b)
    {
      var name;
      name, used := DisambiguateExposedName(bases[i], used);
      names := names + [name];
      assert bases[..i + 1][..i] == bases[..i];
    }
  }

  /** Two tools get one name: a base that looks like another base with a number that other one reaches. */
  ghost predicate Collides(bases: seq<string>) {
    exists i: nat, base: string, k: nat {:trigger Numbered(base, k), bases[i]} ::
      i < |bases| && 1 <= k < Count(bases, base) && bases[i] == Numbered(base, k)
  }

  predicate AreDistinct(bases: seq<string>) {
    forall i, j | 0 <= i < j < |bases| :: NameAt(bases, i) != NameAt(bases, j)
  }

  lemma {:induction false} CountGrows(bases: seq<string>, base: string, i: nat)
    requires i <= |bases|
    ensures Count(bases[..i], base) <= Count(bases, base)
  {
    if i == |bases| {
      assert bases[..i] == bases;
    } else {
      CountGrows(bases[..|bases| - 1], base, i);
      assert bases[..|bases| - 1][..i] == bases[..i];
    }
  }

  lemma {:induction false} CountPrefix(bases: seq<string>, i: nat, j: nat)
    requires i < j < |bases| && bases[i] == bases[j]
    ensures Count(bases[..i], bases[i]) < Count(bases[..j], bases[j])
  {
    var upTo := bases[..i + 1];
    assert upTo[..i] == bases[..i] && upTo[i] == bases[i];
    assert bases[..j][..i + 1] == upTo;
    CountGrows(bases[..j], bases[j], i + 1);
  }

  /** Each number below a base's count is used by one of its tools. */
  lemma {:induction false} CountReached(bases: seq<string>, base: string, k: nat) returns (j: nat)
    requires k < Count(bases, base)
    ensures j < |bases| && bases[j] == base && Count(bases[..j], base) == k
  {
    var front := bases[..|bases| - 1];
    if k < Count(front, base) {
      j := CountReached(front, base, k);
      assert front[..j] == bases[..j];
    } else {
      j := |bases| - 1;
    }
  }

  lemma NoDash(n: nat)
    ensures '-' !in Decimal(n) && Decimal(n) != ""
  {
    hide Decimal;
    var s := Decimal(n);
    forall i | 0 <= i < |s|
      ensures s[i] != '-'
    {
      assert IsDigit(s[i]);
    }
  }

  lemma DashBetween(a: string, b: string)
    requires '-' !in b
    ensures var s := a + "-" + b;
      s[|a|] == '-' && forall k | |a| < k < |s| :: s[k] != '-'
    ensures (a + "-" + b)[..|a|] == a && (a + "-" + b)[|a| + 1..] == b
  {
  }

  /** What stands in front of the last dash, and behind it. */
  lemma LastDash(a: string, b: string, c: string, d: string)
    requires a + "-" + b == c + "-" + d && '-' !in b && '-' !in d
    ensures a == c && b == d
  {
    DashBetween(a, b);
    DashBetween(c, d);
  }

  lemma NumberedInjective(a: string, m: nat, b: string, n: nat)
    requires Numbered(a, m) == Numbered(b, n) && m > 0 && n > 0
    ensures a == b && m == n
  {
    hide Decimal;
    NoDash(m + 1);
    NoDash(n + 1);
    LastDash(a, Decimal(m + 1), b, Decimal(n + 1));
    DecimalInjective(m + 1, n + 1);
  }

  lemma NumberedDiffers(base: string, m: nat, n: nat)
    requires m != n
    ensures Numbered(base, m) != Numbered(base, n)
  {
    hide Decimal;
    if m > 0 && n > 0 && Numbered(base, m) == Numbered(base, n) {
      NumberedInjective(base, m, base, n);
    }
    assert m == 0 ==> |Numbered(base, n)| > |base|;
    assert n == 0 ==> |Numbered(base, m)| > |base|;
  }

  /** The exposed names are pairwise distinct exactly when no base looks like a numbered one that occurs. */
  lemma DistinctIff(bases: seq<string>)
    ensures AreDistinct(bases) <==> !Collides(bases)
  {
    hide Numbered, Count;
    if Collides(bases) {
      CollisionFound(bases);
    }
    if !AreDistinct(bases) {
      var i, j :| 0 <= i < j < |bases| && NameAt(bases, i) == NameAt(bases, j);
      SameName(bases, i, j);
    }
  }

  lemma CollisionFound(bases: seq<string>)
    requires Collides(bases)
    ensures !AreDistinct(bases)
  {
    hide Numbered, Count;
    var i: nat, base: string, k: nat :| i < |bases| && 1 <= k < Count(bases, base) && bases[i] == Numbered(base, k);
    var j := CountReached(bases, base, k);
    CountBelow(bases, i);
    var own := CountReached(bases, bases[i], 0);
    NumberedZero(bases[own]);
    assert NameAt(bases, own) == NameAt(bases, j) && own != j;
  }

  lemma NumberedZero(base: string)
    ensures Numbered(base, 0) == base
  {
  }

  lemma SameName(bases: seq<string>, i: nat, j: nat)
    requires i < j < |bases| && NameAt(bases, i) == NameAt(bases, j)
    ensures Collides(bases)
  {
    hide Numbered, Count;
    var m, n := Count(bases[..i], bases[i]), Count(bases[..j], bases[j]);
    CountBelow(bases, i);
    CountBelow(bases, j);
    NumberedZero(bases[i]);
    NumberedZero(bases[j]);
    if bases[i] == bases[j] {
      CountPrefix(bases, i, j);
      NumberedDiffers(bases[i], m, n);
    } else if m > 0 && n > 0 {
      NumberedInjective(bases[i], m, bases[j], n);
    }
  }

  lemma CountBelow(bases: seq<string>, i: nat)
    requires i < |bases|
    ensures Count(bases[..i], bases[i]) < Count(bases, bases[i])
  {
    var upTo := bases[..i + 1];
    assert upTo[..i] == bases[..i];
    CountGrows(bases, bases[i], i + 1);
  }

  // Sorting

  datatype Tool = Tool(exposed: string, remote: string)

  predicate IsSorted(tools: seq<Tool>) {
    forall i, j | 0 <= i < j < |tools| :: T.TextLe(tools[i].exposed, tools[j].exposed)
  }

  function Inserted(tools: seq<Tool>, tool: Tool): (r: seq<Tool>)
    ensures multiset(r) == multiset(tools) + multiset{tool}
  {
    if tools == [] then [tool]
    else if T.TextLe(tools[|tools| - 1].exposed, tool.exposed) then tools + [tool]
    else
      assert tools == tools[..|tools| - 1] + [tools[|tools| - 1]];
      Inserted(tools[..|tools| - 1], tool) + [tools[|tools| - 1]]
  }

  lemma {:induction false} InsertedSorted(tools: seq<Tool>, tool: Tool)
    requires IsSorted(tools)
    ensures IsSorted(Inserted(tools, tool))
  {
    if tools != [] {
      var last := tools[|tools| - 1];
      if T.TextLe(last.exposed, tool.exposed) {
        forall i | 0 <= i < |tools|
          ensures T.TextLe(tools[i].exposed, tool.exposed)
        {
          if i < |tools| - 1 {
            T.TextLeTransitive(tools[i].exposed, last.exposed, tool.exposed);
          }
        }
      } else {
        var rest := Inserted(tools[..|tools| - 1], tool);
        InsertedSorted(tools[..|tools| - 1], tool);
        T.TextLeTotal(last.exposed, tool.exposed);
        forall i | 0 <= i < |rest|
          ensures T.TextLe(rest[i].exposed, last.exposed)
        {
          assert rest[i] in multiset(rest);
          if rest[i] != tool {
            assert rest[i] in multiset(tools[..|tools| - 1]);
            var k :| 0 <= k < |tools| - 1 && tools[k] == rest[i];
          }
        }
      }
    }
  }

  /** The tools of one connector, under the names the program calls them by. */
  method BuildDiscoveredTools(connector: string, remote: seq<string>) returns (tools: seq<Tool>)
    ensures IsSorted(tools)
    ensures var bases := seq(|remote|, i requires 0 <= i < |remote| => Base(connector, remote[i]));
      multiset(tools) == multiset(seq(|remote|, i requires 0 <= i < |remote| => Tool(NameAt(bases, i), remote[i])))
  {
    hide Base, NameAt;
    var bases := seq(|remote|, i requires 0 <= i < |remote| => Base(connector, remote[i]));
    var names := ExposedNames(bases);
    ghost var all := seq(|remote|, i requires 0 <= i < |remote| => Tool(NameAt(bases, i), remote[i]));
    tools := [];
    for i := 0 to |remote|
      invariant IsSorted(tools) && multiset(tools) == multiset(all[..i])
    {
      InsertedSorted(tools, Tool(names[i], remote[i]));
      tools := Inserted(tools, Tool(names[i], remote[i]));
      assert all[..i + 1] == all[..i] + [all[i]];
    }
    assert all[..|remote|] == all;
  }
}

/** Two ways of making an identifier out of a name, and that they make the same one. */
module Slugs {
  import opened Text

  predicate IsWordChar(c: char) {
    'a' <= c <= 'z' || '0' <= c <= '9'
  }

  function Lower(c: char): char {
    if 'A' <= c <= 'Z' then (c as int + 32) as char else c
  }

  /** A letter or digit in lower case; a dash for anything else. */
  function Fold(c: char): (d: char)
    ensures IsWordChar(d) || d == '-'
  {
    if IsWordChar(Lower(c)) then Lower(c) else '-'
  }

  function Folded(s: string): (t: string)
    ensures |t| == |s|
  {
    seq(|s|, i requires 0 <= i < |s| => Fold(s[i]))
  }

  function NonEmpty(parts: seq<string>): seq<string> {
    if parts == [] then []
    else Kept(parts[0]) + NonEmpty(parts[1..])
  }

  function WordsOf(s: string): seq<string> {
    NonEmpty(Split(Folded(s), '-'))
  }

  predicate IsWord(w: string) {
    w != "" && forall i | 0 <= i < |w| :: IsWordChar(w[i])
  }

  predicate AreWords(words: seq<string>) {
    forall w | w in words :: IsWord(w)
  }

  /** The words of a name joined by dashes; `fallback` when it has none. */
  function Slug(name: string, fallback: string): string {
    var joined := Join(WordsOf(name), "-");
    if joined == "" then fallback else joined
  }

  /** Map, split, filter and join. */
  function SanitizeBrowserSessionSegment(value: string): string {
    Slug(value, "session")
  }

  // Words, character by character

  function Kept(p: string): seq<string> {
    if p == "" then [] else [p]
  }

  lemma {:induction false} NonEmptyConcat(a: seq<string>, b: seq<string>)
    ensures NonEmpty(a + b) == NonEmpty(a) + NonEmpty(b)
  {
    if a == [] {
      assert a + b == b;
    } else {
      hide Kept;
      NonEmptyConcat(a[1..], b);
      assert (a + b)[1..] == a[1..] + b && (a + b)[0] == a[0];
      assert Kept(a[0]) + (NonEmpty(a[1..]) + NonEmpty(b)) == Kept(a[0]) + NonEmpty(a[1..]) + NonEmpty(b);
    }
  }

  lemma {:induction false} NonEmptyWords(parts: seq<string>)
    requires forall p | p in parts :: forall i | 0 <= i < |p| :: IsWordChar(p[i])
    ensures AreWords(NonEmpty(parts))
  {
    if parts != [] {
      NonEmptyWords(parts[1..]);
    }
  }

  lemma {:induction false} SplitParts(s: string, c: char, ok: char -> bool)
    requires forall i | 0 <= i < |s| :: s[i] == c || ok(s[i])
    ensures forall p | p in Split(s, c) :: forall i | 0 <= i < |p| :: ok(p[i])
  {
    if s != "" {
      SplitParts(s[1..], c, ok);
    }
  }

  lemma WordsAreWords(s: string)
    ensures AreWords(WordsOf(s))
  {
    SplitParts(Folded(s), '-', IsWordChar);
    NonEmptyWords(Split(Folded(s), '-'));
  }

  /** One more character at the end of a text: a new part, or one more character of the last. */
  function Grown(parts: seq<string>, x: char, c: char): seq<string>
    requires parts != []
  {
    if x == c then parts + [""] else parts[..|parts| - 1] + [parts[|parts| - 1] + [x]]
  }

  /** One more character at the front of the first part. */
  function Fronted(h: char, parts: seq<string>): seq<string>
    requires parts != []
  {
    [[h] + parts[0]] + parts[1..]
  }

  lemma GrownFronted(h: char, parts: seq<string>, x: char, c: char)
    requires parts != []
    ensures Grown(parts, x, c) != [] && Grown(Fronted(h, parts), x, c) == Fronted(h, Grown(parts, x, c))
  {
    var a, b := Grown(Fronted(h, parts), x, c), Fronted(h, Grown(parts, x, c));
    if |parts| == 1 && x != c {
      assert [h] + (parts[0] + [x]) == [h] + parts[0] + [x];
    }
    assert |a| == |b|;
    forall i | 0 <= i < |a|
      ensures a[i] == b[i]
    {
    }
  }

  lemma GrownBehind(parts: seq<string>, x: char, c: char)
    requires parts != []
    ensures Grown([""] + parts, x, c) == [""] + Grown(parts, x, c)
  {
  }

  lemma SplitOne(x: char, c: char)
    ensures Split([x], c) == Grown(Split("", c), x, c)
  {
    assert [x][1..] == "" && [x] + "" == [x] && "" + [x] == [x];
    assert Split([x][1..], c) == [""];
  }

  lemma {:induction false} SplitSnoc(s: string, x: char, c: char)
    ensures Split(s + [x], c) == Grown(Split(s, c), x, c)
  {
    if s == "" {
      SplitOne(x, c);
      assert s + [x] == [x];
    } else {
      SplitSnoc(s[1..], x, c);
      assert (s + [x])[1..] == s[1..] + [x] && (s + [x])[0] == s[0];
      var rest := Split(s[1..], c);
      hide Grown;
      GrownFronted(s[0], rest, x, c);
      GrownBehind(rest, x, c);
    }
  }

  lemma {:induction false} SplitLast(s: string, c: char)
    ensures var parts := Split(s, c);
      parts[|parts| - 1] == "" <==> s == "" || s[|s| - 1] == c
  {
    if s != "" {
      var t, x := s[..|s| - 1], s[|s| - 1];
      assert s == t + [x];
      SplitSnoc(t, x, c);
    }
  }

  lemma NonEmptyGrown(parts: seq<string>, d: char)
    requires parts != []
    ensures var w := NonEmpty(parts);
      var last := parts[|parts| - 1];
      && (last != "" ==> w != [])
      && NonEmpty(Grown(parts, d, '-')) ==
           if d == '-' then w else if last != "" then w[..|w| - 1] + [w[|w| - 1] + [d]] else w + [[d]]
  {
    hide NonEmpty;
    var front, last := parts[..|parts| - 1], parts[|parts| - 1];
    assert parts == front + [last];
    NonEmptyConcat(front, [last]);
    NonEmptyOne(last);
    if d == '-' {
      NonEmptyConcat(parts, [""]);
      NonEmptyOne("");
    } else {
      NonEmptyConcat(front, [last + [d]]);
      NonEmptyOne(last + [d]);
      assert last == "" ==> last + [d] == [d];
    }
  }

  /** How the words grow: a letter continues the last word, or begins one behind something else. */
  lemma WordsSnoc(s: string, x: char)
    ensures var w := WordsOf(s);
      var d := Fold(x);
      WordsOf(s + [x]) ==
        if d == '-' then w
        else if s != "" && Fold(s[|s| - 1]) != '-' && w != [] then w[..|w| - 1] + [w[|w| - 1] + [d]]
        else w + [[d]]
    ensures s != "" && Fold(s[|s| - 1]) != '-' ==> WordsOf(s) != []
  {
    hide Fold, Split, Grown, NonEmpty;
    var t, d := Folded(s), Fold(x);
    assert Folded(s + [x]) == t + [d];
    SplitSnoc(t, d, '-');
    SplitLast(t, '-');
    NonEmptyGrown(Split(t, '-'), d);
  }

  lemma NonEmptyOne(p: string)
    ensures NonEmpty([p]) == if p == "" then [] else [p]
  {
    assert [p][1..] == [];
  }

  lemma {:induction false} JoinSnoc(words: seq<string>, w: string, separator: string)
    ensures Join(words + [w], separator) == if words == [] then w else Join(words, separator) + separator + w
  {
    if words != [] {
      JoinSnoc(words[1..], w, separator);
      assert (words + [w])[1..] == words[1..] + [w];
      assert (words + [w])[0] == words[0];
    }
  }

  lemma JoinExtend(words: seq<string>, d: char, separator: string)
    requires words != []
    ensures var last := words[|words| - 1];
      Join(words[..|words| - 1] + [last + [d]], separator) == Join(words, separator) + [d]
  {
    var front, last := words[..|words| - 1], words[|words| - 1];
    assert words == front + [last];
    JoinSnoc(front, last, separator);
    JoinSnoc(front, last + [d], separator);
  }

  // The loop

  /** What the loop has built from `s`: its words joined, and a dash for what surrounds them. */
  ghost function Built(s: string): string {
    var joined := Join(WordsOf(s), "-");
    if s == "" then ""
    else if WordsOf(s) == [] then "-"
    else Dash(s[0]) + joined + Dash(s[|s| - 1])
  }

  predicate EndsInDash(s: string) {
    s != "" && s[|s| - 1] == '-'
  }

  lemma {:induction false} JoinedWords(words: seq<string>)
    requires AreWords(words) && words != []
    ensures var j := Join(words, "-");
      j != "" && IsWordChar(j[0]) && IsWordChar(j[|j| - 1])
  {
    assert words[0] in words;
    if |words| > 1 {
      assert forall w | w in words[1..] :: w in words;
      JoinedWords(words[1..]);
    }
  }

  lemma BuiltEnds(s: string)
    ensures EndsInDash(Built(s)) <==> s != "" && Fold(s[|s| - 1]) == '-'
  {
    WordsAreWords(s);
    if s != "" {
      LastWord(s);
      hide Fold, WordsOf, Join;
      if WordsOf(s) != [] {
        JoinedWords(WordsOf(s));
        WrappedEnds(Dash(s[0]), Join(WordsOf(s), "-"), Dash(s[|s| - 1]));
      }
    }
  }

  lemma LastWord(s: string)
    requires s != ""
    ensures Fold(s[|s| - 1]) != '-' ==> WordsOf(s) != []
  {
    hide Fold, WordsOf;
    var t, x := s[..|s| - 1], s[|s| - 1];
    assert s == t + [x];
    WordsSnoc(t, x);
  }

  lemma WrappedEnds(lead: string, j: string, trail: string)
    requires j != "" && j[|j| - 1] != '-' && (trail == "" || trail == "-")
    ensures EndsInDash(lead + j + trail) <==> trail == "-"
  {
  }

  lemma BuiltDash(s: string, x: char)
    requires Fold(x) == '-'
    ensures Built(s + [x]) == if EndsInDash(Built(s)) then Built(s) else Built(s) + "-"
  {
    BuiltEnds(s);
    hide Fold, WordsOf, EndsInDash, Join;
    WordsSnoc(s, x);
    var t := s + [x];
    assert t[|t| - 1] == x && t[0] == (if s == "" then x else s[0]);
    if s == "" {
      NoWords();
    }
  }

  /** The text between words that a character's fold leaves behind it. */
  function Dash(c: char): string {
    if Fold(c) == '-' then "-" else ""
  }

  lemma Regrouped(a: string, b: string, c: string, d: string)
    ensures a + (b + c + d) + "" == a + b + c + d
  {
  }

  lemma BuiltWord(s: string, x: char)
    requires Fold(x) != '-'
    ensures Built(s + [x]) == Built(s) + [Fold(x)]
  {
    HasWords(s);
    hide Fold, WordsOf, Join;
    var d, w, t := Fold(x), WordsOf(s), s + [x];
    WordsSnoc(s, x);
    assert t[|t| - 1] == x && t[0] == (if s == "" then x else s[0]);
    JoinSnoc(w, [d], "-");
    if s == "" {
      NoWords();
      assert "" + [d] + "" == "" + [d];
    } else if w == [] {
      assert Fold(s[0]) == '-' && WordsOf(t) == [] + [[d]];
      assert "-" + [d] + "" == "-" + [d];
    } else {
      BuiltMore(s, x);
    }
  }

  lemma BuiltMore(s: string, x: char)
    requires Fold(x) != '-' && s != "" && WordsOf(s) != []
    ensures Built(s + [x]) == Built(s) + [Fold(x)]
  {
    hide Fold, WordsOf, Join;
    var d, w, t := Fold(x), WordsOf(s), s + [x];
    var j := Join(w, "-");
    WordsSnoc(s, x);
    assert t[|t| - 1] == x && t[0] == s[0];
    JoinSnoc(w, [d], "-");
    JoinExtend(w, d, "-");
    var trail := Dash(s[|s| - 1]);
    assert j + "" + [d] == j + [d];
    assert Join(WordsOf(t), "-") == j + trail + [d];
    Regrouped(Dash(s[0]), j, trail, [d]);
    assert Built(t) == Dash(s[0]) + (j + trail + [d]) + "";
    assert Built(s) == Dash(s[0]) + j + trail;
  }

  /** One turn of the loop. */
  lemma BuiltSnoc(s: string, x: char)
    ensures var d := Fold(x);
      Built(s + [x]) == if d != '-' then Built(s) + [d] else if EndsInDash(Built(s)) then Built(s) else Built(s) + "-"
  {
    hide Fold, Built, EndsInDash;
    if Fold(x) == '-' {
      BuiltDash(s, x);
    } else {
      BuiltWord(s, x);
    }
  }

  lemma NoWords()
    ensures WordsOf("") == []
  {
    NonEmptyOne("");
  }

  function TrimLeft(s: string, c: char): string {
    if s != "" && s[0] == c then TrimLeft(s[1..], c) else s
  }

  function TrimRight(s: string, c: char): string {
    if s != "" && s[|s| - 1] == c then TrimRight(s[..|s| - 1], c) else s
  }

  function TrimMatches(s: string, c: char): string {
    TrimRight(TrimLeft(s, c), c)
  }

  lemma TrimWrapped(j: string, lead: string, trail: string)
    requires j != "" && j[0] != '-' && j[|j| - 1] != '-'
    requires lead == "" || lead == "-"
    requires trail == "" || trail == "-"
    ensures TrimMatches(lead + j + trail, '-') == j
  {
    var k := j + trail;
    assert k[0] == j[0];
    if lead == "-" {
      assert lead + j + trail == "-" + k && ("-" + k)[1..] == k;
    } else {
      assert lead + j + trail == k;
    }
    assert TrimLeft(lead + j + trail, '-') == k;
    if trail == "-" {
      assert k[|k| - 1] == '-' && k[..|k| - 1] == j;
      assert TrimRight(k, '-') == TrimRight(j, '-') == j;
    } else {
      assert k == j;
    }
  }

  lemma BuiltTrimmed(s: string)
    ensures TrimMatches(Built(s), '-') == Join(WordsOf(s), "-")
  {
    WordsAreWords(s);
    var w := WordsOf(s);
    if w == [] {
      assert TrimLeft("-", '-') == "";
    } else {
      JoinedWords(w);
      hide WordsOf, Join, TrimMatches, Fold;
      TrimWrapped(Join(w, "-"), Dash(s[0]), Dash(s[|s| - 1]));
    }
  }

  lemma WhiteFolds(c: char)
    requires IsWhite(c)
    ensures Fold(c) == '-'
  {
  }

  /** Surrounding white space adds no word. */
  lemma DashFirst(s: string)
    requires s != "" && Fold(s[0]) == '-'
    ensures WordsOf(s) == WordsOf(s[1..])
  {
    hide Fold;
    var rest := Split(Folded(s[1..]), '-');
    assert Folded(s)[1..] == Folded(s[1..]) && Folded(s)[0] == '-';
    assert Split(Folded(s), '-') == [""] + rest;
    hide Split, Folded;
    NonEmptyConcat([""], rest);
    NonEmptyOne("");
  }

  lemma {:induction false} TrimStartKeeps(s: string)
    ensures WordsOf(TrimStart(s)) == WordsOf(s)
  {
    hide WordsOf, IsWhite, Fold;
    if s != "" && IsWhite(s[0]) {
      TrimStartKeeps(s[1..]);
      WhiteFolds(s[0]);
      DashFirst(s);
    }
  }

  lemma {:induction false} TrimEndKeeps(s: string)
    ensures WordsOf(TrimEnd(s)) == WordsOf(s)
    decreases |s|
  {
    hide WordsOf, IsWhite, Fold;
    if s != "" && IsWhite(s[|s| - 1]) {
      TrimEndKeeps(s[..|s| - 1]);
      assert s == s[..|s| - 1] + [s[|s| - 1]];
      WordsSnoc(s[..|s| - 1], s[|s| - 1]);
      WhiteFolds(s[|s| - 1]);
    }
  }

  method NormalizeAgentId(name: string) returns (normalized: string)
    ensures normalized == Slug(name, "agent")
  {
    hide WordsOf, Fold, Built, EndsInDash, Lower, IsWordChar, TrimMatches, TrimStart, TrimEnd, Join;
    var chars := Trim(name);
    TrimStartKeeps(name);
    TrimEndKeeps(TrimStart(name));
    normalized := "";
    var lastWasDash := false;
    NothingBuilt();
    for i := 0 to |chars|
      invariant normalized == Built(chars[..i]) && lastWasDash == EndsInDash(normalized)
    {
      assert chars[..i + 1] == chars[..i] + [chars[i]];
      BuiltSnoc(chars[..i], chars[i]);
      FoldCases(chars[i]);
      EndsAfter(normalized, Fold(chars[i]));
      var lower := Lower(chars[i]);
      if IsWordChar(lower) {
        normalized := normalized + [lower];
        lastWasDash := false;
      } else if !lastWasDash {
        normalized := normalized + "-";
        lastWasDash := true;
      }
    }
    assert chars[..|chars|] == chars;
    BuiltTrimmed(chars);
    normalized := TrimMatches(normalized, '-');
    if normalized == "" {
      normalized := "agent";
    }
  }

  lemma EndsAfter(s: string, d: char)
    ensures EndsInDash(s + [d]) <==> d == '-'
    ensures s + "-" == s + ['-'] && EndsInDash(s + "-")
  {
  }

  lemma NothingBuilt()
    ensures Built("") == "" && !EndsInDash("")
  {
  }

  lemma FoldCases(c: char)
    ensures Fold(c) == (if IsWordChar(Lower(c)) then Lower(c) else '-') && !IsWordChar('-')
  {
  }

  /** The two ways agree on every name with a letter or digit, and on no other. */
  lemma SameSlug(name: string)
    ensures Slug(name, "agent") == SanitizeBrowserSessionSegment(name) <==> exists i | 0 <= i < |name| :: Fold(name[i]) != '-'
  {
    WordsAreWords(name);
    HasWords(name);
    if WordsOf(name) != [] {
      JoinedWords(WordsOf(name));
    }
    assert "agent" != "session" by { assert |"agent"| == 5 && |"session"| == 7; }
  }

  lemma {:induction false} HasWords(s: string)
    ensures WordsOf(s) != [] <==> exists i | 0 <= i < |s| :: Fold(s[i]) != '-'
  {
    hide Fold, WordsOf;
    if s == "" {
      NoWords();
    } else {
      var t, x := s[..|s| - 1], s[|s| - 1];
      assert s == t + [x];
      HasWords(t);
      WordsSnoc(t, x);
      assert forall i | 0 <= i < |t| :: s[i] == t[i];
    }
  }

  /** The letters and digits of a text in their order, in lower case. */
  function Letters(s: string): string {
    if s == "" then ""
    else
      var c := s[|s| - 1];
      Letters(s[..|s| - 1])
      + if 'A' <= c <= 'Z' then ["abcdefghijklmnopqrstuvwxyz"[c as int - 'A' as int]]
        else if 'a' <= c <= 'z' || '0' <= c <= '9' then [c] else ""
  }

  function Flat(words: seq<string>): string {
    if words == [] then "" else Flat(words[..|words| - 1]) + words[|words| - 1]
  }

  /** No letter or digit of a name is lost, none is added, and their order stays. */
  lemma {:induction false} LettersKept(s: string)
    ensures Flat(WordsOf(s)) == Letters(s)
  {
    hide WordsOf;
    if s == "" {
      NoWords();
    } else {
      var t, x := s[..|s| - 1], s[|s| - 1];
      assert s == t + [x];
      LettersKept(t);
      WordsSnoc(t, x);
      LettersGrow(t, x);
      hide Fold, Letters, Flat;
      var w := WordsOf(t);
      FlatGrown(w, Fold(x));
    }
  }

  lemma LettersGrow(t: string, x: char)
    ensures Letters(t + [x]) == if Fold(x) == '-' then Letters(t) else Letters(t) + [Fold(x)]
  {
    assert (t + [x])[..|t|] == t;
    FoldIs(x);
    hide Fold;
    assert Letters(t) + "" == Letters(t);
  }

  lemma FlatGrown(w: seq<string>, d: char)
    ensures Flat(w + [[d]]) == Flat(w) + [d]
    ensures w != [] ==> Flat(w[..|w| - 1] + [w[|w| - 1] + [d]]) == Flat(w) + [d]
  {
    assert (w + [[d]])[..|w|] == w;
    if w != [] {
      var front, last := w[..|w| - 1], w[|w| - 1];
      assert (front + [last + [d]])[..|front|] == front;
      assert Flat(front) + (last + [d]) == Flat(front) + last + [d];
    }
  }

  lemma FoldIs(c: char)
    ensures Fold(c) == if 'A' <= c <= 'Z' then "abcdefghijklmnopqrstuvwxyz"[c as int - 'A' as int]
                       else if 'a' <= c <= 'z' || '0' <= c <= '9' then c else '-'
  {
    assert forall i | 0 <= i < 26 :: "abcdefghijklmnopqrstuvwxyz"[i] == ('a' as int + i) as char;
  }

  // Shape and idempotence

  /** Lower-case words joined by single dashes. */
  ghost predicate IsSlug(s: string) {
    exists words: seq<string> :: words != [] && AreWords(words) && s == Join(words, "-")
  }

  lemma {:induction false} SplitJoin(words: seq<string>)
    requires AreWords(words) && words != []
    ensures Split(Join(words, "-"), '-') == words
  {
    assert words[0] in words && '-' !in words[0];
    SplitPlain(words[0], '-');
    if |words| > 1 {
      assert forall w | w in words[1..] :: w in words;
      SplitJoin(words[1..]);
      SplitConcat(words[0], Join(words[1..], "-"), '-');
      assert ['-'] == "-";
    }
  }

  lemma {:induction false} NonEmptySame(words: seq<string>)
    requires AreWords(words)
    ensures NonEmpty(words) == words
  {
    if words != [] {
      assert words[0] in words && forall w | w in words[1..] :: w in words;
      NonEmptySame(words[1..]);
    }
  }

  lemma {:induction false} JoinChars(words: seq<string>)
    requires AreWords(words)
    ensures forall i | 0 <= i < |Join(words, "-")| :: IsWordChar(Join(words, "-")[i]) || Join(words, "-")[i] == '-'
  {
    if words != [] {
      assert words[0] in words && forall w | w in words[1..] :: w in words;
      JoinChars(words[1..]);
    }
  }

  lemma WordsOfJoin(words: seq<string>)
    requires AreWords(words) && words != []
    ensures WordsOf(Join(words, "-")) == words
  {
    var j := Join(words, "-");
    JoinChars(words);
    assert Folded(j) == j;
    SplitJoin(words);
    NonEmptySame(words);
  }

  /** Either way yields lower-case words joined by single dashes, and does not change what is so already. */
  lemma SlugIdempotent(name: string, fallback: string)
    requires IsWord(fallback)
    ensures var slug := Slug(name, fallback);
      IsSlug(slug) && Slug(slug, fallback) == slug
  {
    hide WordsOf, Join;
    WordsAreWords(name);
    var words := if Join(WordsOf(name), "-") == "" then [fallback] else WordsOf(name);
    SlugWords(name, fallback, words);
    WordsOfJoin(words);
    JoinedWords(words);
  }

  lemma SlugWords(name: string, fallback: string, words: seq<string>)
    requires IsWord(fallback) && words == if Join(WordsOf(name), "-") == "" then [fallback] else WordsOf(name)
    ensures words != [] && AreWords(words) && Slug(name, fallback) == Join(words, "-")
  {
    WordsAreWords(name);
    hide WordsOf;
    NoWordsNothing(WordsOf(name));
  }

  lemma NoWordsNothing(words: seq<string>)
    requires AreWords(words)
    ensures Join(words, "-") == "" <==> words == []
  {
    if words != [] {
      JoinedWords(words);
    }
  }
}

/** Lexical normalisation of paths, and the check that keeps workspaces out of the state directories. */
module Paths {
  import opened Text

  /** A path as the program builds it: below the root or not, and its parts. */
  datatype Path = Path(rooted: bool, parts: seq<string>)

  predicate IsAbsolute(path: string) {
    path != "" && path[0] == '/'
  }

  /** A part that names something: neither empty, nor the directory itself, nor the one above. */
  predicate IsName(part: string) {
    part != "" && part != "." && part != ".." && '/' !in part
  }

  predicate IsClean(p: Path) {
    forall part | part in p.parts :: IsName(part)
  }

  function Pop(parts: seq<string>): seq<string> {
    if parts == [] then [] else parts[..|parts| - 1]
  }

  /** One component of a path: `.` and nothing between two separators leave the place alone. */
  function Enter(parts: seq<string>, part: string): seq<string> {
    if part == "" || part == "." then parts
    else if part == ".." then Pop(parts)
    else parts + [part]
  }

  function Walk(parts: seq<string>, route: seq<string>): seq<string> {
    if route == [] then parts
    else Enter(Walk(parts, route[..|route| - 1]), route[|route| - 1])
  }

  /** The path that `path` leads to from `cwd`. */
  function Normal(path: string, cwd: Path): Path {
    if IsAbsolute(path) then Path(true, Walk([], Split(path, '/')))
    else Path(cwd.rooted, Walk(cwd.parts, Split(path, '/')))
  }

  method NormalizeAbsolutePath(path: string, cwd: Path) returns (normalized: Path)
    ensures normalized == Normal(path, cwd)
  {
    hide Split;
    var components := Split(path, '/');
    normalized := if IsAbsolute(path) then Path(true, []) else cwd;
    ghost var start := normalized.parts;
    for i := 0 to |components|
      invariant normalized == Path(if IsAbsolute(path) then true else cwd.rooted, Walk(start, components[..i]))
    {
      assert components[..i + 1][..i] == components[..i];
      var part := components[i];
      if part == ".." {
        if normalized.parts != [] {
          normalized := normalized.(parts := normalized.parts[..|normalized.parts| - 1]);
        }
      } else if part != "" && part != "." {
        normalized := normalized.(parts := normalized.parts + [part]);
      }
    }
    assert components[..|components|] == components;
  }

  /** How the program writes the path as text. */
  function Shown(p: Path): string {
    (if p.rooted then "/" else "") + Join(p.parts, "/")
  }

  lemma {:induction false} WalkClean(parts: seq<string>, route: seq<string>)
    requires (forall p | p in parts :: IsName(p)) && (forall p | p in route :: '/' !in p)
    ensures forall p | p in Walk(parts, route) :: IsName(p)
  {
    if route != [] {
      WalkClean(parts, route[..|route| - 1]);
    }
  }

  lemma {:induction false} SplitNoSeparator(s: string, c: char)
    ensures forall p | p in Split(s, c) :: c !in p
  {
    if s != "" {
      SplitNoSeparator(s[1..], c);
    }
  }

  /** From an absolute and clean directory every path leads to an absolute and clean one. */
  lemma NormalIsClean(path: string, cwd: Path)
    requires cwd.rooted && IsClean(cwd)
    ensures Normal(path, cwd).rooted && IsClean(Normal(path, cwd))
  {
    hide Split;
    SplitNoSeparator(path, '/');
    WalkClean(cwd.parts, Split(path, '/'));
    WalkClean([], Split(path, '/'));
  }

  lemma {:induction false} WalkConcat(parts: seq<string>, a: seq<string>, b: seq<string>)
    ensures Walk(parts, a + b) == Walk(Walk(parts, a), b)
    decreases |b|
  {
    if b == [] {
      assert a + b == a;
    } else {
      WalkConcat(parts, a, b[..|b| - 1]);
      assert (a + b)[..|a + b| - 1] == a + b[..|b| - 1];
    }
  }

  /** Appending a relative path is going on from where the first one leads. */
  lemma NormalComposes(first: string, second: string, cwd: Path)
    requires first != "" && !IsAbsolute(second)
    ensures Normal(first + "/" + second, cwd) == Normal(second, Normal(first, cwd))
  {
    hide Split;
    assert first + "/" + second == first + ['/'] + second;
    SplitConcat(first, second, '/');
    WalkConcat([], Split(first, '/'), Split(second, '/'));
    WalkConcat(cwd.parts, Split(first, '/'), Split(second, '/'));
    assert (first + "/" + second)[0] == first[0];
  }

  /** Going into a part of one name and up again leads back, and from the root there is no way up. */
  lemma UpUndoesDown(path: string, name: string, cwd: Path)
    requires path != "" && IsName(name)
    ensures Normal(path + "/" + name + "/..", cwd) == Normal(path, cwd)
    ensures Normal("/..", cwd) == Path(true, []) && Normal(path + "/.", cwd) == Normal(path, cwd) && Normal(path + "/", cwd) == Normal(path, cwd)
    ensures Normal(path + "/" + name, cwd) == Below(Normal(path, cwd), name)
  {
    hide Split, Walk, Normal;
    OnePart(path, name, cwd);
    OnePart(path + "/" + name, "..", cwd);
    OnePart(path, ".", cwd);
    OnePart(path, "", cwd);
    assert path + "/" + "" == path + "/";
    assert path + "/" + name + "/" + ".." == path + "/" + name + "/..";
    assert path + "/" + "." == path + "/.";
    var at := Normal(path, cwd).parts;
    assert (at + [name])[..|at|] == at;
    RootIsTop(cwd);
  }

  lemma RootIsTop(cwd: Path)
    ensures Normal("/..", cwd) == Path(true, [])
  {
    SplitConcat("", "..", '/');
    SplitPlain("", '/');
    SplitPlain("..", '/');
    assert "" + ['/'] + ".." == "/..";
    hide Split;
    WalkConcat([], [""], [".."]);
    WalkEmpty();
    WalkOne([], "..");
  }

  lemma WalkOne(parts: seq<string>, part: string)
    ensures Walk(parts, [part]) == Enter(parts, part)
  {
    assert [part][..0] == [];
    assert Walk(parts, [part][..0]) == parts;
  }

  lemma OnePart(path: string, part: string, cwd: Path)
    requires path != "" && '/' !in part
    ensures Normal(path + "/" + part, cwd) == Path(Normal(path, cwd).rooted, Enter(Normal(path, cwd).parts, part))
  {
    hide Split, Walk;
    assert !IsAbsolute(part);
    NormalComposes(path, part, cwd);
    SplitPlain(part, '/');
    WalkOne(Normal(path, cwd).parts, part);
  }

  lemma {:induction false} WalkNames(parts: seq<string>, route: seq<string>)
    requires forall p | p in route :: IsName(p)
    ensures Walk(parts, route) == parts + route
  {
    if route == [] {
      assert parts + route == parts;
    } else {
      WalkNames(parts, route[..|route| - 1]);
      assert route[|route| - 1] in route;
      assert parts + route == parts + route[..|route| - 1] + [route[|route| - 1]];
    }
  }

  lemma {:induction false} SplitJoined(parts: seq<string>)
    requires parts != [] && forall p | p in parts :: '/' !in p
    ensures Split(Join(parts, "/"), '/') == parts
  {
    assert parts[0] in parts;
    SplitPlain(parts[0], '/');
    if |parts| > 1 {
      assert forall p | p in parts[1..] :: p in parts;
      SplitJoined(parts[1..]);
      SplitConcat(parts[0], Join(parts[1..], "/"), '/');
      assert ['/'] == "/";
    }
  }

  /** A clean absolute path leads to itself, wherever one starts. */
  lemma NormalIdempotent(p: Path, cwd: Path)
    requires p.rooted && IsClean(p)
    ensures Normal(Shown(p), cwd) == p
  {
    hide Split;
    var text := Shown(p);
    assert IsAbsolute(text);
    assert text == "" + ['/'] + Join(p.parts, "/");
    SplitConcat("", Join(p.parts, "/"), '/');
    SplitPlain("", '/');
    if p.parts == [] {
      assert Split(text, '/') == ["", ""];
      WalkConcat([], [""], [""]);
      WalkEmpty();
    } else {
      SplitJoined(p.parts);
      WalkConcat([], [""], p.parts);
      WalkEmpty();
      WalkNames([], p.parts);
      assert [] + p.parts == p.parts;
    }
  }

  lemma WalkEmpty()
    ensures Walk([], [""]) == []
  {
    assert [""][..0] == [];
    assert Walk([], [""][..0]) == [];
  }

  // The check

  function Below(p: Path, name: string): Path {
    p.(parts := p.parts + [name])
  }

  predicate StartsWith(p: Path, prefix: Path) {
    p.rooted == prefix.rooted && |prefix.parts| <= |p.parts| && p.parts[..|prefix.parts|] == prefix.parts
  }

  function ReservedRoots(data: Path): seq<Path> {
    [data, Below(data, "artifacts"), Below(data, "transcripts"), Below(data, "runs"), Below(data, "audit")]
  }

  method ValidateWorkspaceRootPath(workspace: Path, data: Path) returns (ok: bool)
    ensures ok <==> !exists r | r in ReservedRoots(data) :: workspace == r || StartsWith(workspace, r)
  {
    var roots := ReservedRoots(data);
    for i := 0 to |roots|
      invariant forall j | 0 <= j < i :: !(workspace == roots[j] || StartsWith(workspace, roots[j]))
    {
      if workspace == roots[i] || StartsWith(workspace, roots[i]) {
        assert roots[i] in roots;
        return false;
      }
    }
    return true;
  }

  /** Of the five roots only the first matters: what lies in any of them lies in the data directory. */
  lemma FiveRootsAreOne(workspace: Path, data: Path)
    ensures (exists r | r in ReservedRoots(data) :: workspace == r || StartsWith(workspace, r)) <==> StartsWith(workspace, data)
  {
    var roots := ReservedRoots(data);
    if StartsWith(workspace, data) {
      assert roots[0] in roots;
    }
    forall r | r in roots && (workspace == r || StartsWith(workspace, r))
      ensures StartsWith(workspace, data)
    {
      RootsBelow(r, data);
      PrefixTransitive(workspace, r, data);
    }
  }

  lemma RootsBelow(r: Path, data: Path)
    requires r in ReservedRoots(data)
    ensures StartsWith(r, data)
  {
    var roots := ReservedRoots(data);
    var i :| 0 <= i < |roots| && roots[i] == r;
    if i == 0 {
      assert data.parts[..|data.parts|] == data.parts;
    }
  }

  lemma PrefixTransitive(p: Path, q: Path, r: Path)
    requires (p == q || StartsWith(p, q)) && StartsWith(q, r)
    ensures StartsWith(p, r)
  {
    if p != q {
      assert p.parts[..|q.parts|][..|r.parts|] == p.parts[..|r.parts|];
    }
  }
}

/**
 * Symbolic-link rewriting of a path (pkg/utils/pathutils.go). The path is split
 * on '/', its cumulative prefixes are visited from the shortest, and the first
 * prefix that is a symbolic link is replaced by the link's resolved target.
 * The filesystem is an oracle: which paths `os.Lstat` succeeds on (and whether
 * their mode has the symlink bit) and which paths `filepath.EvalSymlinks`
 * resolves (and to what).
 */
module PathUtils {
  import opened Wrappers

  /** os.PathSeparator on the platforms the model covers. */
  const Separator: char := '/'

  datatype FileSystem = FileSystem(
    lstat: map<string, bool>,         // the paths Lstat succeeds on, with "mode has ModeSymlink"
    evalSymlinks: map<string, string>) // the paths EvalSymlinks resolves, with their targets

  /** The error that filepath.EvalSymlinks reports for the path it could not resolve. */
  datatype PathError = EvalSymlinksFailed(path: string)

  /** isSymbolicLink: Lstat succeeds and reports a symbolic link. */
  predicate IsSymbolicLink(fs: FileSystem, path: string)
    ensures path !in fs.lstat ==> !IsSymbolicLink(fs, path)
  {
    path in fs.lstat && fs.lstat[path]
  }

  /** filepath.IsAbs: the path starts with the separator. */
  predicate IsAbs(path: string)
    ensures IsAbs(path) <==> [Separator] <= path
  {
    |path| > 0 && path[0] == Separator
  }

  // ---------------------------------------------------------------------------
  // strings.Split on the separator, and its inverse

  /** strings.Split(s, "/"): the pieces between separators, at least one, none holding a separator. */
  function Split(s: string): (parts: seq<string>)
    ensures |parts| >= 1
    ensures forall i :: 0 <= i < |parts| ==> Separator !in parts[i]
    ensures parts[0] == "" <==> s == "" || s[0] == Separator
  {
    if s == [] then [""]
    else
      var rest := Split(s[1..]);
      if s[0] == Separator then [""] + rest
      else [[s[0]] + rest[0]] + rest[1..]
  }

  /** strings.Join(parts, "/"). */
  function JoinParts(parts: seq<string>): string
    requires |parts| >= 1
  {
    if |parts| == 1 then parts[0] else parts[0] + [Separator] + JoinParts(parts[1..])
  }

  /** Joining the pieces of a split gives back the string. */
  lemma {:induction false} SplitJoin(s: string)
    ensures JoinParts(Split(s)) == s
  {
    if s != [] {
      var rest := Split(s[1..]);
      SplitJoin(s[1..]);
      if s[0] == Separator {
        assert ([""] + rest)[1..] == rest;
      } else if |rest| > 1 {
        var parts := [[s[0]] + rest[0]] + rest[1..];
        assert parts[1..] == rest[1..];
        assert JoinParts(rest) == rest[0] + [Separator] + JoinParts(rest[1..]);
      }
    }
  }

  lemma {:induction false} SplitPrepend(a: string, t: string)
    requires Separator !in a
    ensures Split(a + [Separator] + t) == [a] + Split(t)
  {
    if a != [] {
      assert (a + [Separator] + t)[1..] == a[1..] + [Separator] + t;
      SplitPrepend(a[1..], t);
      assert [a[0]] + a[1..] == a;
    } else {
      assert a + [Separator] + t == [Separator] + t;
      assert ([Separator] + t)[1..] == t;
    }
  }

  lemma {:induction false} SplitOfPiece(a: string)
    requires Separator !in a
    ensures Split(a) == [a]
  {
    if a != [] {
      SplitOfPiece(a[1..]);
      assert [a[0]] + a[1..] == a;
    }
  }

  /** Splitting pieces that hold no separator after joining them gives back the pieces. */
  lemma {:induction false} JoinSplit(parts: seq<string>)
    requires |parts| >= 1
    requires forall i :: 0 <= i < |parts| ==> Separator !in parts[i]
    ensures Split(JoinParts(parts)) == parts
  {
    if |parts| == 1 {
      SplitOfPiece(parts[0]);
    } else {
      JoinSplit(parts[1..]);
      SplitPrepend(parts[0], JoinParts(parts[1..]));
      assert [parts[0]] + parts[1..] == parts;
    }
  }

  // ---------------------------------------------------------------------------
  // filepath.Join and the cumulative prefixes

  /** A path component filepath.Join keeps as it is: non-empty, no separator, not "." or "..". */
  predicate IsPlainComponent(e: string) {
    e != "" && Separator !in e && e != "." && e != ".."
  }

  /** What filepath.Join puts before a plain element: nothing, the directory, or the directory and a separator. */
  function Lead(dir: string): (r: string)
    ensures dir <= r && |r| <= |dir| + 1
  {
    if dir == "" then ""
    else if dir[|dir| - 1] == Separator then dir
    else dir + [Separator]
  }

  /**
   * filepath.Join(dir, elem) for a cleaned dir and a plain elem: the two
   * joined by one separator, or elem alone when dir is empty.
   */
  function Join(dir: string, elem: string): (r: string)
    ensures dir <= r
    ensures |dir| + |elem| <= |r| <= |dir| + 1 + |elem| && r[|r| - |elem|..] == elem
  {
    Lead(dir) + elem
  }

  /** The path has no "." or ".." component. */
  predicate NoDotComponents(path: string) {
    forall p :: p in Split(path) ==> p != "." && p != ".."
  }

  /** Every piece of the list is either empty (skipped by the walk) or a plain component. */
  predicate WalkableParts(parts: seq<string>) {
    forall i :: 0 <= i < |parts| ==> parts[i] == "" || IsPlainComponent(parts[i])
  }

  /** The paths the walk visits from `cur`: each non-empty piece joined onto the previous prefix. */
  function Prefixes(cur: string, parts: seq<string>): (ps: seq<string>)
    requires WalkableParts(parts)
    ensures forall i :: 0 <= i < |ps| ==> ps[i] != ""
    decreases |parts|
  {
    if parts == [] then []
    else if parts[0] == "" then Prefixes(cur, parts[1..])
    else
      var next := Join(cur, parts[0]);
      [next] + Prefixes(next, parts[1..])
  }

  /** Each prefix the walk visits extends the starting directory and every prefix visited before it. */
  lemma {:induction false} PrefixesGrow(cur: string, parts: seq<string>)
    requires WalkableParts(parts)
    ensures forall x :: x in Prefixes(cur, parts) ==> cur < x
    ensures forall i, j :: 0 <= i < j < |Prefixes(cur, parts)| ==> Prefixes(cur, parts)[i] < Prefixes(cur, parts)[j]
    decreases |parts|
  {
    if parts != [] && parts[0] == "" {
      PrefixesGrow(cur, parts[1..]);
    } else if parts != [] {
      var next := Join(cur, parts[0]);
      var rest := Prefixes(next, parts[1..]);
      PrefixesGrow(next, parts[1..]);
      var ps := Prefixes(cur, parts);
      assert ps == [next] + rest;
      assert cur < next;
      forall x | x in ps ensures cur < x {
        if x != next {
          assert x in rest && next < x;
        }
      }
      forall i, j | 0 <= i < j < |ps| ensures ps[i] < ps[j] {
        if i == 0 {
          assert ps[j] == rest[j - 1] && ps[j] in rest;
        } else {
          assert ps[i] == rest[i - 1] && ps[j] == rest[j - 1];
        }
      }
    }
  }

  lemma NoDotWalkable(path: string)
    requires NoDotComponents(path)
    ensures WalkableParts(Split(path))
  {
    var parts := Split(path);
    forall i | 0 <= i < |parts| ensures parts[i] == "" || IsPlainComponent(parts[i]) {
      assert parts[i] in parts;
    }
  }

  /** The cumulative prefixes of a path, starting from "/" for an absolute path and from "" otherwise. */
  function PathPrefixes(path: string): seq<string>
    requires NoDotComponents(path)
  {
    NoDotWalkable(path);
    Prefixes(if IsAbs(path) then [Separator] else "", Split(path))
  }

  /**
   * The walk only lengthens the path: each prefix it visits is a proper prefix
   * of every later one, and all of them are absolute when the path is.
   */
  lemma PathPrefixesGrow(path: string)
    requires NoDotComponents(path)
    ensures var ps := PathPrefixes(path);
      forall i, j :: 0 <= i < j < |ps| ==> ps[i] < ps[j]
    ensures IsAbs(path) ==> forall x :: x in PathPrefixes(path) ==> IsAbs(x)
  {
    NoDotWalkable(path);
    PrefixesGrow(if IsAbs(path) then [Separator] else "", Split(path));
  }

  // ---------------------------------------------------------------------------
  // The first symbolic link among the prefixes

  /** The index of the first, that is shortest, prefix that is a symbolic link. */
  function FirstSymlink(ps: seq<string>, fs: FileSystem): (r: Option<nat>)
    ensures r.Some? ==> r.value < |ps| && IsSymbolicLink(fs, ps[r.value])
    ensures r.Some? ==> forall j :: 0 <= j < r.value ==> !IsSymbolicLink(fs, ps[j])
    ensures r.None? ==> forall j :: 0 <= j < |ps| ==> !IsSymbolicLink(fs, ps[j])
  {
    if ps == [] then None
    else if IsSymbolicLink(fs, ps[0]) then Some(0)
    else match FirstSymlink(ps[1..], fs)
      case None => None
      case Some(k) => Some(k + 1)
  }

  /**
   * getSymbolinkLink: walks the prefixes until the first symbolic link and
   * returns its resolved target with the prefix, or the resolution error;
   * two empty strings and no error when no prefix is a link.
   */
  method GetSymbolicLink(path: string, fs: FileSystem) returns (target: string, part: string, err: Option<PathError>)
    requires NoDotComponents(path)
    ensures var ps := PathPrefixes(path);
      match FirstSymlink(ps, fs)
      case None => target == "" && part == "" && err == None
      case Some(k) =>
        if ps[k] in fs.evalSymlinks then target == fs.evalSymlinks[ps[k]] && part == ps[k] && err == None
        else target == "" && part == "" && err == Some(EvalSymlinksFailed(ps[k]))
  {
    var parts := Split(path);
    NoDotWalkable(path);
    var currentPath := if IsAbs(path) then [Separator] else "";
    ghost var all := PathPrefixes(path);
    ghost var visited: seq<string> := [];
    for i := 0 to |parts|
      invariant visited + Prefixes(currentPath, parts[i..]) == all
      invariant forall j :: 0 <= j < |visited| ==> !IsSymbolicLink(fs, visited[j])
    {
      var piece := parts[i];
      WalkStep(visited, currentPath, parts, i, all);
      if piece == "" {
        continue;
      }
      currentPath := Join(currentPath, piece);
      if IsSymbolicLink(fs, currentPath) {
        FirstLinkFound(visited, currentPath, Prefixes(currentPath, parts[i + 1..]), all, fs);
        if currentPath !in fs.evalSymlinks {
          return "", "", Some(EvalSymlinksFailed(currentPath));
        }
        return fs.evalSymlinks[currentPath], currentPath, None;
      }
      visited := visited + [currentPath];
    }
    assert parts[|parts|..] == [];
    NoLinkFound(visited, all, fs);
    return "", "", None;
  }

  /** The loop invariant of the walk survives one piece, skipped or joined. */
  lemma WalkStep(visited: seq<string>, cur: string, parts: seq<string>, i: nat, all: seq<string>)
    requires WalkableParts(parts) && i < |parts|
    requires visited + Prefixes(cur, parts[i..]) == all
    ensures WalkableParts(parts[i + 1..])
    ensures parts[i] == "" ==> visited + Prefixes(cur, parts[i + 1..]) == all
    ensures parts[i] != "" ==> var next := Join(cur, parts[i]);
      all == visited + ([next] + Prefixes(next, parts[i + 1..])) &&
      all == (visited + [next]) + Prefixes(next, parts[i + 1..])
  {
    PrefixesStep(cur, parts, i);
    if parts[i] != "" {
      var next := Join(cur, parts[i]);
      AppendAssoc(visited, [next], Prefixes(next, parts[i + 1..]));
    }
  }

  /** A link reached after prefixes that are not links is the first link of the walk. */
  lemma FirstLinkFound(visited: seq<string>, cur: string, rest: seq<string>, all: seq<string>, fs: FileSystem)
    requires all == visited + ([cur] + rest)
    requires forall j :: 0 <= j < |visited| ==> !IsSymbolicLink(fs, visited[j])
    requires IsSymbolicLink(fs, cur)
    ensures FirstSymlink(all, fs) == Some(|visited|) && all[|visited|] == cur
  {
    FirstSymlinkAfter(visited, [cur] + rest, fs);
  }

  /** A walk that visited every prefix without meeting a link finds none. */
  lemma NoLinkFound(visited: seq<string>, all: seq<string>, fs: FileSystem)
    requires all == visited + []
    requires forall j :: 0 <= j < |visited| ==> !IsSymbolicLink(fs, visited[j])
    ensures FirstSymlink(all, fs) == None
  {
    FirstSymlinkAfter(visited, [], fs);
  }

  /** One step of the walk: an empty piece is skipped, any other is joined onto the current prefix. */
  lemma PrefixesStep(cur: string, parts: seq<string>, i: nat)
    requires WalkableParts(parts) && i < |parts|
    ensures WalkableParts(parts[i..]) && WalkableParts(parts[i + 1..])
    ensures parts[i] == "" ==> Prefixes(cur, parts[i..]) == Prefixes(cur, parts[i + 1..])
    ensures parts[i] != "" ==>
      Prefixes(cur, parts[i..]) == [Join(cur, parts[i])] + Prefixes(Join(cur, parts[i]), parts[i + 1..])
  {
    assert parts[i..][1..] == parts[i + 1..];
  }

  /** Prefixes that are not links do not change which later one is the first link. */
  lemma {:induction false} FirstSymlinkAfter(a: seq<string>, b: seq<string>, fs: FileSystem)
    requires forall j :: 0 <= j < |a| ==> !IsSymbolicLink(fs, a[j])
    ensures FirstSymlink(a + b, fs) ==
      match FirstSymlink(b, fs)
      case None => None
      case Some(k) => Some(|a| + k)
  {
    if a != [] {
      assert (a + b)[1..] == a[1..] + b;
      FirstSymlinkAfter(a[1..], b, fs);
    } else {
      assert a + b == b;
    }
  }

  // ---------------------------------------------------------------------------
  // strings.Replace(s, old, new, 1)

  /** `sub` occurs in `s` starting at position j. */
  predicate OccursAt(s: string, sub: string, j: nat) {
    j + |sub| <= |s| && s[j..j + |sub|] == sub
  }

  lemma OccursShift(s: string, sub: string)
    requires s != []
    ensures forall j: nat :: 0 < j ==> (OccursAt(s, sub, j) <==> OccursAt(s[1..], sub, j - 1))
  {
    forall j: nat | 0 < j
      ensures OccursAt(s, sub, j) <==> OccursAt(s[1..], sub, j - 1)
    {
      if j + |sub| <= |s| {
        assert s[1..][j - 1..j - 1 + |sub|] == s[j..j + |sub|];
      }
    }
  }

  /** strings.Index: the first position at which `sub` occurs in `s`. */
  function IndexOf(s: string, sub: string): (r: Option<nat>)
    ensures r.Some? ==> OccursAt(s, sub, r.value)
    ensures r.Some? ==> forall j: nat :: j < r.value ==> !OccursAt(s, sub, j)
    ensures r.None? ==> forall j: nat :: !OccursAt(s, sub, j)
    ensures sub <= s ==> r == Some(0)
    decreases |s|
  {
    if sub <= s then Some(0)
    else if s == [] then None
    else
      OccursShift(s, sub);
      match IndexOf(s[1..], sub)
      case None => None
      case Some(i) => Some(i + 1)
  }

  /** strings.Replace(s, from, to, 1): the first occurrence of `from` replaced by `to`. */
  function ReplaceFirst(s: string, from: string, to: string): (r: string)
    ensures from <= s ==> r == to + s[|from|..]
    ensures (forall j: nat :: !OccursAt(s, from, j)) ==> r == s
    ensures forall i: nat :: OccursAt(s, from, i) && (forall j: nat :: j < i ==> !OccursAt(s, from, j)) ==>
      r == s[..i] + to + s[i + |from|..]
  {
    match IndexOf(s, from)
    case None => s
    case Some(i) => s[..i] + to + s[i + |from|..]
  }

  /**
   * ConvertSymbolicLink: the path with its first symbolically linked prefix
   * replaced by the link's target; the path itself when there is no link;
   * "" and the error when the link cannot be resolved.
   */
  method ConvertSymbolicLink(path: string, fs: FileSystem) returns (converted: string, err: Option<PathError>)
    requires NoDotComponents(path)
    ensures var ps := PathPrefixes(path);
      match FirstSymlink(ps, fs)
      case None => converted == path && err == None
      case Some(k) =>
        if ps[k] in fs.evalSymlinks then converted == ReplaceFirst(path, ps[k], fs.evalSymlinks[ps[k]]) && err == None
        else converted == "" && err == Some(EvalSymlinksFailed(ps[k]))
  {
    var sym, part, e := GetSymbolicLink(path, fs);
    if e.Some? {
      return "", e;
    }
    if sym == "" && part == "" {
      return path, None;
    }
    return ReplaceFirst(path, part, sym), None;
  }

  // ---------------------------------------------------------------------------
  // When the detected prefix is a literal prefix of the path

  /** An empty piece can only come first (a leading separator) or last (a trailing one): the path never doubles a separator. */
  predicate NoDoubledSeparator(path: string) {
    var parts := Split(path);
    forall i :: 0 < i < |parts| - 1 ==> parts[i] != ""
  }

  lemma JoinAppend(dir: string, a: string, b: string)
    requires a != ""
    ensures Join(dir, a + b) == Join(dir, a) + b
  {
  }

  /** One step of the walk: the next prefix followed by the rest of the joined pieces is the whole path. */
  lemma LiteralStep(cur: string, parts: seq<string>, s: string)
    requires |parts| >= 2 && IsPlainComponent(parts[0])
    requires s == Join(cur, JoinParts(parts))
    ensures Join(cur, parts[0]) <= s
    ensures s == Join(Join(cur, parts[0]), JoinParts(parts[1..]))
  {
    var next := Join(cur, parts[0]);
    var j := JoinParts(parts[1..]);
    assert Lead(next) == next + [Separator] by {
      assert next != "" && next[|next| - 1] != Separator;
    }
    calc {
      s;
      Lead(cur) + (parts[0] + [Separator] + j);
      { AppendAssoc(Lead(cur), parts[0] + [Separator], j); AppendAssoc(Lead(cur), parts[0], [Separator]); }
      next + [Separator] + j;
    }
  }

  lemma {:induction false} PrefixesAreLiteral(cur: string, parts: seq<string>, s: string)
    requires |parts| >= 1 && WalkableParts(parts)
    requires forall i :: 0 <= i < |parts| - 1 ==> parts[i] != ""
    requires s == Join(cur, JoinParts(parts))
    ensures forall x :: x in Prefixes(cur, parts) ==> x <= s
    decreases |parts|
  {
    if parts[0] == "" {
      assert Prefixes(cur, parts) == [];
    } else if |parts| == 1 {
      assert Prefixes(cur, parts) == [Join(cur, parts[0])] + Prefixes(Join(cur, parts[0]), []);
    } else {
      var next := Join(cur, parts[0]);
      var tail := parts[1..];
      LiteralStep(cur, parts, s);
      assert WalkableParts(tail);
      forall i | 0 <= i < |tail| - 1 ensures tail[i] != "" {
        assert tail[i] == parts[i + 1];
      }
      PrefixesAreLiteral(next, tail, s);
      assert Prefixes(cur, parts) == [next] + Prefixes(next, tail);
    }
  }

  /** Every prefix the walk visits is a literal prefix of a path that never doubles its separator. */
  lemma PathPrefixesAreLiteral(path: string)
    requires NoDotComponents(path) && NoDoubledSeparator(path)
    ensures forall x :: x in PathPrefixes(path) ==> x <= path
  {
    var parts := Split(path);
    NoDotWalkable(path);
    if IsAbs(path) {
      var tail := parts[1..];
      assert tail == Split(path[1..]);
      forall i | 0 <= i < |tail| ensures (tail[i] == "" || IsPlainComponent(tail[i])) && (i < |tail| - 1 ==> tail[i] != "") {
        assert tail[i] == parts[i + 1];
      }
      SplitJoin(path[1..]);
      assert path == [Separator] + path[1..];
      PrefixesAreLiteral([Separator], tail, path);
      assert Prefixes([Separator], parts) == Prefixes([Separator], tail);
    } else if path != "" {
      SplitJoin(path);
      PrefixesAreLiteral("", parts, path);
    }
  }

  /**
   * For a path that never doubles its separator, the rewrite is a splice: the
   * resolved target followed by the rest of the path after the linked prefix.
   */
  lemma ConvertSplicesTarget(path: string, fs: FileSystem)
    requires NoDotComponents(path) && NoDoubledSeparator(path)
    requires FirstSymlink(PathPrefixes(path), fs).Some?
    ensures var p := PathPrefixes(path)[FirstSymlink(PathPrefixes(path), fs).value];
      p <= path && forall t :: ReplaceFirst(path, p, t) == t + path[|p|..]
  {
    var ps := PathPrefixes(path);
    var k := FirstSymlink(ps, fs).value;
    PathPrefixesAreLiteral(path);
    assert ps[k] in ps;
  }
}

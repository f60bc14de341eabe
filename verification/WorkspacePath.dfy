/** Normalising visible workspace paths and checking that they stay under the mount. */
module WorkspacePath {
  import opened Wrappers

  const WORKSPACE_MOUNT_ROOT: string := "/workspace"

  datatype PathError = AbsolutePathRequired | InvalidPath | OutsideAllowedMount | OutsideMountRoot

  /** Each run of backslashes becomes one slash. `inRun` tells that one was just written. */
  function CollapseBackslashes(s: string, inRun: bool): string {
    if s == "" then ""
    else if s[0] == '\\' then (if inRun then "" else "/") + CollapseBackslashes(s[1..], true)
    else [s[0]] + CollapseBackslashes(s[1..], false)
  }

  function Split(s: string): (segments: seq<string>)
    ensures segments != []
  {
    if s == "" then [""]
    else Attach(s[0], Split(s[1..]))
  }

  /** The segments of `c` and what follows it. */
  function Attach(c: char, segments: seq<string>): (attached: seq<string>)
    requires segments != []
    ensures attached != []
  {
    if c == '/' then [""] + segments else [[c] + segments[0]] + segments[1..]
  }

  function Join(segments: seq<string>): string {
    if segments == [] then ""
    else if |segments| == 1 then segments[0]
    else segments[0] + "/" + Join(segments[1..])
  }

  /** The path of the node reached from the root through these names. */
  function Render(names: seq<string>): string {
    "/" + Join(names)
  }

  predicate IsName(segment: string) {
    segment != "" && segment != "." && segment != ".."
  }

  // ---------------------------------------------------------------- the lexical walk

  /** Walks from the node at `at`: an empty segment or `.` stays, `..` goes to the parent, a name goes
      to the child. The root has no parent, and no name may contain NUL. */
  function Walk(at: seq<string>, segments: seq<string>): Option<seq<string>>
    decreases segments
  {
    if segments == [] then Some(at)
    else match Step(at, segments[0])
      case None => None
      case Some(next) => Walk(next, segments[1..])
  }

  function Step(at: seq<string>, segment: string): Option<seq<string>> {
    if segment == "" || segment == "." then Some(at)
    else if segment == ".." then (if at == [] then None else Some(at[..|at| - 1]))
    else if '\0' in segment then None
    else Some(at + [segment])
  }

  function Normalized(input: string): Result<string, PathError> {
    var cleaned := CollapseBackslashes(input, false);
    if !("/" <= cleaned) then Err(AbsolutePathRequired)
    else match Walk([], Split(cleaned))
      case None => Err(InvalidPath)
      case Some(names) => Ok(Render(names))
  }

  lemma {:induction false} WalkSnoc(at: seq<string>, segments: seq<string>, segment: string)
    ensures Walk(at, segments + [segment]) ==
            match Walk(at, segments) case None => None case Some(node) => Step(node, segment)
    decreases segments
  {
    if segments == [] {
      assert segments + [segment] == [segment];
    } else {
      assert (segments + [segment])[1..] == segments[1..] + [segment];
      match Step(at, segments[0])
      case None =>
      case Some(next) => WalkSnoc(next, segments[1..], segment);
    }
  }

  lemma {:induction false} FailedWalkStaysFailed(at: seq<string>, segments: seq<string>, k: nat)
    requires k <= |segments| && Walk(at, segments[..k]).None?
    ensures Walk(at, segments).None?
    decreases segments
  {
    if k > 0 {
      assert segments[..k][1..] == segments[1..][..k - 1] && segments[..k][0] == segments[0];
      match Step(at, segments[0])
      case None =>
      case Some(next) => FailedWalkStaysFailed(next, segments[1..], k - 1);
    }
  }

  /** normalizePosixPath with its stack of segments. */
  method NormalizePosixPath(input: string) returns (result: Result<string, PathError>)
    ensures result == Normalized(input)
  {
    var cleaned := CollapseBackslashes(input, false);
    if !("/" <= cleaned) {
      return Err(AbsolutePathRequired);
    }
    var segments := Split(cleaned);
    var out: seq<string> := [];
    for i := 0 to |segments|
      invariant Walk([], segments[..i]) == Some(out)
    {
      var segment := segments[i];
      assert segments[..i + 1] == segments[..i] + [segment];
      WalkSnoc([], segments[..i], segment);
      if |segment| == 0 || segment == "." {
        continue;
      }
      if segment == ".." {
        if |out| == 0 {
          FailedWalkStaysFailed([], segments, i + 1);
          return Err(InvalidPath);
        }
        out := out[..|out| - 1];
        continue;
      }
      if '\0' in segment {
        FailedWalkStaysFailed([], segments, i + 1);
        return Err(InvalidPath);
      }
      out := out + [segment];
    }
    assert segments[..|segments|] == segments;
    return Ok("/" + Join(out));
  }

  // ---------------------------------------------------------------- what the walk is

  lemma {:induction false} WalkConcat(at: seq<string>, a: seq<string>, b: seq<string>)
    ensures Walk(at, a + b) == match Walk(at, a) case None => None case Some(node) => Walk(node, b)
    decreases a
  {
    if a == [] {
      assert a + b == b;
    } else {
      assert (a + b)[1..] == a[1..] + b;
      match Step(at, a[0])
      case None =>
      case Some(next) => WalkConcat(next, a[1..], b);
    }
  }

  lemma DownAndUp(at: seq<string>, name: string)
    requires IsName(name) && '\0' !in name
    ensures Walk(at, [name, ".."]) == Some(at)
  {
    assert [name, ".."][1..] == [".."] && [".."][1..] == [];
    assert (at + [name])[..|at|] == at;
  }

  /** A name and the `..` behind it cancel, wherever they stand. */
  lemma NameAndParentCancel(at: seq<string>, a: seq<string>, name: string, b: seq<string>)
    requires IsName(name) && '\0' !in name
    ensures Walk(at, a + ([name, ".."] + b)) == Walk(at, a + b)
  {
    WalkConcat(at, a, [name, ".."] + b);
    WalkConcat(at, a, b);
    match Walk(at, a)
    case None =>
    case Some(node) =>
      DownAndUp(node, name);
      WalkConcat(node, [name, ".."], b);
  }

  /** An empty segment or `.` may be left out, wherever it stands. */
  lemma StayingCancels(at: seq<string>, a: seq<string>, segment: string, b: seq<string>)
    requires segment == "" || segment == "."
    ensures Walk(at, a + ([segment] + b)) == Walk(at, a + b)
  {
    WalkConcat(at, a, [segment] + b);
    WalkConcat(at, a, b);
    assert ([segment] + b)[1..] == b;
  }

  /** The root has no parent. */
  lemma RootHasNoParent(b: seq<string>)
    ensures Walk([], [".."] + b).None?
  {
    assert ([".."] + b)[0] == "..";
  }

  /** Names lead down, one after the other. */
  lemma {:induction false} NamesLeadDown(at: seq<string>, names: seq<string>)
    requires forall i :: 0 <= i < |names| ==> IsName(names[i]) && '\0' !in names[i]
    ensures Walk(at, names) == Some(at + names)
    decreases names
  {
    if names == [] {
      assert at + names == at;
    } else {
      NamesLeadDown(at + [names[0]], names[1..]);
      assert at + [names[0]] + names[1..] == at + names;
    }
  }

  // ---------------------------------------------------------------- when it succeeds

  /** How far below its start a walk ends: names go down, `..` goes up. */
  function Depth(segments: seq<string>): int {
    if segments == [] then 0
    else Depth(segments[..|segments| - 1]) +
         (var last := segments[|segments| - 1]; if last == ".." then -1 else if IsName(last) then 1 else 0)
  }

  predicate Climbs(segments: seq<string>, k: nat)
    requires k <= |segments|
  {
    Depth(segments[..k]) < 0
  }

  /** No NUL in any segment, and no prefix climbs above the root. */
  predicate Stays(segments: seq<string>) {
    && (forall i :: 0 <= i < |segments| ==> '\0' !in segments[i])
    && (forall k :: 0 <= k <= |segments| ==> !Climbs(segments, k))
  }

  lemma StaysSnoc(init: seq<string>, last: string)
    ensures Stays(init + [last]) <==> Stays(init) && '\0' !in last && Depth(init + [last]) >= 0
  {
    var segments, n := init + [last], |init|;
    forall k | 0 <= k <= n ensures Climbs(segments, k) <==> Climbs(init, k) {
      assert segments[..k] == init[..k];
    }
    assert segments[..n + 1] == segments && (Climbs(segments, n + 1) <==> Depth(segments) < 0);
    assert segments[n] == last && forall i | 0 <= i < n :: segments[i] == init[i];
  }

  lemma {:induction false} WalkSucceedsIffStays(segments: seq<string>)
    ensures Walk([], segments).Some? <==> Stays(segments)
    ensures Walk([], segments).Some? ==> |Walk([], segments).value| == Depth(segments)
  {
    if segments == [] {
      assert !Climbs(segments, 0);
    } else {
      var init, last := segments[..|segments| - 1], segments[|segments| - 1];
      assert segments == init + [last];
      WalkSucceedsIffStays(init);
      WalkSnoc([], init, last);
      StaysSnoc(init, last);
    }
  }

  // ---------------------------------------------------------------- the result denotes the same node

  /** A name as it stands in a result: walking over it goes to a child, and it splits nowhere. */
  predicate Canonical(name: string) {
    IsName(name) && '/' !in name && '\\' !in name && '\0' !in name
  }

  predicate AllCanonical(names: seq<string>) {
    forall i :: 0 <= i < |names| ==> Canonical(names[i])
  }

  lemma {:induction false} SplitHasNoSlashes(s: string)
    requires '\\' !in s
    ensures forall i :: 0 <= i < |Split(s)| ==> '/' !in Split(s)[i] && '\\' !in Split(s)[i]
  {
    if s != "" { SplitHasNoSlashes(s[1..]); }
  }

  lemma {:induction false} CollapsedHasNoBackslash(s: string, inRun: bool)
    ensures '\\' !in CollapseBackslashes(s, inRun)
  {
    if s != "" { CollapsedHasNoBackslash(s[1..], s[0] == '\\'); }
  }

  lemma {:induction false} CollapseAtSlash(a: string, b: string, inRun: bool)
    ensures CollapseBackslashes(a + "/" + b, inRun) == CollapseBackslashes(a, inRun) + "/" + CollapseBackslashes(b, false)
  {
    if a == "" {
      assert a + "/" + b == "/" + b;
    } else {
      assert (a + "/" + b)[1..] == a[1..] + "/" + b;
      CollapseAtSlash(a[1..], b, a[0] == '\\');
    }
  }

  lemma {:induction false} NothingToCollapse(s: string)
    requires '\\' !in s
    ensures CollapseBackslashes(s, false) == s
  {
    if s != "" { NothingToCollapse(s[1..]); }
  }

  lemma {:induction false} WalkIsCanonical(at: seq<string>, segments: seq<string>)
    requires AllCanonical(at) && Walk(at, segments).Some?
    requires forall i :: 0 <= i < |segments| ==> '/' !in segments[i] && '\\' !in segments[i]
    ensures AllCanonical(Walk(at, segments).value)
    decreases segments
  {
    if segments != [] {
      WalkIsCanonical(Step(at, segments[0]).value, segments[1..]);
    }
  }

  lemma AttachConcat(c: char, a: seq<string>, b: seq<string>)
    requires a != []
    ensures Attach(c, a + b) == Attach(c, a) + b
  {
  }

  lemma {:induction false} SplitConcat(s: string, tail: string)
    ensures Split(s + "/" + tail) == Split(s) + Split(tail)
  {
    if s == "" {
      assert s + "/" + tail == "/" + tail;
    } else {
      SplitConcat(s[1..], tail);
      assert (s + "/" + tail)[1..] == s[1..] + "/" + tail;
      AttachConcat(s[0], Split(s[1..]), Split(tail));
    }
  }

  lemma {:induction false} SplitName(name: string)
    requires '/' !in name
    ensures Split(name) == [name]
  {
    if name != "" {
      SplitName(name[1..]);
      assert [name[0]] + name[1..] == name;
    }
  }

  lemma SplitHead(name: string, rest: string)
    requires '/' !in name
    ensures Split(name + "/" + rest) == [name] + Split(rest)
  {
    SplitName(name);
    SplitConcat(name, rest);
  }

  lemma {:induction false} SplitJoin(names: seq<string>)
    requires names != [] && AllCanonical(names)
    ensures Split(Join(names)) == names
  {
    if |names| == 1 {
      SplitName(names[0]);
    } else {
      SplitHead(names[0], Join(names[1..]));
      SplitJoin(names[1..]);
    }
  }

  lemma {:induction false} WalkOverNames(at: seq<string>, names: seq<string>)
    requires AllCanonical(names)
    ensures Walk(at, names) == Some(at + names)
    decreases names
  {
    if names != [] {
      assert Canonical(names[0]);
      WalkOverNames(at + [names[0]], names[1..]);
      assert at + [names[0]] + names[1..] == at + names;
    } else {
      assert at + names == at;
    }
  }

  lemma {:induction false} JoinHasNoBackslash(names: seq<string>)
    requires AllCanonical(names)
    ensures '\\' !in Join(names)
  {
    if names != [] {
      assert Canonical(names[0]);
      if |names| > 1 { JoinHasNoBackslash(names[1..]); }
    }
  }

  /** A rendered path walks to the node it was rendered from, and normalises to itself. */
  lemma RenderWalksBack(names: seq<string>)
    requires AllCanonical(names)
    ensures Walk([], Split(Render(names))) == Some(names)
    ensures Normalized(Render(names)) == Ok(Render(names))
  {
    JoinHasNoBackslash(names);
    NothingToCollapse(Render(names));
    SplitHead("", Join(names));
    assert "" + "/" + Join(names) == Render(names);
    if names == [] {
      assert Split("") == [""];
      assert Walk([], [""]) == Walk([], [""][1..]);
      assert ["", ""][1..] == [""];
    } else {
      SplitJoin(names);
      WalkOverNames([], names);
      assert ([""] + names)[1..] == names;
      assert [] + names == names;
    }
  }

  /** Normalisation succeeds exactly on absolute paths without NUL whose prefixes never climb above
      the root. Its result walks to the very node the raw segments walk to, and is a fixed point. */
  lemma NormalizedDenotesSameNode(input: string)
    ensures var cleaned := CollapseBackslashes(input, false);
      && (Normalized(input).Ok? <==> "/" <= cleaned && Stays(Split(cleaned)))
      && (Normalized(input).Ok? ==>
            var path := Normalized(input).value;
            && Walk([], Split(path)) == Walk([], Split(cleaned)) && Walk([], Split(cleaned)).Some?
            && AllCanonical(Walk([], Split(cleaned)).value) && path == Render(Walk([], Split(cleaned)).value)
            && Normalized(path) == Ok(path))
      && (Normalized(input).Err? ==>
            Normalized(input).error == if "/" <= cleaned then InvalidPath else AbsolutePathRequired)
  {
    var cleaned := CollapseBackslashes(input, false);
    WalkSucceedsIffStays(Split(cleaned));
    if Normalized(input).Ok? {
      CollapsedHasNoBackslash(input, false);
      SplitHasNoSlashes(cleaned);
      WalkIsCanonical([], Split(cleaned));
      RenderWalksBack(Walk([], Split(cleaned)).value);
    }
  }

  // ---------------------------------------------------------------- the same, said of paths

  lemma StartsAlike(head: string, x: string, y: string)
    ensures "/" <= head + "/" + x <==> "/" <= head + "/" + y
  {
    if head != "" {
      assert (head + "/" + x)[0] == head[0] == (head + "/" + y)[0];
    }
  }

  /** What stands between two slashes makes no difference if the walk over it makes none. */
  lemma SegmentsCancel(a: string, middle: string, segments: seq<string>, b: string)
    requires CollapseBackslashes(middle, false) == middle && Split(middle) == segments
    requires forall at, before, after: seq<string> :: Walk(at, before + (segments + after)) == Walk(at, before + after)
    ensures Normalized(a + "/" + (middle + "/" + b)) == Normalized(a + "/" + b)
  {
    var ca, cb := CollapseBackslashes(a, false), CollapseBackslashes(b, false);
    CollapseAtSlash(a, middle + "/" + b, false);
    CollapseAtSlash(middle, b, false);
    CollapseAtSlash(a, b, false);
    SplitConcat(ca, middle + "/" + cb);
    SplitConcat(middle, cb);
    SplitConcat(ca, cb);
    StartsAlike(ca, middle + "/" + cb, cb);
    assert Walk([], Split(ca) + (segments + Split(cb))) == Walk([], Split(ca) + Split(cb));
  }

  lemma NameAndParentSplit(name: string)
    requires Canonical(name)
    ensures CollapseBackslashes(name + "/" + "..", false) == name + "/" + ".." && Split(name + "/" + "..") == [name, ".."]
  {
    NothingToCollapse(name + "/" + "..");
    SplitHead(name, "..");
    SplitName("..");
  }

  /** In a path, a name and the `..` behind it may be left out, wherever they stand. */
  lemma ParentGoesUp(a: string, name: string, b: string)
    requires Canonical(name)
    ensures Normalized(a + "/" + ((name + "/" + "..") + "/" + b)) == Normalized(a + "/" + b)
  {
    NameAndParentSplit(name);
    forall at, before, after: seq<string> ensures Walk(at, before + ([name, ".."] + after)) == Walk(at, before + after) {
      NameAndParentCancel(at, before, name, after);
    }
    SegmentsCancel(a, name + "/" + "..", [name, ".."], b);
  }

  /** So may `.` and repeated slashes. */
  lemma StayingGoesNowhere(a: string, segment: string, b: string)
    requires segment == "" || segment == "."
    ensures Normalized(a + "/" + (segment + "/" + b)) == Normalized(a + "/" + b)
  {
    NothingToCollapse(segment);
    SplitName(segment);
    forall at, before, after: seq<string> ensures Walk(at, before + ([segment] + after)) == Walk(at, before + after) {
      StayingCancels(at, before, segment, after);
    }
    SegmentsCancel(a, segment, [segment], b);
  }

  /** Nothing is above the root. */
  lemma ClimbingAboveTheRootFails(b: string)
    ensures Normalized("/../" + b) == Err(InvalidPath)
  {
    var cb := CollapseBackslashes(b, false);
    assert "/../" + b == "" + "/" + (".." + "/" + b);
    CollapseAtSlash("", ".." + "/" + b, false);
    CollapseAtSlash("..", b, false);
    NothingToCollapse("..");
    SplitHead("", ".." + "/" + cb);
    SplitHead("..", cb);
    assert "" + "/" + (".." + "/" + cb) == "/" + (".." + "/" + cb);
    StayingCancels([], [], "", [".."] + Split(cb));
    RootHasNoParent(Split(cb));
    assert [] + ([""] + ([".."] + Split(cb))) == [""] + ([".."] + Split(cb)) && [] + ([".."] + Split(cb)) == [".."] + Split(cb);
  }

  lemma {:induction false} CollapseRun(run: string, b: string, inRun: bool)
    requires run != "" && (forall i :: 0 <= i < |run| ==> run[i] == '\\') && (b == "" || b[0] != '\\')
    ensures CollapseBackslashes(run + b, inRun) == (if inRun then "" else "/") + CollapseBackslashes(b, false)
  {
    assert (run + b)[1..] == run[1..] + b;
    if |run| == 1 {
      assert run[1..] + b == b;
    } else {
      CollapseRun(run[1..], b, true);
    }
  }

  lemma {:induction false} CollapseConcat(a: string, b: string, inRun: bool)
    requires a != "" && a[|a| - 1] != '\\'
    ensures CollapseBackslashes(a + b, inRun) == CollapseBackslashes(a, inRun) + CollapseBackslashes(b, false)
  {
    assert (a + b)[1..] == a[1..] + b;
    if |a| == 1 {
      assert a[1..] + b == b;
    } else {
      CollapseConcat(a[1..], b, a[0] == '\\');
    }
  }

  /** A run of backslashes is a slash. */
  lemma BackslashesAreASlash(a: string, run: string, b: string)
    requires run != "" && (forall i :: 0 <= i < |run| ==> run[i] == '\\')
    requires (a == "" || a[|a| - 1] != '\\') && (b == "" || b[0] != '\\')
    ensures Normalized(a + (run + b)) == Normalized(a + "/" + b)
  {
    CollapseAtSlash(a, b, false);
    CollapseRun(run, b, false);
    if a == "" {
      assert a + (run + b) == run + b && a + "/" + b == "/" + b;
    } else {
      CollapseConcat(a, run + b, false);
      var ca, cb := CollapseBackslashes(a, false), CollapseBackslashes(b, false);
      assert ca + ("/" + cb) == ca + "/" + cb;
    }
  }

  // ---------------------------------------------------------------- the mount

  datatype ResolvedPath = ResolvedPath(absolutePath: string, relativePath: string)

  function NormalizeAndClampPath(mountRoot: string, input: string): Result<ResolvedPath, PathError> {
    match Normalized(mountRoot)
    case Err(e) => Err(e)
    case Ok(root) =>
      match Normalized(input)
      case Err(e) => Err(e)
      case Ok(path) =>
        if path == root then Ok(ResolvedPath(root, ""))
        else
          var rootPrefix := if root != "" && root[|root| - 1] == '/' then root else root + "/";
          if rootPrefix <= path then Ok(ResolvedPath(path, path[|rootPrefix|..])) else Err(OutsideMountRoot)
  }

  function AssertAllowedMountPrefix(input: string): Result<ResolvedPath, PathError> {
    match Normalized(input)
    case Err(e) => Err(e)
    case Ok(path) =>
      if path != WORKSPACE_MOUNT_ROOT && !(WORKSPACE_MOUNT_ROOT + "/" <= path) then Err(OutsideAllowedMount)
      else NormalizeAndClampPath(WORKSPACE_MOUNT_ROOT, path)
  }

  lemma {:induction false} JoinConcat(a: seq<string>, b: seq<string>)
    requires a != [] && b != []
    ensures Join(a + b) == Join(a) + "/" + Join(b)
  {
    assert (a + b)[1..] == a[1..] + b;
    if |a| > 1 {
      JoinConcat(a[1..], b);
      assert Join(a + b) == a[0] + "/" + (Join(a[1..]) + "/" + Join(b));
      assert Join(a) == a[0] + "/" + Join(a[1..]);
    }
  }

  /** String prefixes of rendered paths are prefixes of names: no name is cut in two. */
  lemma PrefixIsSubtree(d: seq<string>, p: seq<string>)
    requires d != [] && AllCanonical(d) && AllCanonical(p)
    ensures Join(d) + "/" <= Join(p) <==> d < p
    ensures Join(d) == Join(p) <==> d == p
  {
    SplitJoin(d);
    assert Canonical(d[0]);
    if p != [] {
      SplitJoin(p);
      if Join(d) + "/" <= Join(p) {
        var tail := Join(p)[|Join(d) + "/"|..];
        assert Join(p) == Join(d) + "/" + tail;
        SplitConcat(Join(d), tail);
      }
      if d < p {
        JoinConcat(d, p[|d|..]);
        assert d + p[|d|..] == p;
      }
    } else {
      assert Split("") == [""];
    }
  }

  lemma SubtreeOfRender(root: seq<string>, path: seq<string>)
    requires root != [] && AllCanonical(root) && AllCanonical(path)
    ensures Render(root) + "/" <= Render(path) <==> root < path
    ensures Render(root) == Render(path) <==> root == path
    ensures root < path ==> Render(path)[|Render(root) + "/"|..] == Join(path[|root|..])
    ensures Render(root)[|Render(root)| - 1] != '/'
  {
    PrefixIsSubtree(root, path);
    assert Render(root)[1..] == Join(root) && Render(path)[1..] == Join(path);
    assert Render(root) + "/" <= Render(path) <==> Join(root) + "/" <= Join(path) by {
      assert Render(root) + "/" == "/" + (Join(root) + "/");
    }
    LastOfJoin(root);
    if root < path {
      JoinConcat(root, path[|root|..]);
      assert root + path[|root|..] == path;
      assert Render(path) == (Render(root) + "/") + Join(path[|root|..]);
    }
  }

  lemma {:induction false} LastOfJoin(names: seq<string>)
    requires names != [] && AllCanonical(names)
    ensures Join(names) != "" && Join(names)[|Join(names)| - 1] != '/'
  {
    assert Canonical(names[0]);
    if |names| > 1 { LastOfJoin(names[1..]); }
  }

  /** Clamping to any mount root accepts exactly the paths at the root or below it, and returns the way
      from the root to the path. */
  lemma ClampIsExact(mountRoot: string, input: string, root: seq<string>, path: seq<string>)
    requires AllCanonical(root) && AllCanonical(path)
    requires Normalized(mountRoot) == Ok(Render(root)) && Normalized(input) == Ok(Render(path))
    ensures NormalizeAndClampPath(mountRoot, input)
         == if root <= path then Ok(ResolvedPath(Render(path), Join(path[|root|..]))) else Err(OutsideMountRoot)
  {
    if root == [] {
      assert Render(root) == "/" && Render(path)[1..] == Join(path) && path[0..] == path;
      if path != [] { LastOfJoin(path); }
    } else {
      SubtreeOfRender(root, path);
      assert root <= path <==> root == path || root < path;
    }
  }

  /** The mount check accepts exactly the paths whose walk goes through `workspace` at the root. It
      returns the mount itself, or the path below it in canonical form, and checking that again
      changes nothing. */
  lemma MountCheckIsExact(input: string)
    ensures match Normalized(input)
            case Err(e) => AssertAllowedMountPrefix(input) == Err(e)
            case Ok(path) =>
              var names := Walk([], Split(CollapseBackslashes(input, false))).value;
              if names == [] || names[0] != "workspace" then AssertAllowedMountPrefix(input) == Err(OutsideAllowedMount)
              else && AssertAllowedMountPrefix(input) == Ok(ResolvedPath(path, Join(names[1..]))) && AllCanonical(names[1..])
                   && (if |names| == 1 then path == WORKSPACE_MOUNT_ROOT else path == WORKSPACE_MOUNT_ROOT + "/" + Join(names[1..]))
                   && AssertAllowedMountPrefix(path) == AssertAllowedMountPrefix(input)
  {
    NormalizedDenotesSameNode(input);
    if Normalized(input).Ok? {
      var names := Walk([], Split(CollapseBackslashes(input, false))).value;
      UnderMount(names);
      RenderWalksBack(names);
      MountIsNormal();
    }
  }

  lemma MountIsNormal()
    ensures Normalized(WORKSPACE_MOUNT_ROOT) == Ok(WORKSPACE_MOUNT_ROOT)
  {
    assert AllCanonical(["workspace"]) && Render(["workspace"]) == WORKSPACE_MOUNT_ROOT;
    RenderWalksBack(["workspace"]);
  }

  lemma UnderMount(names: seq<string>)
    requires AllCanonical(names)
    ensures Render(names) == WORKSPACE_MOUNT_ROOT <==> names == ["workspace"]
    ensures WORKSPACE_MOUNT_ROOT + "/" <= Render(names) <==> |names| > 1 && names[0] == "workspace"
    ensures |names| > 1 && names[0] == "workspace" ==> Render(names) == WORKSPACE_MOUNT_ROOT + "/" + Join(names[1..])
  {
    var mount := ["workspace"];
    assert Canonical("workspace") && Join(mount) == "workspace";
    PrefixIsSubtree(mount, names);
    var path := Render(names);
    assert path[1..] == Join(names);
    assert WORKSPACE_MOUNT_ROOT == "/" + "workspace";
    assert WORKSPACE_MOUNT_ROOT + "/" <= path <==> "workspace" + "/" <= path[1..];
    assert mount < names <==> |names| > 1 && names[0] == "workspace";
  }
}

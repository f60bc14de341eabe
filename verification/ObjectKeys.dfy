/** Object keys of persisted workspace paths, and the prefixes that bulk deletes and listings use.
    `base` is the configured media prefix, already trimmed. */
module ObjectKeys {
  import opened Wrappers
  import opened WorkspacePath

  function StripLeadingSlashes(s: string): string {
    if s != "" && s[0] == '/' then StripLeadingSlashes(s[1..]) else s
  }

  function StripTrailingSlashes(s: string): string {
    if s != "" && s[|s| - 1] == '/' then StripTrailingSlashes(s[..|s| - 1]) else s
  }

  /** Drops a leading `/workspace` and one slash behind it. */
  function StripMount(path: string): string {
    if WORKSPACE_MOUNT_ROOT + "/" <= path then path[|WORKSPACE_MOUNT_ROOT| + 1..]
    else if WORKSPACE_MOUNT_ROOT <= path then path[|WORKSPACE_MOUNT_ROOT|..]
    else path
  }

  function WorkspaceBase(base: string, workspaceId: string): string {
    base + "/workspaces/" + workspaceId + "/workspace/"
  }

  function BuildWorkspaceObjectKey(base: string, workspaceId: string, path: string): string {
    WorkspaceBase(base, workspaceId) + CollapseBackslashes(StripLeadingSlashes(StripMount(path)), false)
  }

  function BuildWorkspacePrefix(base: string, workspaceId: string, subPath: Option<string>): string {
    WorkspaceBase(base, workspaceId) +
    (if subPath.None? then "" else StripTrailingSlashes(StripLeadingSlashes(subPath.value)) + "/")
  }

  /** A normalised path strictly below the mount, by the names below `workspace`. */
  predicate Below(names: seq<string>) {
    names != [] && AllCanonical(names)
  }

  function PathOf(names: seq<string>): string {
    WORKSPACE_MOUNT_ROOT + "/" + Join(names)
  }

  lemma JoinedNamesAreBare(names: seq<string>)
    requires Below(names)
    ensures Join(names) != "" && Join(names)[0] != '/' && Join(names)[|Join(names)| - 1] != '/' && '\\' !in Join(names)
    decreases names
  {
    assert Canonical(names[0]);
    JoinHasNoBackslash(names);
    if |names| > 1 { JoinedNamesAreBare(names[1..]); }
  }

  lemma KeyOfPath(base: string, workspaceId: string, names: seq<string>)
    requires Below(names)
    ensures StripMount(PathOf(names)) == Join(names)
    ensures BuildWorkspaceObjectKey(base, workspaceId, PathOf(names)) == WorkspaceBase(base, workspaceId) + Join(names)
    ensures BuildWorkspacePrefix(base, workspaceId, Some(StripMount(PathOf(names)))) == WorkspaceBase(base, workspaceId) + (Join(names) + "/")
  {
    JoinedNamesAreBare(names);
    NothingToCollapse(Join(names));
    assert PathOf(names)[|WORKSPACE_MOUNT_ROOT| + 1..] == Join(names);
  }

  /** The key of a normalised path, written out; it continues the prefix of its workspace. */
  lemma KeyLayout(base: string, workspaceId: string, names: seq<string>)
    requires Below(names)
    ensures BuildWorkspaceObjectKey(base, workspaceId, PathOf(names)) == base + "/workspaces/" + workspaceId + "/workspace/" + Join(names)
    ensures BuildWorkspaceObjectKey(base, workspaceId, PathOf(names)) == BuildWorkspacePrefix(base, workspaceId, None) + Join(names)
  {
    KeyOfPath(base, workspaceId, names);
    assert BuildWorkspacePrefix(base, workspaceId, None) == WorkspaceBase(base, workspaceId);
  }

  lemma {:induction false} StripSlashes(slashes: string, s: string)
    requires forall i :: 0 <= i < |slashes| ==> slashes[i] == '/'
    ensures StripLeadingSlashes(slashes + s) == StripLeadingSlashes(s)
    ensures StripTrailingSlashes(s + slashes) == StripTrailingSlashes(s)
    decreases |slashes|
  {
    if slashes == "" {
      assert slashes + s == s && s + slashes == s;
    } else {
      assert (slashes + s)[1..] == slashes[1..] + s;
      assert (s + slashes)[..|s + slashes| - 1] == s + slashes[..|slashes| - 1];
      StripSlashes(slashes[1..], s);
      StripSlashes(slashes[..|slashes| - 1], s);
    }
  }

  /** Slashes around a sub-path make no difference to its prefix. */
  lemma OuterSlashesAreIgnored(base: string, workspaceId: string, before: string, names: seq<string>, behind: string)
    requires Below(names) && (forall i :: 0 <= i < |before| ==> before[i] == '/') && (forall i :: 0 <= i < |behind| ==> behind[i] == '/')
    ensures BuildWorkspacePrefix(base, workspaceId, Some(before + (Join(names) + behind)))
         == base + "/workspaces/" + workspaceId + "/workspace/" + (Join(names) + "/")
  {
    JoinedNamesAreBare(names);
    StripSlashes(before, Join(names) + behind);
    assert (Join(names) + behind)[0] == Join(names)[0];
    StripSlashes(behind, Join(names));
  }

  // ---------------------------------------------------------------- workspaces do not mix

  lemma CommonPrefixCancels(a: string, x: string, y: string)
    ensures a + x <= a + y <==> x <= y
  {
    assert (a + x)[|a|..] == x && (a + y)[|a|..] == y;
    if x <= y { assert (a + y)[..|a + x|] == a + y[..|x|]; }
    if a + x <= a + y { assert y[..|x|] == (a + y)[|a|..|a + x|]; }
  }

  /** Of two keys whose workspace ids contain no slash, one can only begin like the other if the
      workspaces are the same. */
  lemma WorkspaceIdIsDelimited(base: string, u: string, x: string, v: string, y: string)
    requires '/' !in u && '/' !in v
    ensures WorkspaceBase(base, u) + x <= WorkspaceBase(base, v) + y <==> u == v && x <= y
  {
    var head := base + "/workspaces/";
    var tail := "/workspace/";
    assert WorkspaceBase(base, u) + x == head + (u + (tail + x));
    assert WorkspaceBase(base, v) + y == head + (v + (tail + y));
    CommonPrefixCancels(head, u + (tail + x), v + (tail + y));
    if u == v {
      CommonPrefixCancels(u, tail + x, tail + y);
      CommonPrefixCancels(tail, x, y);
    } else if u + (tail + x) <= v + (tail + y) {
      FirstSlash(u, tail + x, v, tail + y);
    }
  }

  lemma FirstSlash(u: string, x: string, v: string, y: string)
    requires '/' !in u && '/' !in v && x != "" && y != "" && x[0] == '/' && y[0] == '/' && u + x <= v + y
    ensures u == v
  {
    var s := v + y;
    assert (u + x)[|u|] == '/' == s[|u|];
    assert s[|v|] == '/';
    assert forall i :: 0 <= i < |u| ==> s[i] == u[i] && u[i] != '/';
    assert forall i :: 0 <= i < |v| ==> s[i] == v[i] && v[i] != '/';
    assert u == s[..|u|] && v == s[..|v|];
  }

  // ---------------------------------------------------------------- keys mirror the tree

  /** Keys of normalised workspace paths are injective. */
  lemma KeysAreInjective(base: string, u: string, p: seq<string>, v: string, q: seq<string>)
    requires '/' !in u && '/' !in v && Below(p) && Below(q)
    ensures BuildWorkspaceObjectKey(base, u, PathOf(p)) == BuildWorkspaceObjectKey(base, v, PathOf(q)) <==> u == v && p == q
  {
    KeyOfPath(base, u, p);
    KeyOfPath(base, v, q);
    PrefixIsSubtree(p, q);
    if WorkspaceBase(base, u) + Join(p) == WorkspaceBase(base, v) + Join(q) {
      WorkspaceIdIsDelimited(base, u, Join(p), v, Join(q));
      CommonPrefixCancels(WorkspaceBase(base, u), Join(q), Join(p));
    }
  }

  /** The prefix built for a subtree matches the key of a path exactly when the workspace is the same
      and the path lies strictly below the root of the subtree. */
  lemma PrefixMatchesExactlySubtree(base: string, u: string, d: seq<string>, v: string, p: seq<string>)
    requires '/' !in u && '/' !in v && Below(d) && Below(p)
    ensures BuildWorkspacePrefix(base, u, Some(StripMount(PathOf(d)))) <= BuildWorkspaceObjectKey(base, v, PathOf(p)) <==> u == v && d < p
  {
    KeyOfPath(base, u, d);
    KeyOfPath(base, v, p);
    WorkspaceIdIsDelimited(base, u, Join(d) + "/", v, Join(p));
    PrefixIsSubtree(d, p);
  }

  /** Without a sub-path the prefix matches every key of the workspace; an empty sub-path is not the
      same thing and matches none. */
  lemma WholeWorkspacePrefix(base: string, u: string, v: string, p: seq<string>)
    requires '/' !in u && '/' !in v && Below(p)
    ensures BuildWorkspacePrefix(base, u, None) <= BuildWorkspaceObjectKey(base, v, PathOf(p)) <==> u == v
    ensures !(BuildWorkspacePrefix(base, u, Some("")) <= BuildWorkspaceObjectKey(base, v, PathOf(p)))
  {
    KeyOfPath(base, v, p);
    JoinedNamesAreBare(p);
    assert BuildWorkspacePrefix(base, u, None) == WorkspaceBase(base, u) + "";
    WorkspaceIdIsDelimited(base, u, "", v, Join(p));
    WorkspaceIdIsDelimited(base, u, "/", v, Join(p));
  }
}

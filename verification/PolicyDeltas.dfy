/** What a job added to the workspace, charged to ordinary files or to installed dependencies. */
module PolicyDeltas {

  datatype Kind = File | Directory

  datatype Entry = Entry(path: string, kind: Kind, sizeBytes: nat)

  datatype Delta = Delta(addedFileCount: nat, addedDirectoryCount: nat, addedBytes: nat)

  datatype Metric = Files | Directories | Bytes

  /** One component of what a new entry costs. */
  function Charge(e: Entry, m: Metric): nat {
    match m
    case Files => if e.kind.File? then 1 else 0
    case Directories => if e.kind.Directory? then 1 else 0
    case Bytes => if e.kind.File? then e.sizeBytes else 0
  }

  /** Which entries are charged: all that are new since the baseline, or those on one side only. */
  datatype Scope = AllNew(baseline: set<string>) | OneSide(baseline: set<string>, dependencies: set<string>, dependency: bool)

  predicate Counts(e: Entry, s: Scope) {
    e.path !in s.baseline && (s.OneSide? ==> (e.path in s.dependencies <==> s.dependency))
  }

  function Total(entries: seq<Entry>, s: Scope, m: Metric): nat {
    if entries == [] then 0
    else Total(entries[..|entries| - 1], s, m) +
         (if Counts(entries[|entries| - 1], s) then Charge(entries[|entries| - 1], m) else 0)
  }

  function TotalDelta(entries: seq<Entry>, s: Scope): Delta {
    Delta(Total(entries, s, Files), Total(entries, s, Directories), Total(entries, s, Bytes))
  }

  /** buildWorkspacePolicyDeltas over the entries in the order the snapshot yields them.
      `dependencies` are the paths under the session's dependency directories; outside a session it
      is empty. */
  method BuildWorkspacePolicyDeltas(snapshot: seq<Entry>, baseline: set<string>, dependencies: set<string>)
    returns (ordinary: Delta, dependency: Delta)
    ensures ordinary == TotalDelta(snapshot, OneSide(baseline, dependencies, false))
    ensures dependency == TotalDelta(snapshot, OneSide(baseline, dependencies, true))
  {
    ordinary, dependency := Delta(0, 0, 0), Delta(0, 0, 0);
    for i := 0 to |snapshot|
      invariant ordinary == TotalDelta(snapshot[..i], OneSide(baseline, dependencies, false))
      invariant dependency == TotalDelta(snapshot[..i], OneSide(baseline, dependencies, true))
    {
      var entry := snapshot[i];
      assert snapshot[..i + 1][..i] == snapshot[..i];
      if entry.path in baseline {
        continue;
      }
      var target := if entry.path in dependencies then dependency else ordinary;
      if entry.kind.Directory? {
        target := target.(addedDirectoryCount := target.addedDirectoryCount + 1);
      } else {
        target := target.(addedFileCount := target.addedFileCount + 1, addedBytes := target.addedBytes + entry.sizeBytes);
      }
      if entry.path in dependencies {
        dependency := target;
      } else {
        ordinary := target;
      }
    }
    assert snapshot[..|snapshot|] == snapshot;
  }

  /** One more entry costs nothing if its path was there before or belongs to the other side; else a file
      costs one file and its bytes, a directory one directory. */
  lemma OneMoreEntry(snapshot: seq<Entry>, e: Entry, baseline: set<string>, dependencies: set<string>, dependency: bool)
    ensures TotalDelta([], OneSide(baseline, dependencies, dependency)) == Delta(0, 0, 0)
    ensures var before, after := TotalDelta(snapshot, OneSide(baseline, dependencies, dependency)),
                                 TotalDelta(snapshot + [e], OneSide(baseline, dependencies, dependency));
      after == if e.path in baseline || (e.path in dependencies) != dependency then before
               else if e.kind.File? then Delta(before.addedFileCount + 1, before.addedDirectoryCount, before.addedBytes + e.sizeBytes)
               else Delta(before.addedFileCount, before.addedDirectoryCount + 1, before.addedBytes)
  {
    assert (snapshot + [e])[..|snapshot|] == snapshot;
  }

  /** Outside a session nothing is charged to dependencies. */
  lemma {:induction false} NoSessionNoDependencies(snapshot: seq<Entry>, baseline: set<string>, m: Metric)
    ensures Total(snapshot, OneSide(baseline, {}, true), m) == 0
    ensures Total(snapshot, OneSide(baseline, {}, false), m) == Total(snapshot, AllNew(baseline), m)
  {
    if snapshot != [] { NoSessionNoDependencies(snapshot[..|snapshot| - 1], baseline, m); }
  }

  /** In every component the two sides add up to exactly what is new since the baseline. */
  lemma {:induction false} SidesPartitionTheChange(snapshot: seq<Entry>, baseline: set<string>, dependencies: set<string>, m: Metric)
    ensures Total(snapshot, OneSide(baseline, dependencies, false), m) + Total(snapshot, OneSide(baseline, dependencies, true), m)
            == Total(snapshot, AllNew(baseline), m)
  {
    if snapshot != [] {
      SidesPartitionTheChange(snapshot[..|snapshot| - 1], baseline, dependencies, m);
    }
  }

  lemma {:induction false} TotalOfConcat(a: seq<Entry>, b: seq<Entry>, s: Scope, m: Metric)
    ensures Total(a + b, s, m) == Total(a, s, m) + Total(b, s, m)
    decreases |b|
  {
    if b == [] {
      assert a + b == a;
    } else {
      assert (a + b)[..|a + b| - 1] == a + b[..|b| - 1];
      TotalOfConcat(a, b[..|b| - 1], s, m);
    }
  }

  function Cost(x: Entry, s: Scope, m: Metric): nat {
    if Counts(x, s) then Charge(x, m) else 0
  }

  /** Takes one occurrence of `x` out of `b`. */
  lemma TakeOut(b: seq<Entry>, x: Entry, s: Scope, m: Metric) returns (c: seq<Entry>)
    requires x in b
    ensures multiset(b) == multiset(c) + multiset{x} && Total(b, s, m) == Total(c, s, m) + Cost(x, s, m)
  {
    var i :| 0 <= i < |b| && b[i] == x;
    var front, back := b[..i], b[i + 1..];
    c := front + back;
    assert b == front + [x] + back;
    TotalOfConcat(front + [x], back, s, m);
    TotalOfConcat(front, back, s, m);
    assert (front + [x])[..i] == front;
  }

  lemma Cancel(a: seq<Entry>, b: seq<Entry>, x: Entry)
    requires multiset(a + [x]) == multiset(b) + multiset{x}
    ensures multiset(a) == multiset(b)
  {
    assert multiset(a) == multiset(a + [x]) - multiset{x};
    assert multiset(b) == multiset(b) + multiset{x} - multiset{x};
  }

  /** The charge does not depend on the order in which the snapshot yields its entries. */
  lemma {:induction false} OrderDoesNotMatter(a: seq<Entry>, b: seq<Entry>, s: Scope, m: Metric)
    requires multiset(a) == multiset(b)
    ensures Total(a, s, m) == Total(b, s, m)
    decreases |a|
  {
    if a == [] {
      assert |multiset(b)| == 0;
    } else {
      var init, x := a[..|a| - 1], a[|a| - 1];
      assert a == init + [x];
      assert x in multiset(b);
      var c := TakeOut(b, x, s, m);
      Cancel(init, c, x);
      OrderDoesNotMatter(init, c, s, m);
    }
  }
}

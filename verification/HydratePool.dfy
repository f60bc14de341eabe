/** The pools of workers that pull persisted objects into a pod, one pool per prefix. Workers share an
    index and a counter and interleave at their awaits. */
module HydratePool {
  import opened Numbers

  const WORKSPACE_MOUNT_HYDRATE_CONCURRENCY := 12

  /** How the attempt on one object ends: its file is in the pod; the command that writes it ended with an
      exit code other than 0, which is only logged, and the file is not there in full; or the download or
      the call failed. */
  datatype Attempt = Stored | WriteLogged | Failed
  {
    /** What the attempt returns to its worker. */
    predicate Returns() { !Failed? }
  }

  datatype Worker = Ready | Busy(index: nat) | Finished

  function CountTrue(outcome: seq<Attempt>): (n: nat)
    ensures n <= |outcome|
    ensures n == |outcome| <==> forall i :: 0 <= i < |outcome| ==> outcome[i].Returns()
  {
    if outcome == [] then 0
    else CountTrue(outcome[..|outcome| - 1]) + (if outcome[|outcome| - 1].Returns() then 1 else 0)
  }

  /** Successes of attempts that are still running. */
  function Outstanding(workers: seq<Worker>, outcome: seq<Attempt>): nat {
    if workers == [] then 0
    else Outstanding(workers[..|workers| - 1], outcome) + Gain(workers[|workers| - 1], outcome)
  }

  function Gain(w: Worker, outcome: seq<Attempt>): nat {
    if w.Busy? && w.index < |outcome| && outcome[w.index].Returns() then 1 else 0
  }

  function Effort(workers: seq<Worker>): nat {
    if workers == [] then 0
    else Effort(workers[..|workers| - 1]) + (match workers[|workers| - 1] case Ready => 1 case Busy(_) => 2 case Finished => 0)
  }

  lemma {:induction false} UpdateChangesOneTerm(workers: seq<Worker>, i: nat, w: Worker, outcome: seq<Attempt>)
    requires i < |workers|
    ensures Outstanding(workers[i := w], outcome) == Outstanding(workers, outcome) - Gain(workers[i], outcome) + Gain(w, outcome)
    ensures Effort(workers[i := w]) == Effort(workers) - Effort([workers[i]]) + Effort([w])
  {
    var n := |workers| - 1;
    assert [workers[i]][..0] == [] && [w][..0] == [];
    if i == n {
      assert workers[i := w][..n] == workers[..n];
    } else {
      UpdateChangesOneTerm(workers[..n], i, w, outcome);
      assert workers[i := w][..n] == workers[..n][i := w];
    }
  }

  lemma {:induction false} IdleMeansNothingOutstanding(workers: seq<Worker>, outcome: seq<Attempt>)
    requires forall i :: 0 <= i < |workers| ==> !workers[i].Busy?
    ensures Outstanding(workers, outcome) == 0
  {
    if workers != [] { IdleMeansNothingOutstanding(workers[..|workers| - 1], outcome); }
  }

  /** The variables the workers share, where each worker stands, and the files in the pod. */
  datatype Pool = Pool(nextIndex: nat, workers: seq<Worker>, attempts: seq<nat>, hydrated: nat, files: set<nat>)

  predicate PoolOk(p: Pool, outcome: seq<Attempt>) {
    && p.attempts == seq(|p.attempts|, i => i) && |p.attempts| == Min(p.nextIndex, |outcome|)
    && p.hydrated + Outstanding(p.workers, outcome) == CountTrue(outcome[..|p.attempts|])
    && (forall w :: 0 <= w < |p.workers| && p.workers[w].Finished? ==> p.nextIndex > |outcome|)
    && (forall w :: 0 <= w < |p.workers| && p.workers[w].Busy? ==> p.workers[w].index < |p.attempts|)
  }

  /** A file is in the pod once the attempt that stores it has ended, and not otherwise. */
  predicate FilesOk(p: Pool, outcome: seq<Attempt>) {
    && |p.attempts| <= |outcome|
    && (forall i :: i in p.files ==> i < |p.attempts| && outcome[i].Stored?)
    && (forall i :: 0 <= i < |p.attempts| && outcome[i].Stored? && i !in p.files ==> InProgress(p.workers, i))
  }

  predicate InProgress(workers: seq<Worker>, i: nat) {
    exists w :: 0 <= w < |workers| && workers[w] == Busy(i)
  }

  function Remaining(p: Pool, outcome: seq<Attempt>): int {
    3 * (|outcome| - |p.attempts|) + Effort(p.workers)
  }

  predicate Progress(p: Pool, p': Pool, outcome: seq<Attempt>) {
    PoolOk(p', outcome) && FilesOk(p', outcome) && |p'.workers| == |p.workers| && Remaining(p', outcome) < Remaining(p, outcome)
  }

  lemma TakingATarget(p: Pool, w: nat, outcome: seq<Attempt>)
    requires PoolOk(p, outcome) && FilesOk(p, outcome) && w < |p.workers| && p.workers[w].Ready? && p.nextIndex < |outcome|
    ensures Progress(p, Pool(p.nextIndex + 1, p.workers[w := Busy(p.nextIndex)], p.attempts + [p.nextIndex], p.hydrated, p.files), outcome)
  {
    UpdateChangesOneTerm(p.workers, w, Busy(p.nextIndex), outcome);
    assert outcome[..p.nextIndex + 1][..p.nextIndex] == outcome[..p.nextIndex];
    OthersStayBusy(p, w, Busy(p.nextIndex), outcome);
    assert p.workers[w := Busy(p.nextIndex)][w] == Busy(p.nextIndex);
  }

  /** Whatever worker `w` turns to, the files that others work on are still being worked on. */
  lemma OthersStayBusy(p: Pool, w: nat, next: Worker, outcome: seq<Attempt>)
    requires FilesOk(p, outcome) && w < |p.workers|
    ensures forall i :: 0 <= i < |p.attempts| && outcome[i].Stored? && i !in p.files && p.workers[w] != Busy(i) ==>
              InProgress(p.workers[w := next], i)
  {
    forall i | 0 <= i < |p.attempts| && outcome[i].Stored? && i !in p.files && p.workers[w] != Busy(i)
      ensures InProgress(p.workers[w := next], i)
    {
      var v :| 0 <= v < |p.workers| && p.workers[v] == Busy(i);
      assert p.workers[w := next][v] == Busy(i);
    }
  }

  lemma FindingNoTarget(p: Pool, w: nat, outcome: seq<Attempt>)
    requires PoolOk(p, outcome) && FilesOk(p, outcome) && w < |p.workers| && p.workers[w].Ready? && p.nextIndex >= |outcome|
    ensures Progress(p, Pool(p.nextIndex + 1, p.workers[w := Finished], p.attempts, p.hydrated, p.files), outcome)
  {
    UpdateChangesOneTerm(p.workers, w, Finished, outcome);
    OthersStayBusy(p, w, Finished, outcome);
  }

  lemma CompletingATarget(p: Pool, w: nat, outcome: seq<Attempt>)
    requires PoolOk(p, outcome) && FilesOk(p, outcome) && w < |p.workers| && p.workers[w].Busy?
    ensures p.workers[w].index < |outcome|
    ensures var attempt := outcome[p.workers[w].index];
      Progress(p, Pool(p.nextIndex, p.workers[w := Ready], p.attempts, if attempt.Returns() then p.hydrated + 1 else p.hydrated,
                       if attempt.Stored? then p.files + {p.workers[w].index} else p.files), outcome)
  {
    UpdateChangesOneTerm(p.workers, w, Ready, outcome);
    OthersStayBusy(p, w, Ready, outcome);
  }

  function StoredOf(outcome: seq<Attempt>): set<nat> {
    set i: nat | i < |outcome| && outcome[i].Stored?
  }

  lemma PoolIsDone(p: Pool, outcome: seq<Attempt>)
    requires PoolOk(p, outcome) && FilesOk(p, outcome) && p.workers != []
    requires forall w :: 0 <= w < |p.workers| ==> p.workers[w].Finished?
    ensures p.attempts == seq(|outcome|, i => i) && p.hydrated == CountTrue(outcome) && p.files == StoredOf(outcome)
  {
    assert p.workers[0].Finished?;
    IdleMeansNothingOutstanding(p.workers, outcome);
    assert outcome[..|outcome|] == outcome;
  }

  /** Worker `w` goes on to its next await: it takes a target, finds none left, or notes what has become
      of its target. */
  method Continue(pool: Pool, w: nat, outcome: seq<Attempt>) returns (next: Pool)
    requires PoolOk(pool, outcome) && FilesOk(pool, outcome) && w < |pool.workers| && !pool.workers[w].Finished?
    ensures Progress(pool, next, outcome)
  {
    var nextIndex, hydratedObjectCount, files := pool.nextIndex, pool.hydrated, pool.files;
    match pool.workers[w]
    case Ready =>
      var currentIndex := nextIndex;
      nextIndex := nextIndex + 1;
      if currentIndex >= |outcome| {
        FindingNoTarget(pool, w, outcome);
        next := Pool(nextIndex, pool.workers[w := Finished], pool.attempts, hydratedObjectCount, files);
      } else {
        TakingATarget(pool, w, outcome);
        next := Pool(nextIndex, pool.workers[w := Busy(currentIndex)], pool.attempts + [currentIndex], hydratedObjectCount, files);
      }
    case Busy(index) =>
      CompletingATarget(pool, w, outcome);
      if outcome[index].Stored? {
        files := files + {index};
      }
      if outcome[index].Returns() {
        hydratedObjectCount := hydratedObjectCount + 1;
      }
      next := Pool(nextIndex, pool.workers[w := Ready], pool.attempts, hydratedObjectCount, files);
  }

  lemma PoolBegins(workerCount: nat, outcome: seq<Attempt>)
    ensures var pool := Pool(0, seq(workerCount, _ => Ready), [], 0, {}); PoolOk(pool, outcome) && FilesOk(pool, outcome)
  {
    IdleMeansNothingOutstanding(seq(workerCount, _ => Ready), outcome);
  }

  /** Runs the pool on the targets `0 .. |outcome|`; `outcome[i]` is how attempt `i` ends. Which
      unfinished worker continues next is arbitrary. Every target is attempted exactly once, the count
      is that of the attempts that returned true, and `files` is what has got into the pod. */
  method HydrateTargets(outcome: seq<Attempt>, workerCount: nat)
    returns (attempts: seq<nat>, hydratedObjectCount: nat, files: set<nat>)
    requires workerCount > 0
    ensures attempts == seq(|outcome|, i => i)
    ensures hydratedObjectCount == CountTrue(outcome)
    ensures files == StoredOf(outcome)
  {
    PoolBegins(workerCount, outcome);
    var pool := Pool(0, seq(workerCount, _ => Ready), [], 0, {});
    while exists w :: 0 <= w < |pool.workers| && !pool.workers[w].Finished?
      invariant |pool.workers| == workerCount && PoolOk(pool, outcome) && FilesOk(pool, outcome)
      decreases Remaining(pool, outcome)
    {
      var w: nat :| w < |pool.workers| && !pool.workers[w].Finished?;
      pool := Continue(pool, w, outcome);
    }
    PoolIsDone(pool, outcome);
    attempts, hydratedObjectCount, files := pool.attempts, pool.hydrated, pool.files;
  }

  // ---------------------------------------------------------------- the prefixes of a session

  /** The objects stored under one prefix, how the attempt on each would end, and whether listing them
      works. */
  datatype Prefix = Prefix(objects: seq<Attempt>, listable: bool)
  {
    /** The targets of its pool: a listing that fails counts as an empty one. */
    function Targets(): seq<Attempt> { if listable then objects else [] }
  }

  method HydrateWorkspaceMountPrefix(prefix: Prefix) returns (listedObjectCount: nat, hydratedObjectCount: nat, files: set<nat>)
    ensures listedObjectCount == |prefix.Targets()| && hydratedObjectCount == CountTrue(prefix.Targets())
    ensures files == StoredOf(prefix.Targets())
  {
    listedObjectCount, hydratedObjectCount, files := 0, 0, {};
    var targets := prefix.Targets();
    if targets == [] {
      return;
    }
    var attempts;
    attempts, hydratedObjectCount, files := HydrateTargets(targets, Min(WORKSPACE_MOUNT_HYDRATE_CONCURRENCY, |targets|));
    listedObjectCount := |targets|;
  }

  predicate AllReturned(prefix: Prefix) {
    forall k :: 0 <= k < |prefix.Targets()| ==> prefix.Targets()[k].Returns()
  }

  /** When the session marker is written. */
  predicate MarkerWritten(prefixes: seq<Prefix>) {
    && (exists p :: 0 <= p < |prefixes| && prefixes[p].Targets() != [])
    && (forall p :: 0 <= p < |prefixes| ==> AllReturned(prefixes[p]))
  }

  predicate AllIn(prefix: Prefix, files: set<nat>) {
    forall k :: 0 <= k < |prefix.objects| ==> k in files
  }

  /** Every object stored under any prefix is in the pod. */
  predicate Complete(prefixes: seq<Prefix>, pod: seq<set<nat>>)
    requires |pod| == |prefixes|
  {
    forall p :: 0 <= p < |prefixes| ==> AllIn(prefixes[p], pod[p])
  }

  /** The prefix was listed or is empty, and no write came back with an exit code. */
  predicate SwallowsNothing(prefix: Prefix) {
    && (prefix.listable || prefix.objects == [])
    && (forall k :: 0 <= k < |prefix.objects| ==> !prefix.objects[k].WriteLogged?)
  }

  predicate NothingSwallowed(prefixes: seq<Prefix>) {
    forall p :: 0 <= p < |prefixes| ==> SwallowsNothing(prefixes[p])
  }

  lemma SwallowingMissesFiles(prefix: Prefix)
    requires AllReturned(prefix)
    ensures AllIn(prefix, StoredOf(prefix.Targets())) <==> SwallowsNothing(prefix)
  {
    var files := StoredOf(prefix.Targets());
    if prefix.objects != [] && !prefix.listable {
      assert 0 !in files;
    } else {
      assert forall k :: 0 <= k < |prefix.objects| ==> (k in files <==> !prefix.objects[k].WriteLogged?);
    }
  }

  /** What the pools of all prefixes bring into the pod. */
  predicate Pulled(prefixes: seq<Prefix>, pod: seq<set<nat>>) {
    |pod| == |prefixes| && forall p :: 0 <= p < |pod| ==> pod[p] == StoredOf(prefixes[p].Targets())
  }

  /** The cold bootstrap of a session: one pool per prefix, and the totals over all of them decide on the
      marker. A session that gets it is complete exactly if nothing was swallowed. */
  method HydrateBootstrapWorkspaceMounts(prefixes: seq<Prefix>) returns (writesMarker: bool, pod: seq<set<nat>>)
    ensures Pulled(prefixes, pod)
    ensures writesMarker <==> MarkerWritten(prefixes)
    ensures writesMarker ==> (Complete(prefixes, pod) <==> NothingSwallowed(prefixes))
  {
    var listedObjectCount, hydratedObjectCount := 0, 0;
    pod := [];
    for i := 0 to |prefixes|
      invariant |pod| == i && forall p :: 0 <= p < i ==> pod[p] == StoredOf(prefixes[p].Targets())
      invariant hydratedObjectCount <= listedObjectCount
      invariant listedObjectCount > 0 <==> exists p :: 0 <= p < i && prefixes[p].Targets() != []
      invariant hydratedObjectCount == listedObjectCount <==> forall p :: 0 <= p < i ==> AllReturned(prefixes[p])
    {
      var listed, hydrated, files := HydrateWorkspaceMountPrefix(prefixes[i]);
      assert listed > 0 <==> prefixes[i].Targets() != [];
      assert hydrated == listed <==> AllReturned(prefixes[i]);
      listedObjectCount := listedObjectCount + listed;
      hydratedObjectCount := hydratedObjectCount + hydrated;
      pod := pod + [files];
    }
    writesMarker := listedObjectCount > 0 && hydratedObjectCount == listedObjectCount;
    if writesMarker { MarkerMeansComplete(prefixes, pod); }
  }

  /** The pod of a marked session holds everything exactly if every prefix with objects was listed and no
      write came back with an exit code. */
  lemma MarkerMeansComplete(prefixes: seq<Prefix>, pod: seq<set<nat>>)
    requires MarkerWritten(prefixes) && Pulled(prefixes, pod)
    ensures Complete(prefixes, pod) <==> NothingSwallowed(prefixes)
  {
    forall p | 0 <= p < |prefixes| ensures AllIn(prefixes[p], pod[p]) <==> SwallowsNothing(prefixes[p]) {
      SwallowingMissesFiles(prefixes[p]);
    }
  }

  /** The session's own objects were pulled, the shared ones could not be listed. */
  lemma FailedListingGoesUnnoticed(pod: seq<set<nat>>)
    requires Pulled([Prefix([Stored], true), Prefix([Stored], false)], pod)
    ensures var prefixes := [Prefix([Stored], true), Prefix([Stored], false)];
      MarkerWritten(prefixes) && !Complete(prefixes, pod)
  {
    var prefixes := [Prefix([Stored], true), Prefix([Stored], false)];
    assert prefixes[0].Targets() != [];
    assert 0 !in pod[1] && !AllIn(prefixes[1], pod[1]);
  }

  /** One file was pulled, the write of the other came back with an exit code. */
  lemma LoggedWriteGoesUnnoticed(pod: seq<set<nat>>)
    requires Pulled([Prefix([Stored, WriteLogged], true)], pod)
    ensures MarkerWritten([Prefix([Stored, WriteLogged], true)]) && !Complete([Prefix([Stored, WriteLogged], true)], pod)
  {
    var prefixes := [Prefix([Stored, WriteLogged], true)];
    assert prefixes[0].Targets() != [];
    assert 1 !in pod[0] && !AllIn(prefixes[0], pod[0]);
  }
}

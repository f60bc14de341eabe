/** The programs do what they are there for: a step that does not fail goes on whenever its caller is in
    the right, and a program that gives up has a reason. */
module Progress {
  import opened Wrappers
  import opened Numbers
  import opened Records
  import opened Programs
  import opened Invariants
  import opened Snapshots
  import opened Protocol
  import opened Windows
  import opened Reaping

  // ---------------------------------------------------------------- guard

  /** The pod is the one the job is bound to. */
  predicate Owns(b: Binding, pod: Pod) {
    pod.uid == b.uid && Identified(pod, b.gen, b.handle, b.mode) && pod.Stamped(b.gen.job, b.gen.token)
  }

  predicate HasLease(db: Db, gen: Generation, at: int) {
    Issued(db, gen) && Live(db, gen.token, at)
  }

  lemma LeaseHoldersHold(w: World, gen: Generation, at: int)
    requires Sound(w) && HasLease(w.db, gen, at)
    ensures Holds(w.db, gen, at)
  {
    assert RowOk(w.db, gen.key);
  }

  /** The job holds its lease, its pod is there, and its egress mode is still the canonical one. */
  predicate InTheRight(w: World, at: int, b: Binding) {
    && HasLease(w.db, b.gen, at) && b.name in w.cluster.pods && Owns(b, w.cluster.pods[b.name])
    && b.gen.key.assistant in w.modes && w.modes[b.gen.key.assistant] == b.mode
  }

  function GuardProgress(pc: GuardPc): nat {
    match pc case GuardStart => 0 case GuardChecked => 1 case GuardRead(_) => 2 case GuardMode(_) => 3 case GuardPassed(_) => 4
  }

  function SeenBy(pc: GuardPc): Option<Pod> {
    match pc case GuardStart => None case GuardChecked => None
             case GuardRead(seen) => Some(seen) case GuardMode(seen) => Some(seen) case GuardPassed(seen) => Some(seen)
  }

  /** The guard refuses no job that is in the right: it goes on, and keeps seeing what is there. */
  lemma GuardGoesOn(w: World, at: int, m: Move, w': World, b: Binding, pc: GuardPc)
    requires Sound(w) && Next(w, at, m, w') && m.Go? && !m.fails && w.tasks[m.id] == Guard(b, pc) && !pc.GuardPassed?
    requires InTheRight(w, at, b) && (SeenBy(pc).Some? ==> Owns(b, SeenBy(pc).value))
    ensures var t' := w'.tasks[m.id];
      && t'.Guard? && t'.binding == b && GuardProgress(t'.guard) == GuardProgress(pc) + 1
      && (SeenBy(t'.guard).Some? ==> Owns(b, SeenBy(t'.guard).value))
  {
    LeaseHoldersHold(w, b.gen, at);
  }

  // ---------------------------------------------------------------- bind

  function BindProgress(pc: BindPc): nat {
    match pc
    case BindStart => 0 case BindChecked => 1 case BindRead(_) => 2 case BindStamped(_) => 3 case BindReread(_) => 4 case Bound(_) => 5
  }

  /** The pod may be bound: it is the caller's, and no other generation is stamped on it. */
  predicate Bindable(t: Task, pod: Pod)
    requires t.Bind?
  {
    Identified(pod, t.gen, t.handle, t.mode) && OwnStampOrNone(pod, t.gen)
  }

  /** What a bind remembers is still true of the pod. */
  predicate UpToDate(t: Task, pod: Pod)
    requires t.Bind?
  {
    match t.bind
    case BindRead(seen) => seen == pod
    case BindStamped(seen) => seen.uid == pod.uid && pod.Stamped(t.gen.job, t.gen.token)
    case _ => true
  }

  /** A bind by the lease holder of a pod that may be bound goes on, on the same attempt, and leaves its
      stamp on the pod. */
  lemma BindGoesOn(w: World, at: int, m: Move, w': World)
    requires Sound(w) && Next(w, at, m, w') && m.Go? && !m.fails && w.tasks[m.id].Bind? && !w.tasks[m.id].bind.Bound?
    requires var t := w.tasks[m.id];
      && HasLease(w.db, t.gen, at) && t.name in w.cluster.pods && w.cluster.pods[t.name].name == t.name
      && Bindable(t, w.cluster.pods[t.name]) && UpToDate(t, w.cluster.pods[t.name])
    ensures var t, t' := w.tasks[m.id], w'.tasks[m.id];
      && t'.Bind? && t'.gen == t.gen && t'.name == t.name && t'.attempt == t.attempt && BindProgress(t'.bind) > BindProgress(t.bind)
      && t.name in w'.cluster.pods && Bindable(t', w'.cluster.pods[t.name]) && UpToDate(t', w'.cluster.pods[t.name])
      && (t'.bind.BindStamped? ==> w'.cluster.pods[t.name].Stamped(t.gen.job, t.gen.token))
  {
    LeaseHoldersHold(w, w.tasks[m.id].gen, at);
  }

  /** A conflict sends a bind back to its first check, twice; the third is the last. */
  lemma ConflictIsRetried(w: World, at: int, m: Move, w': World)
    requires Next(w, at, m, w') && m.Go? && !m.fails && w.tasks[m.id].Bind? && w.tasks[m.id].bind.BindRead?
    requires var seen := w.tasks[m.id].bind.seen;
      seen.name !in w.cluster.pods || w.cluster.pods[seen.name].version != seen.version || w.cluster.pods[seen.name].uid != seen.uid
    ensures w'.cluster == w.cluster
    ensures if w.tasks[m.id].attempt < 3
            then w'.tasks[m.id] == w.tasks[m.id].(attempt := w.tasks[m.id].attempt + 1, bind := BindStart)
            else w'.tasks[m.id] == Ended
  {
  }

  /** In no run does a bind get to a fourth attempt. */
  lemma AtMostThreeAttempts(run: Run, k: nat, id: nat)
    requires run.Valid() && k < |run.states| && id in run.states[k].tasks && run.states[k].tasks[id].Bind?
    ensures 1 <= run.states[k].tasks[id].attempt <= 3
  {
    RunSound(run, k);
    assert TaskOk(run.states[k].db, run.states[k].cluster, run.states[k].tasks[id]);
  }

  // ---------------------------------------------------------------- clear, retire, baseline

  /** A clear finds its own stamp, and takes it off a pod that has not changed since. */
  lemma ClearDoesItsWork(w: World, at: int, m: Move, w': World, b: Binding, read: Option<Pod>)
    requires Next(w, at, m, w') && m.Go? && !m.fails && w.tasks[m.id] == Clear(b, read)
    requires b.name in w.cluster.pods && w.cluster.pods[b.name].uid == b.uid && w.cluster.pods[b.name].Stamped(b.gen.job, b.gen.token)
    requires read.Some? ==> read.value == w.cluster.pods[b.name] && read.value.name == b.name
    ensures read.None? ==> w'.tasks[m.id] == Clear(b, Some(w.cluster.pods[b.name]))
    ensures read.Some? ==> b.name in w'.cluster.pods && w'.cluster.pods[b.name].uid == b.uid && w'.cluster.pods[b.name].Unstamped()
  {
  }

  /** A retirement finds its own pod, and removes it if it has not changed since. */
  lemma RetireDoesItsWork(w: World, at: int, m: Move, w': World, b: Binding, read: Option<Pod>)
    requires Next(w, at, m, w') && m.Go? && !m.fails && w.tasks[m.id] == Retire(b, read)
    requires b.name in w.cluster.pods && Owns(b, w.cluster.pods[b.name])
    requires read.Some? ==> read.value == w.cluster.pods[b.name]
    ensures read.None? ==> w'.tasks[m.id] == Retire(b, Some(w.cluster.pods[b.name]))
    ensures read.Some? ==> b.name !in w'.cluster.pods
  {
  }

  /** A baseline is recorded on a pod that has none and has not changed since it was read. */
  lemma BaselineDoesItsWork(w: World, at: int, m: Move, w': World, name: PodName, uid: nat, read: Option<Pod>)
    requires Next(w, at, m, w') && m.Go? && !m.fails && w.tasks[m.id] == Baseline(name, uid, read)
    requires name in w.cluster.pods && w.cluster.pods[name].uid == uid && w.cluster.pods[name].baseline.None?
    requires read.Some? ==> read.value == w.cluster.pods[name] && read.value.name == name
    ensures read.None? ==> w'.tasks[m.id] == Baseline(name, uid, Some(w.cluster.pods[name]))
    ensures read.Some? ==> name in w'.cluster.pods && w'.cluster.pods[name].baseline == Some(m.pids)
  {
  }

  // ---------------------------------------------------------------- the executor

  /** An executor that waits in vain, or meets an error while it has the lease, turns to its error
      handling and keeps what it has. */
  lemma ErrorsAreHandled(w: World, at: int, j: JobId, c: Choice, w': World)
    requires Next(w, at, Execute(j, c), w') && (c == GiveUp || c == Throw)
    ensures w'.exec[j] == Catching(LeaseOf(w.exec[j]), false) && w'.db == w.db
  {
  }

  /** An executor that handles an error may still write the end of its job: of a queued one if it never
      had the lease, of a running one if its lease is live. */
  predicate MayEnd(db: Db, at: int, j: JobId, lease: Option<(Token, Holder)>)
    requires j in db.jobs
  {
    if lease.None? then db.jobs[j].status == Queued
    else db.jobs[j].status == Running && Live(db, lease.value.0, at) && db.issued[lease.value.0] == Held(db.jobs[j].key, j, lease.value.1)
  }

  /** Then it can, as failed or as blocked, and only the release is left to do. */
  lemma HandledJobsCanEnd(w: World, at: int, j: JobId, lease: Option<(Token, Holder)>, blocked: bool) returns (w': World)
    requires Sound(w) && j in w.exec && w.exec[j] == Catching(lease, false) && j in w.db.jobs && MayEnd(w.db, at, j, lease)
    ensures Next(w, at, Execute(j, WriteFailure(blocked)), w')
    ensures j in w'.db.jobs && w'.db.jobs[j].status == (if blocked then Blocked else Failed)
    ensures w'.exec[j] == Finalizing(lease, true, false)
  {
    assert CompletedIffTerminal(w.db.jobs[j]);
    if lease.Some? { assert RowOk(w.db, w.db.jobs[j].key); }
    w' := w.(clock := Max(w.clock, at),
             db := w.db.(jobs := w.db.jobs[j := Moved(w.db.jobs[j], if blocked then Blocked else Failed, at)]),
             exec := w.exec[j := Finalizing(lease, true, false)]);
  }

  // ---------------------------------------------------------------- sweeps and recycle

  /** A sweep that has got to its delete removes the pod, unless it is no longer the version listed. */
  lemma SweepDeletes(w: World, at: int, m: Move, w': World)
    requires Next(w, at, m, w') && m.Go? && !m.fails && IsSweep(w.tasks[m.id])
    requires var t := w.tasks[m.id]; if t.Reap? then t.sweep.Ready? else t.review.Ready?
    ensures var pod := if w.tasks[m.id].Reap? then w.tasks[m.id].seen else w.tasks[m.id].target;
      (pod.name in w'.cluster.pods <==>
         pod.name in w.cluster.pods && (w.cluster.pods[pod.name].uid != pod.uid || w.cluster.pods[pod.name].version != pod.version))
  {
  }

  /** Review `id` of the owner reconcile ends at step `k` without having failed or reached its delete. */
  predicate ReviewSpares(run: Run, k: nat, id: nat)
    requires k < |run.moves| && |run.states| == |run.moves| + 1
  {
    && run.moves[k].1.Go? && run.moves[k].1.id == id && !run.moves[k].1.fails
    && id in run.states[k].tasks && run.states[k].tasks[id].Reconcile? && !run.states[k].tasks[id].review.Ready?
    && id in run.states[k + 1].tasks && run.states[k + 1].tasks[id] == Ended
  }

  lemma OnlyReviewsReview(db: Db, cl: Cluster, modes: map<nat, Mode>, at: int, t: Task, fails: bool, pids: seq<nat>,
                          db': Db, cl': Cluster, t': Task)
    requires TaskStep(db, cl, modes, at, t, fails, pids, db', cl', t') && t'.Reconcile?
    ensures t.Reconcile? && t.canonical == t'.canonical && t.target == t'.target && ReconcileStep(db, cl, at, t, cl', t')
  {
  }

  /** The step that found the job of the stamped pod pending, or not. */
  lemma ReviewJobStep(run: Run, k: nat, id: nat, t: Task) returns (r: nat)
    requires run.Valid() && k < |run.states| && id in run.states[k].tasks && run.states[k].tasks[id] == t
    requires t.Reconcile? && t.review.FoundJob? && WholeStamp(t.target) && t.review.current == t.target
    ensures r < k && (t.review.active <==> PendingJob(run.states[r].db, t.target.owner.value, t.target.stampJob.value))
  {
    r := LastStep(run, k, id);
    RunSound(run, r);
    var w := run.states[r];
    assert TaskOk(w.db, w.cluster, w.tasks[id]);
    OnlyReviewsReview(w.db, w.cluster, w.modes, run.moves[r].0, w.tasks[id], run.moves[r].1.fails, run.moves[r].1.pids,
                      run.states[r + 1].db, run.states[r + 1].cluster, t);
  }

  /** A pod whose egress mode is stale is spared by the owner reconcile only if it has changed or gone
      since the list, or its generation is at work: its job was pending, and then its lease live. */
  lemma StaleModesAreSparedAtWork(run: Run, k: nat, id: nat, t: Task) returns (r: nat)
    requires run.Valid() && k < |run.moves| && ReviewSpares(run, k, id) && run.states[k].tasks[id] == t
    ensures r <= k
    ensures || t.target.name !in run.states[k].cluster.pods
            || run.states[k].cluster.pods[t.target.name] != t.target
            || (&& WholeStamp(t.target)
                && PendingJob(run.states[r].db, t.target.owner.value, t.target.stampJob.value)
                && LeaseRow(run.states[k].db, t.target.owner.value, t.target.stampJob.value, t.target.stampToken.value, run.moves[k].0))
  {
    RunSound(run, k);
    assert run.Step(k);
    assert TaskOk(run.states[k].db, run.states[k].cluster, t);
    r := k;
    if t.review.FoundJob? { r := ReviewJobStep(run, k, id, t); }
  }

  /** The recycle path is open to the lease holder. */
  lemma RecycleIsAdmitted(w: World, at: int, m: Move, w': World)
    requires Sound(w) && Next(w, at, m, w') && m.Go? && !m.fails && w.tasks[m.id].Recycle? && !w.tasks[m.id].admitted
    requires HasLease(w.db, w.tasks[m.id].gen, at)
    ensures w'.tasks[m.id] == w.tasks[m.id].(admitted := true)
  {
    LeaseHoldersHold(w, w.tasks[m.id].gen, at);
  }

  /** It takes up a pod of its workspace that another generation is stamped on. */
  lemma RecycleTakesUpForeignPods(w: World, at: int, m: Move, w': World)
    requires Next(w, at, m, w') && m.Go? && !m.fails && w.tasks[m.id].Recycle?
    requires w.tasks[m.id].admitted && w.tasks[m.id].found.None? && w.tasks[m.id].name in w.cluster.pods
    requires Foreign(w.tasks[m.id], w.cluster.pods[w.tasks[m.id].name])
    ensures w'.tasks[m.id] == w.tasks[m.id].(found := Some(w.cluster.pods[w.tasks[m.id].name]))
  {
  }

  predicate Foreign(t: Task, pod: Pod)
    requires t.Recycle?
  {
    pod.owner == Some(t.gen.key) && pod.handle == t.handle && !pod.Unstamped() && !pod.Stamped(t.gen.job, t.gen.token)
  }

  /** Then it has the stamped job marked, and deletes the pod, whatever has changed in it. */
  lemma RecycleDoesItsWork(w: World, at: int, m: Move, w': World)
    requires Next(w, at, m, w') && m.Go? && !m.fails && w.tasks[m.id].Recycle?
    requires w.tasks[m.id].admitted && w.tasks[m.id].found.Some?
    ensures var t, t' := w.tasks[m.id], w'.tasks[m.id]; var name := t.found.value.name;
      if !t.marked then t' == t.(marked := true)
      else name in w'.cluster.pods <==> name in w.cluster.pods && w.cluster.pods[name].uid != t.found.value.uid
  {
  }
}

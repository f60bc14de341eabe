/** The reaper and the owner reconcile act on old lists and old query results. What those said is
    still true of a doomed generation, so a live one is never touched. */
module Sweeps {
  import opened Wrappers
  import opened Records
  import opened Programs
  import opened Invariants
  import opened Snapshots
  import opened Protocol
  import opened Fencing
  import opened Windows

  /** The generation stamped on `pod` is past: its job has left queued/running or its token is spent. */
  predicate Doomed(w: World, pod: Pod) {
    WholeStamp(pod) ==> Finished(w.db, pod.stampJob.value) || Spent(w.db, w.clock, pod.stampToken.value)
  }

  /** Generation (j, t) is at work at time `at`. */
  predicate Protected(db: Db, at: int, j: JobId, t: Token) {
    && j in db.jobs && db.jobs[j].status.Active()
    && Live(db, t, at) && db.issued[t].job == j
  }

  /** What a sweep has learnt so far still holds. */
  predicate Informed(w: World, t: Task) {
    match t
    case Reap(now, _, seen, pc) =>
      && now <= w.clock
      && (pc.JobRead? && !pc.active ==> WholeStamp(seen) && Finished(w.db, seen.stampJob.value))
      && (pc.Stale? || pc.Ready? ==> Doomed(w, seen))
    case Reconcile(_, target, pc) =>
      && (pc.FoundJob? && !pc.active ==> WholeStamp(target) && Finished(w.db, target.stampJob.value))
      && (pc.Ready? ==> Doomed(w, target))
    case _ => true
  }

  lemma DoomedStays(w: World, at: int, m: Move, w': World, pod: Pod)
    requires Sound(w) && Next(w, at, m, w') && w.clock <= at && Doomed(w, pod)
    ensures Doomed(w', pod)
  {
    NextKeeps(w, at, m, w');
    if WholeStamp(pod) && Spent(w.db, w.clock, pod.stampToken.value) {
      SpentTokensStaySpent(w.db, w'.db, at, pod.stampToken.value);
    }
  }

  lemma InformedStays(w: World, at: int, m: Move, w': World, t: Task)
    requires Sound(w) && Next(w, at, m, w') && w.clock <= at && Informed(w, t)
    ensures Informed(w', t)
  {
    NextKeeps(w, at, m, w');
    match t
    case Reap(_, _, seen, pc) => if pc.Stale? || pc.Ready? { DoomedStays(w, at, m, w', seen); }
    case Reconcile(_, target, pc) => if pc.Ready? { DoomedStays(w, at, m, w', target); }
    case _ =>
  }

  /** A query that finds no pending job with the stamped id: the job has left for good. */
  lemma NoActiveJobMeansFinished(db: Db, pod: Pod)
    requires DbInv(db) && StampOk(db, pod) && WholeStamp(pod)
    requires !ActiveJob(db, pod.owner.value, pod.stampJob.value)
    ensures Finished(db, pod.stampJob.value)
  {
    assert IssueOk(db, pod.stampToken.value);
  }

  /** A query that finds no lease with the stamped token, as of an earlier time: it is spent. */
  lemma NoActiveLeaseMeansSpent(db: Db, clock: int, pod: Pod, now: int)
    requires DbInv(db) && StampOk(db, pod) && WholeStamp(pod) && now <= clock
    requires !ActiveLease(db, pod.owner.value, pod.stampJob.value, pod.stampToken.value, now)
    ensures Spent(db, clock, pod.stampToken.value)
  {
    assert IssueOk(db, pod.stampToken.value);
    assert RowOk(db, pod.owner.value);
  }

  /** What one step of the reaper adds to what it knows, as of before the step. */
  lemma ReapLearns(w: World, at: int, t: Task, db': Db, cl': Cluster, t': Task)
    requires DbInv(w.db) && t.Reap? && TaskOk(w.db, w.cluster, t) && StampOk(w.db, t.seen) && Informed(w, t)
    requires ReapStep(w.db, w.cluster, at, t, db', cl', t') && !t'.Ended?
    ensures t'.Reap? && t'.now == t.now && t'.seen == t.seen
    ensures t'.sweep.JobRead? && !t'.sweep.active ==> WholeStamp(t.seen) && Finished(w.db, t.seen.stampJob.value)
    ensures t'.sweep.Stale? || t'.sweep.Ready? ==> Doomed(w, t.seen)
  {
    if t.sweep.Listed? && WholeStamp(t.seen) {
      if !ActiveJob(w.db, t.seen.owner.value, t.seen.stampJob.value) { NoActiveJobMeansFinished(w.db, t.seen); }
    } else if t.sweep.JobRead? && t.sweep.active {
      NoActiveLeaseMeansSpent(w.db, w.clock, t.seen, t.now);
    }
  }

  lemma ReapStaysInformed(w: World, at: int, m: Move, w': World)
    requires Sound(w) && Next(w, at, m, w') && w.clock <= at
    requires m.Go? && w.tasks[m.id].Reap? && Informed(w, w.tasks[m.id])
    ensures Informed(w', w'.tasks[m.id])
  {
    var t, t' := w.tasks[m.id], w'.tasks[m.id];
    assert TaskOk(w.db, w.cluster, t) && StampOk(w.db, w.cluster.log[t.seen.version]);
    if !t'.Ended? {
      ReapLearns(w, at, t, w'.db, w'.cluster, t');
      NextKeeps(w, at, m, w');
      if t'.sweep.Stale? || t'.sweep.Ready? { DoomedStays(w, at, m, w', t.seen); }
    }
  }

  lemma ReconcileStaysInformed(w: World, at: int, m: Move, w': World)
    requires Sound(w) && Next(w, at, m, w') && w.clock <= at
    requires m.Go? && w.tasks[m.id].Reconcile? && Informed(w, w.tasks[m.id])
    ensures Informed(w', w'.tasks[m.id])
  {
    var t := w.tasks[m.id];
    assert TaskOk(w.db, w.cluster, t) && StampOk(w.db, w.cluster.log[t.target.version]);
    InformedStays(w, at, m, w', t);
    if t.review.Found? && WholeStamp(t.target) {
      if !ActiveJob(w.db, t.target.owner.value, t.target.stampJob.value) { NoActiveJobMeansFinished(w.db, t.target); }
    } else if t.review.FoundJob? && !w'.tasks[m.id].Ended? {
      if t.review.active { NoActiveLeaseMeansSpent(w'.db, at, t.target, at); }
    }
  }

  lemma GoStaysInformed(w: World, at: int, m: Move, w': World)
    requires Sound(w) && Next(w, at, m, w') && w.clock <= at && m.Go? && Informed(w, w.tasks[m.id])
    ensures Informed(w', w'.tasks[m.id])
  {
    var t := w.tasks[m.id];
    if t.Reap? {
      ReapStaysInformed(w, at, m, w');
    } else if t.Reconcile? {
      ReconcileStaysInformed(w, at, m, w');
    } else {
      OnlySweepsSweep(w.db, w.cluster, w.modes, at, t, m.fails, m.pids, w'.db, w'.cluster, w'.tasks[m.id]);
    }
  }

  lemma OnlySweepsSweep(db: Db, cl: Cluster, modes: map<nat, Mode>, at: int, t: Task, fails: bool, pids: seq<nat>,
                        db': Db, cl': Cluster, t': Task)
    requires TaskStep(db, cl, modes, at, t, fails, pids, db', cl', t') && !IsSweep(t)
    ensures !IsSweep(t')
  {
  }

  lemma InformedStep(w: World, at: int, m: Move, w': World, id: nat)
    requires Sound(w) && Next(w, at, m, w') && w.clock <= at && id in w'.tasks
    requires id in w.tasks ==> Informed(w, w.tasks[id])
    ensures Informed(w', w'.tasks[id])
  {
    if m.Go? && m.id == id {
      GoStaysInformed(w, at, m, w');
    } else if m.Start? && m.id == id {
    } else {
      OtherMovesKeepTask(w, at, m, w', id);
      InformedStays(w, at, m, w', w.tasks[id]);
    }
  }

  lemma {:induction false} SweepsInformed(run: Run, k: nat, id: nat)
    requires run.Valid() && run.Timely() && k < |run.states| && id in run.states[k].tasks
    ensures Informed(run.states[k], run.states[k].tasks[id])
    decreases k
  {
    assert k != 0;
    if id in run.states[k - 1].tasks { SweepsInformed(run, k - 1, id); }
    TimelyStep(run, k - 1, id);
  }

  lemma TimelyStep(run: Run, k: nat, id: nat)
    requires run.Valid() && run.Timely() && k < |run.moves| && id in run.states[k + 1].tasks
    requires id in run.states[k].tasks ==> Informed(run.states[k], run.states[k].tasks[id])
    ensures Informed(run.states[k + 1], run.states[k + 1].tasks[id])
  {
    RunSound(run, k);
    assert run.Step(k);
    InformedStep(run.states[k], run.moves[k].0, run.moves[k].1, run.states[k + 1], id);
  }

  // ---------------------------------------------------------------- what a sweep leaves alone

  /** A doomed stamp is not the stamp of a generation at work, and its job holds no live lease. */
  lemma DoomedIsUnprotected(w: World, at: int, pod: Pod, t: Token)
    requires DbInv(w.db) && w.clock <= at && WholeStamp(pod) && StampOk(w.db, pod) && Doomed(w, pod)
    ensures !Protected(w.db, at, pod.stampJob.value, t)
  {
    if Protected(w.db, at, pod.stampJob.value, t) {
      assert SameJob(w.db, t, pod.stampToken.value);
    }
  }

  lemma SweepDeletesOnlyItsSnapshot(w: World, at: int, m: Move, w': World, n: PodName)
    requires Sound(w) && Next(w, at, m, w') && m.Go? && IsSweep(w.tasks[m.id]) && n in w.cluster.pods
    requires n !in w'.cluster.pods || w'.cluster.pods[n] != w.cluster.pods[n]
    ensures var t := w.tasks[m.id];
      if t.Reap? then t.sweep.Ready? && w.cluster.pods[n] == t.seen else t.review.Ready? && w.cluster.pods[n] == t.target
  {
    var t := w.tasks[m.id];
    assert TaskOk(w.db, w.cluster, t) && Logged(w.cluster, w.cluster.pods[n]);
    SweepDeletesListed(w.db, w.cluster, at, t, w'.db, w'.cluster, w'.tasks[m.id], n);
  }

  /** Step `i` of the run is a step of the reaper or of the owner reconcile. */
  predicate SweepMoves(run: Run, i: nat)
    requires i < |run.moves| && |run.states| == |run.moves| + 1
  {
    && run.moves[i].1.Go? && run.moves[i].1.id in run.states[i].tasks
    && IsSweep(run.states[i].tasks[run.moves[i].1.id])
  }

  /** No step of the reaper or the reconcile removes or changes the pod of a generation at work. */
  lemma SweepSparesPodsAtWork(run: Run, i: nat, n: PodName)
    requires run.Valid() && run.Timely() && i < |run.moves|
    requires SweepMoves(run, i)
    requires n in run.states[i].cluster.pods && WholeStamp(run.states[i].cluster.pods[n])
    requires var pod := run.states[i].cluster.pods[n];
      Protected(run.states[i].db, run.moves[i].0, pod.stampJob.value, pod.stampToken.value)
    ensures n in run.states[i + 1].cluster.pods && run.states[i + 1].cluster.pods[n] == run.states[i].cluster.pods[n]
  {
    var w, w', at, m := run.states[i], run.states[i + 1], run.moves[i].0, run.moves[i].1;
    RunStep(run, i);
    if n !in w'.cluster.pods || w'.cluster.pods[n] != w.cluster.pods[n] {
      SweepDeletesOnlyItsSnapshot(w, at, m, w', n);
      SweepsInformed(run, i, m.id);
      var pod := w.cluster.pods[n];
      assert StampOk(w.db, w.cluster.log[pod.version]);
      DoomedIsUnprotected(w, at, pod, pod.stampToken.value);
    }
  }

  lemma SweepMarksOnlyDoomedJobs(w: World, at: int, m: Move, w': World, j: JobId, t: Token)
    requires DbInv(w.db) && ClusterInv(w.db, w.cluster) && w.clock <= at && m.Go? && m.id in w.tasks && m.id in w'.tasks
    requires IsSweep(w.tasks[m.id]) && TaskOk(w.db, w.cluster, w.tasks[m.id]) && Informed(w, w.tasks[m.id])
    requires TaskStep(w.db, w.cluster, w.modes, at, w.tasks[m.id], m.fails, m.pids, w'.db, w'.cluster, w'.tasks[m.id])
    requires Protected(w.db, at, j, t)
    ensures j in w'.db.jobs && w'.db.jobs[j] == w.db.jobs[j] && w'.db.leases == w.db.leases
  {
    var task := w.tasks[m.id];
    if w'.db != w.db {
      TaskStepTables(w.db, w.cluster, w.modes, at, task, m.fails, m.pids, w'.db, w'.cluster, w'.tasks[m.id]);
      assert StampOk(w.db, w.cluster.log[task.seen.version]);
      DoomedIsUnprotected(w, at, task.seen, t);
    }
  }

  /** No step of the reaper changes a pending job that holds a live lease, under whatever token;
      the reconcile changes no job at all. */
  lemma SweepSparesJobsAtWork(run: Run, i: nat, j: JobId, t: Token)
    requires run.Valid() && run.Timely() && i < |run.moves|
    requires SweepMoves(run, i)
    requires Protected(run.states[i].db, run.moves[i].0, j, t)
    ensures j in run.states[i + 1].db.jobs
    ensures run.states[i + 1].db.jobs[j] == run.states[i].db.jobs[j] && run.states[i + 1].db.leases == run.states[i].db.leases
  {
    RunSound(run, i);
    assert run.Step(i);
    SweepsInformed(run, i, run.moves[i].1.id);
    SweepMarksOnlyDoomedJobs(run.states[i], run.moves[i].0, run.moves[i].1, run.states[i + 1], j, t);
  }

  // ---------------------------------------------------------------- the recycle path

  /** A caller that still holds its own token when it reads a pod stamped by another generation has
      found a displaced one: at every later step marking that job failed hits no job at work, and
      deleting the pod hits no generation at work as long as it still carries the stamp read. No
      clock is involved. */
  lemma RecycleFindsOnlyDisplaced(run: Run, r: nat, k: nat, gen: Generation, n: PodName, t: Token)
    requires run.Valid() && r <= k < |run.moves|
    requires Issued(run.states[r].db, gen) && Live(run.states[r].db, gen.token, run.moves[r].0)
    requires n in run.states[r].cluster.pods
    requires var pod := run.states[r].cluster.pods[n];
      pod.owner == Some(gen.key) && !pod.Unstamped() && !pod.Stamped(gen.job, gen.token)
    ensures var pod := run.states[r].cluster.pods[n];
      WholeStamp(pod) && !Protected(run.states[k].db, run.moves[k].0, pod.stampJob.value, t)
  {
    RunSound(run, r);
    RunSound(run, k);
    var pod := run.states[r].cluster.pods[n];
    assert StampOk(run.states[r].db, run.states[r].cluster.log[pod.version]);
    DisplacedForGood(run, r, k, pod.stampToken.value);
    RunEvolves(run, r, k);
    if Protected(run.states[k].db, run.moves[k].0, pod.stampJob.value, t) {
      assert SameJob(run.states[k].db, t, pod.stampToken.value);
    }
  }

  lemma OnlyRecyclesRecycle(db: Db, cl: Cluster, modes: map<nat, Mode>, at: int, t: Task, fails: bool, pids: seq<nat>,
                            db': Db, cl': Cluster, t': Task)
    requires TaskStep(db, cl, modes, at, t, fails, pids, db', cl', t') && t'.Recycle?
    ensures t.Recycle? && t.gen == t'.gen && RecycleStep(db, cl, at, t, db', cl', t')
  {
  }

  /** The step in which a recycling program read the pod it is about to mark and delete. */
  lemma RecycleRead(run: Run, k: nat, id: nat) returns (r: nat)
    requires run.Valid() && k < |run.states| && id in run.states[k].tasks
    requires run.states[k].tasks[id].Recycle? && run.states[k].tasks[id].found.Some?
    ensures var gen, pod := run.states[k].tasks[id].gen, run.states[k].tasks[id].found.value;
      && r < k && r < |run.moves| && pod.name in run.states[r].cluster.pods && run.states[r].cluster.pods[pod.name] == pod
      && pod.owner == Some(gen.key) && !pod.Unstamped() && !pod.Stamped(gen.job, gen.token) && Issued(run.states[r].db, gen)
    decreases k
  {
    var t' := run.states[k].tasks[id];
    r := LastStep(run, k, id);
    var w := run.states[r];
    RunSound(run, r);
    OnlyRecyclesRecycle(w.db, w.cluster, w.modes, run.moves[r].0, w.tasks[id], run.moves[r].1.fails, run.moves[r].1.pids,
                        run.states[r + 1].db, run.states[r + 1].cluster, t');
    if w.tasks[id].found.Some? {
      r := RecycleRead(run, r, id);
    } else {
      assert TaskOk(w.db, w.cluster, w.tasks[id]);
      assert w.tasks[id].name in w.cluster.pods && w.cluster.pods[w.tasks[id].name].name == w.tasks[id].name;
    }
  }

  /** The recycle path: if its caller still held its token when the pod was read, then neither marking
      the stamped job failed nor, while the pod keeps that stamp, deleting it hits a generation at
      work, under whatever token its job might run. */
  lemma RecycleSparesGenerationsAtWork(run: Run, k: nat, id: nat, t: Token) returns (r: nat)
    requires run.Valid() && k < |run.moves| && id in run.states[k].tasks
    requires run.states[k].tasks[id].Recycle? && run.states[k].tasks[id].found.Some?
    ensures var gen, pod := run.states[k].tasks[id].gen, run.states[k].tasks[id].found.value;
      && r < k && pod.name in run.states[r].cluster.pods && run.states[r].cluster.pods[pod.name] == pod
      && (Live(run.states[r].db, gen.token, run.moves[r].0) ==>
            WholeStamp(pod) && !Protected(run.states[k].db, run.moves[k].0, pod.stampJob.value, t))
  {
    var gen, pod := run.states[k].tasks[id].gen, run.states[k].tasks[id].found.value;
    r := RecycleRead(run, k, id);
    if Live(run.states[r].db, gen.token, run.moves[r].0) {
      RecycleFindsOnlyDisplaced(run, r, k, gen, pod.name, t);
    }
  }

  /** The delete of the recycle path, by uid alone and whatever was stamped on the pod since the read:
      if the caller holds its token then, a generation at work that is hit is its own. */
  lemma RecycleHitsNoForeignGeneration(w: World, at: int, m: Move, w': World, n: PodName)
    requires Sound(w) && Next(w, at, m, w') && m.Go? && w.tasks[m.id].Recycle? && Live(w.db, w.tasks[m.id].gen.token, at)
    requires n in w.cluster.pods && n !in w'.cluster.pods && WholeStamp(w.cluster.pods[n])
    requires Protected(w.db, at, w.cluster.pods[n].stampJob.value, w.cluster.pods[n].stampToken.value)
    ensures w.cluster.pods[n].Stamped(w.tasks[m.id].gen.job, w.tasks[m.id].gen.token)
  {
    var t, pod := w.tasks[m.id], w.cluster.pods[n];
    assert TaskOk(w.db, w.cluster, t) && Logged(w.cluster, pod) && StampOk(w.db, w.cluster.log[pod.version]);
    RecycleDeletesFound(w.db, w.cluster, at, t, w'.db, w'.cluster, w'.tasks[m.id], n);
    assert w.cluster.log[pod.version].SamePod(w.cluster.log[t.found.value.version]);
    OneLiveToken(w.db, t.gen.token, pod.stampToken.value, at, at);
  }

  lemma RecycleDeletesFound(db: Db, cl: Cluster, at: int, t: Task, db': Db, cl': Cluster, t': Task, n: PodName)
    requires t.Recycle? && RecycleStep(db, cl, at, t, db', cl', t') && n in cl.pods && n !in cl'.pods
    ensures t.admitted && t.marked && t.found.Some? && n == t.found.value.name && cl.pods[n].uid == t.found.value.uid
  {
  }
}

/** What the reaper must have seen before it deletes a pod, and before it spares one. */
module Reaping {
  import opened Wrappers
  import opened Records
  import opened Programs
  import opened Snapshots
  import opened Protocol
  import opened Windows

  lemma OnlyReapsReap(db: Db, cl: Cluster, modes: map<nat, Mode>, at: int, t: Task, fails: bool, pids: seq<nat>,
                      db': Db, cl': Cluster, t': Task)
    requires TaskStep(db, cl, modes, at, t, fails, pids, db', cl', t') && t'.Reap?
    ensures t.Reap? && t.now == t'.now && t.idleTtl == t'.idleTtl && t.seen == t'.seen
    ensures ReapStep(db, cl, at, t, db', cl', t')
  {
  }

  /** The step that brought a tick of the reaper to where it is in state `k`. */
  lemma ReapStepBefore(run: Run, k: nat, id: nat, t: Task) returns (r: nat)
    requires run.Valid() && k < |run.states| && id in run.states[k].tasks && run.states[k].tasks[id] == t
    requires t.Reap? && t.sweep != Listed
    ensures r < k && r < |run.moves| && id in run.states[r].tasks
    ensures var u := run.states[r].tasks[id];
      && u.Reap? && u.now == t.now && u.idleTtl == t.idleTtl && u.seen == t.seen && TaskOk(run.states[r].db, run.states[r].cluster, u)
      && ReapStep(run.states[r].db, run.states[r].cluster, run.moves[r].0, u, run.states[r + 1].db, run.states[r + 1].cluster, t)
  {
    r := LastStep(run, k, id);
    RunSound(run, r);
    var w := run.states[r];
    OnlyReapsReap(w.db, w.cluster, w.modes, run.moves[r].0, w.tasks[id], run.moves[r].1.fails, run.moves[r].1.pids,
                  run.states[r + 1].db, run.states[r + 1].cluster, t);
  }

  /** No job of the workspace is queued or running. */
  predicate NothingPending(db: Db, key: Key) {
    forall j :: j in db.jobs && db.jobs[j].key == key ==> !db.jobs[j].status.Queued? && !db.jobs[j].status.Running?
  }

  /** No lease on the workspace reaches beyond `now`. */
  predicate NoLeaseAfter(db: Db, key: Key, now: int) {
    key in db.leases ==> db.leases[key].expiresAt <= now
  }

  /** `j` belongs to the workspace, and no job of the workspace was created after it. */
  predicate Newest(db: Db, key: Key, j: JobId) {
    && j in db.jobs && db.jobs[j].key == key
    && forall i :: i in db.jobs && db.jobs[i].key == key ==> !(db.jobs[i].createdAt > db.jobs[j].createdAt)
  }

  /** How long before `now` the job ended or, if it has not, was created. */
  function Age(job: Job, now: int): int {
    match job.completedAt case Some(end) => now - end case None => now - job.createdAt
  }

  /** The workspace has no job, or the age of its newest is more than `idleTtl`. */
  predicate LongUnused(db: Db, key: Key, now: int, idleTtl: nat) {
    || (forall j :: j in db.jobs ==> db.jobs[j].key != key)
    || (exists j | j in db.jobs :: Newest(db, key, j) && Age(db.jobs[j], now) > idleTtl)
  }

  lemma LatestIsNewest(db: Db, key: Key, now: int)
    ensures forall j :: IsLatestJob(db, key, j) <==> Newest(db, key, j)
    ensures forall j :: j in db.jobs ==> now - LastActivity(db.jobs[j]) == Age(db.jobs[j], now)
  {
  }

  lemma UnusedMeansLongUnused(db: Db, cl: Cluster, at: int, t: Task, db': Db, cl': Cluster, t': Task)
    requires t.Reap? && t.sweep.Unused? && ReapStep(db, cl, at, t, db', cl', t') && t'.Reap? && t.seen.owner.Some?
    ensures LongUnused(db, t.seen.owner.value, t.now, t.idleTtl) && t.now - t.seen.createdAt > t.idleTtl
  {
    LatestIsNewest(db, t.seen.owner.value, t.now);
  }

  /** Before the reaper deletes a pod that no job is stamped on, it has seen, one after the other, that
      no job of the workspace was pending, that no lease reached beyond the beginning of the tick, and
      that the workspace had long been unused; and the pod is old. */
  lemma UnstampedPodsAreReapedIdle(run: Run, k: nat, id: nat, t: Task) returns (r1: nat, r2: nat, r3: nat)
    requires run.Valid() && k < |run.states| && id in run.states[k].tasks && run.states[k].tasks[id] == t
    requires t.Reap? && t.sweep.Ready? && t.seen.owner.Some? && t.seen.Unstamped()
    ensures r1 < r2 < r3 < k
    ensures NothingPending(run.states[r1].db, t.seen.owner.value)
    ensures NoLeaseAfter(run.states[r2].db, t.seen.owner.value, t.now)
    ensures LongUnused(run.states[r3].db, t.seen.owner.value, t.now, t.idleTtl)
    ensures t.now - t.seen.createdAt > t.idleTtl
  {
    r3 := ReapStepBefore(run, k, id, t);
    UnusedMeansLongUnused(run.states[r3].db, run.states[r3].cluster, run.moves[r3].0, run.states[r3].tasks[id],
                          run.states[r3 + 1].db, run.states[r3 + 1].cluster, t);
    r2 := ReapStepBefore(run, r3, id, run.states[r3].tasks[id]);
    r1 := ReapStepBefore(run, r2, id, run.states[r2].tasks[id]);
    NoneActiveMeansNothingPending(run.states[r1].db, t.seen.owner.value);
  }

  lemma NoneActiveMeansNothingPending(db: Db, key: Key)
    ensures NothingPending(db, key) <==> !AnyActiveJob(db, key)
  {
    if !AnyActiveJob(db, key) {
      forall j | j in db.jobs && db.jobs[j].key == key ensures !db.jobs[j].status.Queued? && !db.jobs[j].status.Running? {
        assert !ActiveJob(db, key, j);
      }
    }
  }

  /** A pod without a workspace is only ever deleted by age. */
  lemma UnownedPodsAreReapedByAge(run: Run, k: nat, id: nat, t: Task)
    requires run.Valid() && k < |run.states| && id in run.states[k].tasks && run.states[k].tasks[id] == t
    requires t.Reap? && t.sweep.Ready? && t.seen.owner.None?
    ensures t.now - t.seen.createdAt > t.idleTtl
  {
    var r := ReapStepBefore(run, k, id, t);
  }

  // ---------------------------------------------------------------- and before it spares one

  predicate PendingJob(db: Db, key: Key, j: JobId) {
    j in db.jobs && db.jobs[j].key == key && (db.jobs[j].status == Queued || db.jobs[j].status == Running)
  }

  /** The row of the workspace is held for the job under the token beyond `now`. */
  predicate LeaseRow(db: Db, key: Key, j: JobId, t: Token, now: int) {
    && key in db.leases && db.leases[key].job == Some(j) && db.leases[key].token == t && db.leases[key].expiresAt > now
  }

  /** Tick `id` ends at step `k` without having failed and without having reached the delete. */
  predicate Spares(run: Run, k: nat, id: nat)
    requires k < |run.moves| && |run.states| == |run.moves| + 1
  {
    && run.moves[k].1.Go? && run.moves[k].1.id == id && !run.moves[k].1.fails
    && id in run.states[k].tasks && run.states[k].tasks[id].Reap? && !run.states[k].tasks[id].sweep.Ready?
    && id in run.states[k + 1].tasks && run.states[k + 1].tasks[id] == Ended
  }

  lemma SparingStep(run: Run, k: nat, id: nat)
    requires run.Valid() && k < |run.moves| && Spares(run, k, id)
    ensures var w, w' := run.states[k], run.states[k + 1];
      && ReapStep(w.db, w.cluster, run.moves[k].0, w.tasks[id], w'.db, w'.cluster, Ended)
      && TaskOk(w.db, w.cluster, w.tasks[id])
  {
    RunSound(run, k);
    assert run.Step(k);
  }

  /** A stamped pod is spared only if its job was pending and then its lease live as of the tick: every
      other stamped pod goes on to be deleted. */
  lemma StampedPodsAreSparedAtWork(run: Run, k: nat, id: nat, t: Task) returns (r: nat)
    requires run.Valid() && k < |run.moves| && Spares(run, k, id) && run.states[k].tasks[id] == t
    requires t.seen.owner.Some? && !t.seen.Unstamped()
    ensures r < k && WholeStamp(t.seen)
    ensures PendingJob(run.states[r].db, t.seen.owner.value, t.seen.stampJob.value)
    ensures LeaseRow(run.states[k].db, t.seen.owner.value, t.seen.stampJob.value, t.seen.stampToken.value, t.now)
  {
    SparingStep(run, k, id);
    r := ReapStepBefore(run, k, id, t);
  }

  /** A pod that no job is stamped on is spared only if the workspace had a pending job, or a lease that
      reached beyond the beginning of the tick, or it or the pod was used within the idle time. */
  lemma UnstampedPodsAreSparedInUse(run: Run, k: nat, id: nat, t: Task) returns (r: nat)
    requires run.Valid() && k < |run.moves| && Spares(run, k, id) && run.states[k].tasks[id] == t
    requires t.seen.owner.Some? && t.seen.Unstamped()
    ensures r <= k
    ensures var key := t.seen.owner.value;
      || !NothingPending(run.states[r].db, key)
      || !NoLeaseAfter(run.states[k].db, key, t.now)
      || t.now - t.seen.createdAt <= t.idleTtl
      || exists j :: Newest(run.states[k].db, key, j) && Age(run.states[k].db.jobs[j], t.now) <= t.idleTtl
  {
    SparingStep(run, k, id);
    r := k;
    if t.sweep.Quiet? {
      r := ReapStepBefore(run, k, id, t);
      NoneActiveMeansNothingPending(run.states[r].db, t.seen.owner.value);
    } else if t.sweep.Unused? {
      UnusedButSpared(run.states[k].db, run.states[k].cluster, run.moves[k].0, t, run.states[k + 1].db, run.states[k + 1].cluster);
    }
  }

  lemma UnusedButSpared(db: Db, cl: Cluster, at: int, t: Task, db': Db, cl': Cluster)
    requires t.Reap? && t.sweep.Unused? && t.seen.owner.Some? && ReapStep(db, cl, at, t, db', cl', Ended)
    ensures || t.now - t.seen.createdAt <= t.idleTtl
            || exists j :: Newest(db, t.seen.owner.value, j) && Age(db.jobs[j], t.now) <= t.idleTtl
  {
    LatestIsNewest(db, t.seen.owner.value, t.now);
  }
}

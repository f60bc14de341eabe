/** The life of a job over all its writers, and how the workspace passes from one job to the next. */
module Lifecycle {
  import opened Wrappers
  import opened Records
  import opened Programs
  import opened Invariants
  import opened Snapshots
  import opened Protocol
  import opened Fencing

  /** The only ways in which a job row may change from `job` to `job'`. */
  predicate LegalChange(job: Job, job': Job) {
    && job'.key == job.key
    && job.status.Rank() <= job'.status.Rank()
    && (job.status.Terminal() && job' != job ==> job'.status.Blocked?)
    && (job'.status.Running? && !job.status.Running? ==> job.status.Queued?)
    && (job'.status.Detached? && !job.status.Detached? ==> job.status.Running?)
  }

  lemma UpdateIsLegal(db: Db, i: JobId, from: set<Status>, status: Status, at: int, j: JobId)
    requires DbInv(db) && UpdateJob(db, i, from, status, at).Some? && j in db.jobs
    requires forall s :: s in from ==> s.Rank() < status.Rank()
    requires (status.Running? ==> from <= {Queued}) && (status.Detached? ==> from <= {Running})
    ensures var db' := UpdateJob(db, i, from, status, at).value;
      && j in db'.jobs && LegalChange(db.jobs[j], db'.jobs[j])
      && (db'.jobs[j] != db.jobs[j] ==> !db.jobs[j].status.Terminal())
  {
    assert CompletedIffTerminal(db.jobs[j]);
  }

  lemma WriteIsLegal(db: Db, i: JobId, writer: Writer, at: int, j: JobId)
    requires DbInv(db) && Written(db, i, writer, at).Some? && j in db.jobs
    ensures var db' := Written(db, i, writer, at).value;
      && j in db'.jobs && LegalChange(db.jobs[j], db'.jobs[j])
      && (db'.jobs[j] != db.jobs[j] ==> !db.jobs[j].status.Terminal())
  {
    match writer
    case CancelActive => UpdateIsLegal(db, i, {Queued, Running}, Cancelled, at, j);
    case CancelDetached => UpdateIsLegal(db, i, {Status.Detached}, Cancelled, at, j);
    case FinishDetached(outcome) => UpdateIsLegal(db, i, {Status.Detached}, outcome, at, j);
    case FailStaleJob(observed) => UpdateIsLegal(db, i, {observed}, Failed, at, j);
  }

  lemma FailStaleIsLegal(db: Db, pod: Pod, at: int, j: JobId)
    requires DbInv(db) && j in db.jobs
    ensures var db' := FailStale(db, pod, at);
      && j in db'.jobs && LegalChange(db.jobs[j], db'.jobs[j])
      && (db'.jobs[j] != db.jobs[j] ==> !db.jobs[j].status.Terminal())
  {
    if FailStale(db, pod, at) != db { UpdateIsLegal(db, pod.stampJob.value, {Queued, Running}, Failed, at, j); }
  }

  lemma ExecuteIsLegal(db: Db, at: int, i: JobId, e: Exec, c: Choice, db': Db, e': Exec, j: JobId)
    requires DbInv(db) && i in db.jobs && ExecStep(db, at, i, e, c, db', e') && j in db.jobs
    ensures j in db'.jobs && LegalChange(db.jobs[j], db'.jobs[j])
    ensures db.jobs[j].status.Terminal() && db'.jobs[j] != db.jobs[j] ==> i == j && c == Block && e == Submitted
  {
    if db'.jobs != db.jobs {
      match c
      case StartRunning => UpdateIsLegal(db, i, {Queued}, Running, at, j);
      case Detach => UpdateIsLegal(db, i, {Running}, Status.Detached, at, j);
      case Complete(success) => UpdateIsLegal(db, i, {Running}, if success then Completed else Failed, at, j);
      case WriteCancelled => UpdateIsLegal(db, i, {Queued, Running}, Cancelled, at, j);
      case WriteFailure(blocked) =>
        UpdateIsLegal(db, i, if e.lease.None? then {Queued} else {Running}, if blocked then Blocked else Failed, at, j);
      case _ =>
    }
  }

  /** Every step over all writers changes a job legally. A terminal status is replaced only by the
      unconditional write of a submitter that has not enqueued the job. */
  lemma JobStepIsLegal(w: World, at: int, m: Move, w': World, j: JobId)
    requires Sound(w) && Next(w, at, m, w') && j in w.db.jobs
    ensures j in w'.db.jobs && LegalChange(w.db.jobs[j], w'.db.jobs[j])
    ensures w.db.jobs[j].status.Terminal() && w'.db.jobs[j] != w.db.jobs[j] ==>
              m == Execute(j, Block) && j in w.exec && w.exec[j] == Submitted
  {
    match m
    case Execute(i, c) => ExecuteIsLegal(w.db, at, i, w.exec[i], c, w'.db, w'.exec[i], j);
    case Write(i, writer) => WriteIsLegal(w.db, i, writer, at, j);
    case Go(id, fails, pids) =>
      if w'.db != w.db {
        TaskStepTables(w.db, w.cluster, w.modes, at, w.tasks[id], fails, pids, w'.db, w'.cluster, w'.tasks[id]);
        FailStaleIsLegal(w.db, if w.tasks[id].Reap? then w.tasks[id].seen else w.tasks[id].found.value, at, j);
      }
    case _ =>
  }

  /** Exactly when a terminal status is replaced: by the unconditional write of a submitter whose
      preflight failed, unless the status is blocked already. */
  lemma OnlyBlockReplacesTerminal(w: World, at: int, m: Move, w': World, j: JobId)
    requires Sound(w) && Next(w, at, m, w') && j in w.db.jobs && w.db.jobs[j].status.Terminal()
    ensures j in w'.db.jobs
    ensures w'.db.jobs[j].status != w.db.jobs[j].status <==> m == Execute(j, Block) && !w.db.jobs[j].status.Blocked?
  {
    JobStepIsLegal(w, at, m, w', j);
  }

  lemma ProgramsOnlyFail(w: World, at: int, m: Move, w': World)
    requires Next(w, at, m, w') && m.Go?
    ensures w'.db.leases == w.db.leases && w'.db.jobs.Keys == w.db.jobs.Keys
    ensures forall j :: j in w.db.jobs ==> w'.db.jobs[j] == w.db.jobs[j] || w'.db.jobs[j].status.Failed?
  {
    if w'.db != w.db {
      var t := w.tasks[m.id];
      TaskStepTables(w.db, w.cluster, w.modes, at, t, m.fails, m.pids, w'.db, w'.cluster, w'.tasks[m.id]);
      FailStaleOnlyFails(w.db, if t.Reap? then t.seen else t.found.value, at);
    }
  }

  predicate Starts(job: Job, job': Job) {
    job'.status != job.status && (job'.status.Running? || job'.status.Detached?)
  }

  lemma WritersDoNotStart(db: Db, i: JobId, writer: Writer, at: int, j: JobId)
    requires Written(db, i, writer, at).Some? && j in db.jobs
    ensures !Starts(db.jobs[j], Written(db, i, writer, at).value.jobs[j])
  {
  }

  lemma ExecutorStarts(db: Db, at: int, i: JobId, e: Exec, c: Choice, db': Db, e': Exec, j: JobId)
    requires i in db.jobs && ExecStep(db, at, i, e, c, db', e') && j in db.jobs && j in db'.jobs && Starts(db.jobs[j], db'.jobs[j])
    ensures i == j && (c.StartRunning? || c.Detach?)
  {
  }

  lemma OnlyExecutorsStart(w: World, at: int, m: Move, w': World, j: JobId)
    requires Sound(w) && Next(w, at, m, w') && j in w.db.jobs && j in w'.db.jobs && Starts(w.db.jobs[j], w'.db.jobs[j])
    ensures m.Execute? && m.job == j && (m.choice.StartRunning? || m.choice.Detach?)
  {
    match m
    case Go(_, _, _) => ProgramsOnlyFail(w, at, m, w');
    case Execute(i, c) => ExecutorStarts(w.db, at, i, w.exec[i], c, w'.db, w'.exec[i], j);
    case Write(i, writer) => WritersDoNotStart(w.db, i, writer, at, j);
    case _ =>
  }

  /** A job starts running, or is detached, only by its own executor under its live lease. */
  lemma StartsUnderLiveLease(w: World, at: int, m: Move, w': World, j: JobId)
    requires Sound(w) && Next(w, at, m, w') && j in w.db.jobs && j in w'.db.jobs
    requires Starts(w.db.jobs[j], w'.db.jobs[j])
    ensures m.Execute? && m.job == j && j in w.exec && LeaseOf(w.exec[j]).Some?
    ensures var t := LeaseOf(w.exec[j]).value.0; Live(w.db, t, at) && w.db.issued[t].job == j
  {
    OnlyExecutorsStart(w, at, m, w', j);
    ExecutorsAreLive(w, at, j, m.choice, w', LeaseOf(w.exec[j]).value.0);
  }

  // ---------------------------------------------------------------- over whole runs

  lemma {:induction false} JobsOnlyMoveOn(run: Run, a: nat, b: nat, j: JobId)
    requires run.Valid() && a <= b < |run.states| && j in run.states[a].db.jobs
    ensures j in run.states[b].db.jobs
    ensures run.states[a].db.jobs[j].status.Rank() <= run.states[b].db.jobs[j].status.Rank()
  {
    RunEvolves(run, a, b);
  }

  /** A job's completion time is set exactly while it is terminal, terminal jobs stay terminal, and
      a job that has left running or detached never comes back to it. */
  lemma JobLifecycle(run: Run, a: nat, b: nat, c: nat, j: JobId)
    requires run.Valid() && a <= b <= c < |run.states| && j in run.states[a].db.jobs
    ensures j in run.states[b].db.jobs && j in run.states[c].db.jobs
    ensures var jb := run.states[b].db.jobs[j]; jb.completedAt.Some? <==> jb.status.Terminal()
    ensures var ja, jb, jc := run.states[a].db.jobs[j].status, run.states[b].db.jobs[j].status, run.states[c].db.jobs[j].status;
      && (ja.Terminal() ==> jb.Terminal())
      && (ja.Running? && !jb.Running? ==> !jc.Running? && !jc.Queued?)
      && (ja.Detached? && !jb.Detached? ==> jc.Terminal())
  {
    JobsOnlyMoveOn(run, a, b, j);
    JobsOnlyMoveOn(run, b, c, j);
    RunSound(run, b);
    assert CompletedIffTerminal(run.states[b].db.jobs[j]);
  }

  /** The submitter of `j` has answered or enqueued it. */
  predicate PastPreflight(w: World, j: JobId) {
    j in w.db.jobs && (j in w.exec ==> !w.exec[j].Submitted?)
  }

  lemma PreflightIsOver(w: World, at: int, m: Move, w': World, j: JobId)
    requires Next(w, at, m, w') && Evolves(w, w') && PastPreflight(w, j)
    ensures PastPreflight(w', j)
  {
  }

  lemma TerminalStep(run: Run, i: nat, j: JobId)
    requires run.Valid() && i < |run.moves|
    requires PastPreflight(run.states[i], j) && run.states[i].db.jobs[j].status.Terminal()
    ensures PastPreflight(run.states[i + 1], j) && run.states[i + 1].db.jobs[j].status == run.states[i].db.jobs[j].status
  {
    var (at, m) := run.moves[i];
    RunStep(run, i);
    PreflightIsOver(run.states[i], at, m, run.states[i + 1], j);
    OnlyBlockReplacesTerminal(run.states[i], at, m, run.states[i + 1], j);
  }

  /** Over runs: from the preflight of a job on, its terminal status is final. */
  lemma {:induction false} TerminalIsFinal(run: Run, i: nat, k: nat, j: JobId)
    requires run.Valid() && i <= k < |run.states|
    requires PastPreflight(run.states[i], j) && run.states[i].db.jobs[j].status.Terminal()
    ensures PastPreflight(run.states[k], j) && run.states[k].db.jobs[j].status == run.states[i].db.jobs[j].status
    decreases k
  {
    if i < k {
      TerminalIsFinal(run, i, k - 1, j);
      TerminalStep(run, k - 1, j);
    }
  }

  // ---------------------------------------------------------------- hand-over of the workspace

  lemma ExecutorChangesHands(db: Db, at: int, i: JobId, e: Exec, c: Choice, db': Db, e': Exec)
    requires i in db.jobs && ExecStep(db, at, i, e, c, db', e') && db'.leases != db.leases
    ensures c.CreateRow? || c.ClaimRow? || c.StopHeartbeat?
  {
  }

  lemma WritersKeepLeases(db: Db, i: JobId, writer: Writer, at: int)
    requires Written(db, i, writer, at).Some?
    ensures Written(db, i, writer, at).value.leases == db.leases
  {
  }

  lemma RenewalKeepsToken(db: Db, gen: Generation, expiresAt: int, at: int, key: Key)
    requires RenewLease(db, gen.key, gen.job, gen.token, gen.holder, expiresAt, at).Some? && key in db.leases
    ensures var db' := RenewLease(db, gen.key, gen.job, gen.token, gen.holder, expiresAt, at).value;
      key in db'.leases && db'.leases[key].token == db.leases[key].token
  {
  }

  lemma OthersKeepTables(w: World, at: int, m: Move, w': World)
    requires Next(w, at, m, w') && !m.Execute? && !m.Go? && !m.Renew? && !m.Write?
    ensures w'.db.leases == w.db.leases
  {
  }

  lemma OnlyExecutorsChangeHands(w: World, at: int, m: Move, w': World, key: Key)
    requires Next(w, at, m, w') && key in w.db.leases && key in w'.db.leases
    requires w'.db.leases[key].token != w.db.leases[key].token
    ensures m.Execute? && (m.choice.CreateRow? || m.choice.ClaimRow? || m.choice.StopHeartbeat?)
  {
    match m
    case Go(_, _, _) => ProgramsOnlyFail(w, at, m, w');
    case Execute(i, c) => ExecutorChangesHands(w.db, at, i, w.exec[i], c, w'.db, w'.exec[i]);
    case Write(i, writer) => WritersKeepLeases(w.db, i, writer, at);
    case Renew(gen, readAt) => RenewalKeepsToken(w.db, gen, readAt + WORKSPACE_LEASE_TTL_MS, at, key);
    case _ => OthersKeepTables(w, at, m, w');
  }

  /** When the row passes from job `j` to anything else, its lease had expired, or `j` is by then
      terminal or detached. Every explicit release is of the second kind: it is the last step of the
      executor of `j`, with the pod finalised or the job detached by that executor. */
  lemma HandOverIsSafe(w: World, at: int, m: Move, w': World, key: Key)
    requires Sound(w) && Next(w, at, m, w') && key in w.db.leases && w.db.leases[key].job.Some?
    requires key in w'.db.leases && w'.db.leases[key].token != w.db.leases[key].token
    ensures var j := w.db.leases[key].job.value;
      && j in w.db.jobs
      && (if w'.db.leases[key].job.None? then HandedOver(w.db, j) && w'.db.jobs == w.db.jobs else w.db.leases[key].expiresAt < at)
    ensures w'.db.leases[key].job.None? ==>
              && m.Execute? && m.job == w.db.leases[key].job.value && m.choice.StopHeartbeat? && m.job in w.exec
              && (m.choice.podFinalized || SaysDetached(w.exec[m.job]))
  {
    OnlyExecutorsChangeHands(w, at, m, w', key);
    ExecutorHandsOver(w.db, at, m.job, w.exec[m.job], m.choice, w'.db, w'.exec[m.job], key);
  }

  predicate SaysDetached(e: Exec) { e.Finalizing? && e.detached }

  lemma ExecutorHandsOver(db: Db, at: int, i: JobId, e: Exec, c: Choice, db': Db, e': Exec, key: Key)
    requires DbInv(db) && ExecOk(db, i, e) && ExecStep(db, at, i, e, c, db', e')
    requires c.CreateRow? || c.ClaimRow? || c.StopHeartbeat?
    requires key in db.leases && db.leases[key].job.Some? && key in db'.leases && db'.leases[key].token != db.leases[key].token
    ensures var j := db.leases[key].job.value;
      && j in db.jobs
      && (if db'.leases[key].job.None? then HandedOver(db, j) && db'.jobs == db.jobs else db.leases[key].expiresAt < at)
    ensures db'.leases[key].job.None? ==>
              i == db.leases[key].job.value && c.StopHeartbeat? && (c.podFinalized || SaysDetached(e))
  {
    assert RowOk(db, key);
    assert IssueOk(db, db.leases[key].token);
  }

  // ---------------------------------------------------------------- and it does happen

  /** The executor of `j` has its lease under `t` and has itself brought the job to its end. */
  predicate OwnHandOver(w: World, j: JobId, lease: (Token, Holder)) {
    j in w.exec && LeaseOf(w.exec[j]) == Some(lease) && ClaimsHandOver(w.exec[j])
  }

  lemma HandOverBegins(db: Db, at: int, j: JobId, e: Exec, c: Choice, db': Db, e': Exec)
    requires j in db.jobs && j in db'.jobs && ExecStep(db, at, j, e, c, db', e') && LeaseOf(e).Some?
    requires db'.jobs[j].status != db.jobs[j].status && HandedOver(db', j)
    ensures LeaseOf(e') == LeaseOf(e) && ClaimsHandOver(e')
  {
  }

  lemma HandOverGoesOn(w: World, at: int, m: Move, w': World, j: JobId, lease: (Token, Holder))
    requires Next(w, at, m, w') && OwnHandOver(w, j, lease) && m != Execute(j, CatchFails)
    requires m.Execute? && m.job == j ==> !m.choice.StopHeartbeat?
    ensures OwnHandOver(w', j, lease)
  {
  }

  lemma HandOverEnds(w: World, at: int, j: JobId, tombstone: Token, w': World, lease: (Token, Holder))
    requires Sound(w) && Next(w, at, Execute(j, StopHeartbeat(true, tombstone)), w') && OwnHandOver(w, j, lease)
    ensures Displaced(w'.db, lease.0)
  {
    assert ExecOk(w.db, j, w.exec[j]);
    assert IssueOk(w.db, lease.0);
    assert RowOk(w.db, w.db.jobs[j].key);
  }

  lemma {:induction false} OwnHandOverLasts(run: Run, i: nat, k: nat, j: JobId, lease: (Token, Holder))
    requires run.Valid() && i <= k < |run.states| && OwnHandOver(run.states[i], j, lease)
    requires forall r :: i <= r < k ==> run.moves[r].1 != Execute(j, CatchFails) && !Stops(run.moves[r].1, j)
    ensures OwnHandOver(run.states[k], j, lease)
    decreases k
  {
    if i < k {
      OwnHandOverLasts(run, i, k - 1, j, lease);
      assert run.Step(k - 1);
      HandOverGoesOn(run.states[k - 1], run.moves[k - 1].0, run.moves[k - 1].1, run.states[k], j, lease);
    }
  }

  predicate Stops(m: Move, j: JobId) { m.Execute? && m.job == j && m.choice.StopHeartbeat? }

  /** If an executor that has the lease brings its job to an end or detaches it at step `i`, does not
      fail in its error handling, and ends at step `k` with the pod finalised, then the lease is
      released: the workspace does not have to wait for expiry. */
  lemma HandedOverLeaseIsReleased(run: Run, i: nat, k: nat, j: JobId, c: Choice, tombstone: Token)
    requires run.Valid() && i < k < |run.moves| && j in run.states[i].db.jobs && j in run.states[i + 1].db.jobs
    requires run.moves[i].1 == Execute(j, c) && j in run.states[i].exec && LeaseOf(run.states[i].exec[j]).Some?
    requires run.states[i + 1].db.jobs[j].status != run.states[i].db.jobs[j].status && HandedOver(run.states[i + 1].db, j)
    requires forall r :: i < r < k ==> run.moves[r].1 != Execute(j, CatchFails) && !Stops(run.moves[r].1, j)
    requires run.moves[k].1 == Execute(j, StopHeartbeat(true, tombstone))
    ensures Displaced(run.states[k + 1].db, LeaseOf(run.states[i].exec[j]).value.0)
  {
    var lease := LeaseOf(run.states[i].exec[j]).value;
    assert run.Step(i);
    HandOverBegins(run.states[i].db, run.moves[i].0, j, run.states[i].exec[j], c, run.states[i + 1].db, run.states[i + 1].exec[j]);
    OwnHandOverLasts(run, i + 1, k, j, lease);
    RunSound(run, k);
    assert run.Step(k);
    HandOverEnds(run.states[k], run.moves[k].0, j, tombstone, run.states[k + 1], lease);
  }

  /** Job `j` is pending in state `m`, and its lease has not run out at the next statement. */
  predicate StillPending(run: Run, m: nat, key: Key, j: JobId)
    requires m < |run.moves| && |run.states| == |run.moves| + 1
  {
    && j in run.states[m].db.jobs && run.states[m].db.jobs[j].status.Active()
    && (key in run.states[m].db.leases ==> run.states[m].db.leases[key].expiresAt >= run.moves[m].0)
  }

  lemma RowJobsAgree(run: Run, m: nat, key: Key)
    requires run.Valid() && m < |run.moves| && key in run.states[m].db.leases && key in run.states[m + 1].db.leases
    requires run.states[m].db.leases[key].token == run.states[m + 1].db.leases[key].token && run.states[m].db.leases[key].job.Some?
    ensures run.states[m].db.leases[key].job == run.states[m + 1].db.leases[key].job
  {
    RunSound(run, m);
    RunSound(run, m + 1);
    StepEvolves(run, m);
    assert RowOk(run.states[m].db, key) && RowOk(run.states[m + 1].db, key);
  }

  lemma PendingStep(run: Run, m: nat, key: Key, j: JobId)
    requires run.Valid() && m < |run.moves| && StillPending(run, m, key, j)
    requires key in run.states[m].db.leases && run.states[m].db.leases[key].job == Some(j)
    ensures key in run.states[m + 1].db.leases && run.states[m + 1].db.leases[key].job == Some(j)
    ensures run.states[m + 1].db.leases[key].token == run.states[m].db.leases[key].token
  {
    StepEvolves(run, m);
    if run.states[m + 1].db.leases[key].token != run.states[m].db.leases[key].token {
      RunStep(run, m);
      HandOverIsSafe(run.states[m], run.moves[m].0, run.moves[m].1, run.states[m + 1], key);
    }
    RowJobsAgree(run, m, key);
  }

  /** Over runs: as long as job `j` is pending and its lease does not run out, nobody else gets the
      workspace, whatever aborts, errors and detach paths occur. */
  lemma {:induction false} PendingJobKeepsWorkspace(run: Run, i: nat, k: nat, key: Key, j: JobId)
    requires run.Valid() && i <= k < |run.states|
    requires key in run.states[i].db.leases && run.states[i].db.leases[key].job == Some(j)
    requires forall m :: i <= m < k ==> StillPending(run, m, key, j)
    ensures key in run.states[k].db.leases && run.states[k].db.leases[key].job == Some(j)
    ensures run.states[k].db.leases[key].token == run.states[i].db.leases[key].token
    decreases k
  {
    if i < k {
      PendingJobKeepsWorkspace(run, i, k - 1, key, j);
      PendingStep(run, k - 1, key, j);
    }
  }
}

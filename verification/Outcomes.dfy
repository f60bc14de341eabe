/** Where every status of a job comes from: for each status exactly the moves that bring it about. */
module Outcomes {
  import opened Wrappers
  import opened Records
  import opened Programs
  import opened Invariants
  import opened Snapshots
  import opened Protocol
  import opened Lifecycle

  /** The executor of `j` is at work under `lease`, which is live. */
  predicate UnderLease(db: Db, at: int, j: JobId, lease: Option<(Token, Holder)>)
    requires j in db.jobs
  {
    lease.Some? && Live(db, lease.value.0, at) && db.issued[lease.value.0] == Held(db.jobs[j].key, j, lease.value.1)
  }

  lemma HoldingIsLive(db: Db, at: int, j: JobId, lease: Option<(Token, Holder)>)
    requires DbInv(db) && j in db.jobs && lease.Some?
    ensures UnderLease(db, at, j, lease) <==> HoldsLease(db, db.jobs[j].key, j, lease.value.0, lease.value.1, at)
  {
    if db.jobs[j].key in db.leases { assert RowOk(db, db.jobs[j].key); }
  }

  /** The executor's choice `c` makes job `j` reach `s`. */
  predicate ExecutorCauses(db: Db, at: int, j: JobId, e: Exec, c: Choice, s: Status)
    requires j in db.jobs
  {
    var status := db.jobs[j].status;
    match s
    case Queued => false
    case Running => c == StartRunning && e.Acquired? && status.Queued? && UnderLease(db, at, j, LeaseOf(e))
    case Detached => c == Choice.Detach && e.Working? && status.Running? && UnderLease(db, at, j, LeaseOf(e))
    case Completed => c == Complete(true) && e.Working? && status.Running? && UnderLease(db, at, j, LeaseOf(e))
    case Cancelled => c == WriteCancelled && e.Catching? && (status.Queued? || status.Running?)
    case Failed =>
      || (c == Complete(false) && e.Working? && status.Running? && UnderLease(db, at, j, LeaseOf(e)))
      || (c == WriteFailure(false) && GivesUp(db, at, j, e))
    case Blocked => (c == Block && e.Submitted?) || (c == WriteFailure(true) && GivesUp(db, at, j, e))
  }

  /** An executor that never got the lease may end a queued job, one that has it its running job. */
  predicate GivesUp(db: Db, at: int, j: JobId, e: Exec)
    requires j in db.jobs
  {
    && e.Catching?
    && if e.lease.None? then db.jobs[j].status.Queued? else db.jobs[j].status.Running? && UnderLease(db, at, j, e.lease)
  }

  /** A writer without a lease makes a job of status `status` reach `s`. */
  predicate WriterCauses(status: Status, writer: Writer, s: Status) {
    match writer
    case CancelActive => s.Cancelled? && (status.Queued? || status.Running?)
    case CancelDetached => s.Cancelled? && status.Detached?
    case FinishDetached(outcome) => s == outcome && (s.Completed? || s.Failed? || s.Cancelled?) && status.Detached?
    case FailStaleJob(observed) => s.Failed? && status == observed && (status.Queued? || status.Running?)
  }

  /** A pod program is about to mark the job stamped on `pod`, which is pending in the pod's workspace. */
  predicate MarksStale(db: Db, t: Task, j: JobId)
    requires j in db.jobs
  {
    && ((t.Reap? && t.sweep.Stale?) || (t.Recycle? && t.admitted && t.found.Some? && !t.marked))
    && var pod := if t.Reap? then t.seen else t.found.value;
       && pod.stampJob == Some(j) && pod.owner == Some(db.jobs[j].key)
       && (db.jobs[j].status.Queued? || db.jobs[j].status.Running?)
  }

  /** The move makes job `j` reach `s`. */
  predicate Causes(w: World, at: int, m: Move, j: JobId, s: Status)
    requires j in w.db.jobs
  {
    match m
    case Execute(i, c) => i == j && j in w.exec && ExecutorCauses(w.db, at, j, w.exec[j], c, s)
    case Write(i, writer) => i == j && WriterCauses(w.db.jobs[j].status, writer, s)
    case Go(id, fails, _) => s.Failed? && !fails && id in w.tasks && MarksStale(w.db, w.tasks[id], j)
    case _ => false
  }

  /** The row goes from `job` to `job'` by reaching a new status at time `at`. */
  predicate Reaches(job: Job, at: int, job': Job) {
    && job'.key == job.key && job'.createdAt == job.createdAt
    && job'.startedAt == (if job'.status.Running? then Some(at) else job.startedAt)
    && job'.completedAt == (if job'.status.Running? || job'.status.Detached? then job.completedAt else Some(at))
  }

  lemma UpdateReaches(db: Db, i: JobId, from: set<Status>, status: Status, at: int, j: JobId)
    requires DbInv(db) && j in db.jobs && !status.Queued?
    ensures var r := UpdateJob(db, i, from, status, at);
      && (r.Some? <==> i in db.jobs && db.jobs[i].status in from && !db.jobs[i].status.Terminal())
      && (r.Some? ==> j in r.value.jobs && (j != i ==> r.value.jobs[j] == db.jobs[j])
                      && (j == i ==> r.value.jobs[j].status == status && Reaches(db.jobs[j], at, r.value.jobs[j])))
  {
    if i in db.jobs { assert CompletedIffTerminal(db.jobs[i]); }
  }


  lemma CatchingOutcome(db: Db, at: int, j: JobId, e: Exec, c: Choice, db': Db, e': Exec, s: Status)
    requires DbInv(db) && j in db.jobs && e.Catching? && ExecStep(db, at, j, e, c, db', e') && s != db.jobs[j].status
    ensures j in db'.jobs && (db'.jobs[j].status == s <==> ExecutorCauses(db, at, j, e, c, s))
    ensures db'.jobs[j].status == s ==> Reaches(db.jobs[j], at, db'.jobs[j])
  {
    if e.lease.Some? { HoldingIsLive(db, at, j, e.lease); }
    match c
    case WriteCancelled => UpdateReaches(db, j, {Queued, Running}, Cancelled, at, j);
    case WriteFailure(blocked) =>
      UpdateReaches(db, j, if e.lease.None? then {Queued} else {Running}, if blocked then Blocked else Failed, at, j);
    case _ =>
  }

  lemma WorkingOutcome(db: Db, at: int, j: JobId, e: Exec, c: Choice, db': Db, e': Exec, s: Status)
    requires DbInv(db) && j in db.jobs && e.Working? && ExecStep(db, at, j, e, c, db', e') && s != db.jobs[j].status
    ensures j in db'.jobs && (db'.jobs[j].status == s <==> ExecutorCauses(db, at, j, e, c, s))
    ensures db'.jobs[j].status == s ==> Reaches(db.jobs[j], at, db'.jobs[j])
  {
    HoldingIsLive(db, at, j, LeaseOf(e));
    match c
    case Detach => UpdateReaches(db, j, {Running}, Status.Detached, at, j);
    case Complete(success) => UpdateReaches(db, j, {Running}, if success then Completed else Failed, at, j);
    case _ =>
  }

  lemma ExecutorOutcome(db: Db, at: int, j: JobId, e: Exec, c: Choice, db': Db, e': Exec, s: Status)
    requires DbInv(db) && j in db.jobs && ExecStep(db, at, j, e, c, db', e') && s != db.jobs[j].status
    ensures j in db'.jobs && (db'.jobs[j].status == s <==> ExecutorCauses(db, at, j, e, c, s))
    ensures db'.jobs[j].status == s ==> Reaches(db.jobs[j], at, db'.jobs[j])
  {
    if e.Catching? {
      CatchingOutcome(db, at, j, e, c, db', e', s);
    } else if e.Working? {
      WorkingOutcome(db, at, j, e, c, db', e', s);
    } else if c == StartRunning {
      HoldingIsLive(db, at, j, LeaseOf(e));
      UpdateReaches(db, j, {Queued}, Running, at, j);
    }
  }

  lemma ExecutorLeavesOthers(db: Db, at: int, i: JobId, e: Exec, c: Choice, db': Db, e': Exec, j: JobId)
    requires i in db.jobs && ExecStep(db, at, i, e, c, db', e') && j in db.jobs && i != j
    ensures j in db'.jobs && db'.jobs[j] == db.jobs[j]
  {
  }

  lemma WriterOutcome(db: Db, at: int, i: JobId, writer: Writer, j: JobId, s: Status)
    requires DbInv(db) && Written(db, i, writer, at).Some? && j in db.jobs && s != db.jobs[j].status
    ensures var db' := Written(db, i, writer, at).value;
      && j in db'.jobs
      && (db'.jobs[j].status == s <==> i == j && WriterCauses(db.jobs[j].status, writer, s))
      && (db'.jobs[j].status == s ==> Reaches(db.jobs[j], at, db'.jobs[j]))
  {
    match writer
    case CancelActive => UpdateReaches(db, i, {Queued, Running}, Cancelled, at, j);
    case CancelDetached => UpdateReaches(db, i, {Status.Detached}, Cancelled, at, j);
    case FinishDetached(outcome) => UpdateReaches(db, i, {Status.Detached}, outcome, at, j);
    case FailStaleJob(observed) => UpdateReaches(db, i, {observed}, Failed, at, j);
  }

  lemma MarkOutcome(db: Db, pod: Pod, at: int, j: JobId)
    requires DbInv(db) && j in db.jobs
    ensures var db' := FailStale(db, pod, at);
      && j in db'.jobs
      && (if pod.stampJob == Some(j) && pod.owner == Some(db.jobs[j].key) && (db.jobs[j].status.Queued? || db.jobs[j].status.Running?)
          then db'.jobs[j].status.Failed? && Reaches(db.jobs[j], at, db'.jobs[j]) else db'.jobs[j] == db.jobs[j])
  {
    if pod.stampJob.Some? { UpdateReaches(db, pod.stampJob.value, {Queued, Running}, Failed, at, j); }
  }

  lemma ProgramOutcome(w: World, at: int, m: Move, w': World, j: JobId, s: Status)
    requires DbInv(w.db) && Next(w, at, m, w') && m.Go? && j in w.db.jobs && s != w.db.jobs[j].status
    ensures j in w'.db.jobs && (w'.db.jobs[j].status == s <==> Causes(w, at, m, j, s))
    ensures w'.db.jobs[j].status == s ==> Reaches(w.db.jobs[j], at, w'.db.jobs[j])
  {
    var t := w.tasks[m.id];
    if !m.fails && ((t.Reap? && t.sweep.Stale?) || (t.Recycle? && t.admitted && t.found.Some? && !t.marked)) {
      MarkOutcome(w.db, if t.Reap? then t.seen else t.found.value, at, j);
    } else {
      TaskStepTables(w.db, w.cluster, w.modes, at, t, m.fails, m.pids, w'.db, w'.cluster, w'.tasks[m.id]);
    }
  }

  /** For every status: a job reaches it in a step if and only if the move is one of those listed for it,
      and then the times of the row are set accordingly. */
  lemma StatusHasItsCauses(w: World, at: int, m: Move, w': World, j: JobId, s: Status)
    requires Sound(w) && Next(w, at, m, w') && j in w.db.jobs && s != w.db.jobs[j].status
    ensures j in w'.db.jobs && (w'.db.jobs[j].status == s <==> Causes(w, at, m, j, s))
    ensures w'.db.jobs[j].status == s ==> Reaches(w.db.jobs[j], at, w'.db.jobs[j])
  {
    match m
    case Execute(i, c) =>
      if i == j {
        ExecutorOutcome(w.db, at, j, w.exec[j], c, w'.db, w'.exec[j], s);
      } else {
        ExecutorLeavesOthers(w.db, at, i, w.exec[i], c, w'.db, w'.exec[i], j);
      }
    case Write(i, writer) => WriterOutcome(w.db, at, i, writer, j, s);
    case Go(_, _, _) => ProgramOutcome(w, at, m, w', j, s);
    case _ =>
  }

  lemma ExecutorsCreateNothing(db: Db, at: int, i: JobId, e: Exec, c: Choice, db': Db, e': Exec)
    requires i in db.jobs && ExecStep(db, at, i, e, c, db', e')
    ensures db'.jobs.Keys == db.jobs.Keys
  {
  }

  lemma WritersCreateNothing(db: Db, i: JobId, writer: Writer, at: int)
    requires Written(db, i, writer, at).Some?
    ensures Written(db, i, writer, at).value.jobs.Keys == db.jobs.Keys
  {
  }

  /** A job begins queued, with an executor that has not enqueued it, or blocked and with none. */
  lemma JobsBegin(w: World, at: int, m: Move, w': World, j: JobId)
    requires Sound(w) && Next(w, at, m, w') && j !in w.db.jobs && j in w'.db.jobs
    ensures m.Submit? && m.job == j && w'.db.jobs[j].createdAt == at && w'.db.jobs[j].startedAt == None
    ensures if m.blocked then w'.db.jobs[j].status.Blocked? && w'.db.jobs[j].completedAt == Some(at) && j !in w'.exec
            else w'.db.jobs[j].status.Queued? && w'.db.jobs[j].completedAt == None && j in w'.exec && w'.exec[j] == Submitted
  {
    match m
    case Go(_, _, _) => ProgramsOnlyFail(w, at, m, w');
    case Execute(i, c) => ExecutorsCreateNothing(w.db, at, i, w.exec[i], c, w'.db, w'.exec[i]);
    case Write(i, writer) => WritersCreateNothing(w.db, i, writer, at);
    case _ =>
  }

  /** The last step of an executor, and the one by which its submitter gives the job up, are final. */
  lemma {:induction false} EndedExecutorsStayEnded(run: Run, i: nat, k: nat, j: JobId)
    requires run.Valid() && i < k < |run.states| && i < |run.moves|
    requires run.moves[i].1.Execute? && run.moves[i].1.job == j && (run.moves[i].1.choice.Block? || run.moves[i].1.choice.StopHeartbeat?)
    ensures j in run.states[k].exec && run.states[k].exec[j] == Done
    decreases k
  {
    assert run.Step(k - 1);
    if i < k - 1 { EndedExecutorsStayEnded(run, i, k - 1, j); }
  }

  /** Over runs: whatever status a job has come to, one move of the run has brought it there. */
  lemma {:induction false} StatusWasBroughtAbout(run: Run, i: nat, k: nat, j: JobId) returns (r: nat)
    requires run.Valid() && i <= k < |run.states| && j in run.states[i].db.jobs && j in run.states[k].db.jobs
    requires run.states[k].db.jobs[j].status != run.states[i].db.jobs[j].status
    ensures i <= r < k && j in run.states[r].db.jobs
    ensures Causes(run.states[r], run.moves[r].0, run.moves[r].1, j, run.states[k].db.jobs[j].status)
    decreases k
  {
    JobsOnlyMoveOn(run, i, k - 1, j);
    RunStep(run, k - 1);
    var s := run.states[k].db.jobs[j].status;
    if run.states[k - 1].db.jobs[j].status == s {
      r := StatusWasBroughtAbout(run, i, k - 1, j);
    } else {
      r := k - 1;
      StatusHasItsCauses(run.states[r], run.moves[r].0, run.moves[r].1, run.states[k], j, s);
    }
  }
}

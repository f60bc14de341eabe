/** What every step keeps, whatever the clocks say, and what it keeps when they agree. */
module Invariants {
  import opened Wrappers
  import opened Records
  import opened Programs

  // ---------------------------------------------------------------- the tables

  predicate RowOk(db: Db, key: Key)
    requires key in db.leases
  {
    var row := db.leases[key];
    && row.token in db.issued
    && db.issued[row.token] == (if row.job.Some? then Held(key, row.job.value, row.holder) else Tombstone)
  }

  predicate IssueOk(db: Db, t: Token)
    requires t in db.issued
  {
    db.issued[t].Held? ==>
      var i := db.issued[t];
      i.key in db.leases && i.job in db.jobs && db.jobs[i.job].key == i.key
  }

  predicate CompletedIffTerminal(job: Job) {
    job.completedAt.Some? <==> job.status.Terminal()
  }

  ghost predicate DbInv(db: Db) {
    && (forall k :: k in db.leases ==> RowOk(db, k))
    && (forall t :: t in db.issued ==> IssueOk(db, t))
    && (forall j :: j in db.jobs ==> CompletedIffTerminal(db.jobs[j]))
    && (forall t, u :: t in db.issued && u in db.issued && SameJob(db, t, u) ==> t == u)
  }

  predicate SameJob(db: Db, t: Token, u: Token)
    requires t in db.issued && u in db.issued
  {
    db.issued[t].Held? && db.issued[u].Held? && db.issued[t].job == db.issued[u].job
  }

  /** How the tables may change: rows stay, tokens are never reinstalled, jobs never go back. */
  ghost predicate DbEvolves(db: Db, db': Db) {
    && (forall t :: t in db.issued ==> t in db'.issued && db'.issued[t] == db.issued[t])
    && (forall j :: j in db.jobs ==>
          j in db'.jobs && db'.jobs[j].key == db.jobs[j].key && db.jobs[j].status.Rank() <= db'.jobs[j].status.Rank())
    && (forall k :: k in db.leases ==>
          k in db'.leases && (db'.leases[k].token == db.leases[k].token || db'.leases[k].token !in db.issued))
  }

  /** A lease that has run out by `at` is not prolonged. */
  ghost predicate NotRevived(db: Db, at: int, db': Db) {
    forall k :: k in db.leases && k in db'.leases && db'.leases[k].token == db.leases[k].token ==>
      db.leases[k].expiresAt <= at ==> db'.leases[k].expiresAt <= at
  }

  /** `t` was displaced or released: its row carries another token. */
  predicate Displaced(db: Db, t: Token) {
    && t in db.issued && db.issued[t].Held? && db.issued[t].key in db.leases
    && db.leases[db.issued[t].key].token != t
  }

  /** `t` was displaced or released, or has expired by `clock`. */
  predicate Spent(db: Db, clock: int, t: Token) {
    && t in db.issued && db.issued[t].Held? && db.issued[t].key in db.leases
    && (db.leases[db.issued[t].key].token != t || db.leases[db.issued[t].key].expiresAt <= clock)
  }

  predicate Live(db: Db, t: Token, at: int) {
    && t in db.issued && db.issued[t].Held? && db.issued[t].key in db.leases
    && db.leases[db.issued[t].key].token == t && db.leases[db.issued[t].key].expiresAt > at
  }

  /** Job `j` has left queued/running for good. */
  predicate Finished(db: Db, j: JobId) {
    j in db.jobs && !db.jobs[j].status.Active()
  }

  lemma SpentTokensStaySpent(db: Db, db': Db, at: int, t: Token)
    requires DbEvolves(db, db')
    ensures Displaced(db, t) ==> Displaced(db', t)
    ensures NotRevived(db, at, db') && Spent(db, at, t) ==> Spent(db', at, t)
  {
  }

  lemma DbEvolvesTransitive(a: Db, b: Db, c: Db)
    requires DbEvolves(a, b) && DbEvolves(b, c)
    ensures DbEvolves(a, c)
  {
  }

  // ---------------------------------------------------------------- the statements keep the tables

  ghost predicate NoToken(db: Db, j: JobId) {
    forall t :: t in db.issued ==> db.issued[t].Held? ==> db.issued[t].job != j
  }

  lemma InstallKeeps(db: Db, key: Key, j: JobId, t: Token, h: Holder, expiresAt: int, at: int)
    requires DbInv(db) && t !in db.issued && j in db.jobs && db.jobs[j].key == key && NoToken(db, j)
    ensures var db' := Install(db, key, j, t, h, expiresAt);
      && DbInv(db') && DbEvolves(db, db') && NotRevived(db, at, db')
  {
    var db' := Install(db, key, j, t, h, expiresAt);
    forall k | k in db'.leases ensures RowOk(db', k) {
      if k != key { assert RowOk(db, k); }
    }
    forall u | u in db'.issued ensures IssueOk(db', u) {
      if u != t { assert IssueOk(db, u); }
    }
    forall u, v | u in db'.issued && v in db'.issued && SameJob(db', u, v) ensures u == v {
      if u != t && v != t { assert SameJob(db, u, v); }
    }
    forall k | k in db.leases ensures db'.leases[k].token == db.leases[k].token || db'.leases[k].token !in db.issued {
    }
    assert forall k | k in db.leases && db'.leases[k].token == db.leases[k].token :: RowOk(db, k) ==> k != key;
  }

  lemma RenewKeeps(db: Db, gen: Generation, expiresAt: int, at: int, db': Db)
    requires DbInv(db) && Issued(db, gen)
    requires RenewLease(db, gen.key, gen.job, gen.token, gen.holder, expiresAt, at) == Some(db')
    ensures DbInv(db') && DbEvolves(db, db') && NotRevived(db, at, db') && db'.issued == db.issued
  {
    forall k | k in db'.leases ensures RowOk(db', k) { assert RowOk(db, k); }
    forall u | u in db'.issued ensures IssueOk(db', u) { assert IssueOk(db, u); }
    forall u, v | u in db'.issued && v in db'.issued && SameJob(db', u, v) ensures u == v { assert SameJob(db, u, v); }
  }

  lemma ReleaseKeeps(db: Db, key: Key, t: Token, h: Holder, tombstone: Token, at: int)
    requires DbInv(db) && tombstone !in db.issued && ReleaseLease(db, key, t, h, tombstone, at).Some?
    ensures var db' := ReleaseLease(db, key, t, h, tombstone, at).value;
      DbInv(db') && DbEvolves(db, db') && NotRevived(db, at, db')
  {
    var db' := ReleaseLease(db, key, t, h, tombstone, at).value;
    forall k | k in db'.leases ensures RowOk(db', k) { assert RowOk(db, k); }
    forall u | u in db'.issued ensures IssueOk(db', u) {
      if u != tombstone { assert IssueOk(db, u); }
    }
    forall u, v | u in db'.issued && v in db'.issued && SameJob(db', u, v) ensures u == v { assert SameJob(db, u, v); }
    assert RowOk(db, key);
  }

  /** A job row may be rewritten to any status that is not behind the present one. */
  lemma JobWriteKeeps(db: Db, j: JobId, status: Status, at: int)
    requires DbInv(db) && j in db.jobs && db.jobs[j].status.Rank() <= status.Rank()
    requires db.jobs[j].completedAt.None? || status.Terminal()
    ensures var db' := db.(jobs := db.jobs[j := Moved(db.jobs[j], status, at)]);
      DbInv(db') && DbEvolves(db, db') && NotRevived(db, at, db')
  {
    var db' := db.(jobs := db.jobs[j := Moved(db.jobs[j], status, at)]);
    forall k | k in db'.leases ensures RowOk(db', k) { assert RowOk(db, k); }
    forall u | u in db'.issued ensures IssueOk(db', u) { assert IssueOk(db, u); }
    forall u, v | u in db'.issued && v in db'.issued && SameJob(db', u, v) ensures u == v { assert SameJob(db, u, v); }
    assert CompletedIffTerminal(db'.jobs[j]);
  }

  lemma SubmitKeeps(db: Db, j: JobId, job: Job, at: int)
    requires DbInv(db) && j !in db.jobs && CompletedIffTerminal(job)
    ensures var db' := db.(jobs := db.jobs[j := job]);
      DbInv(db') && DbEvolves(db, db') && NotRevived(db, at, db')
  {
    var db' := db.(jobs := db.jobs[j := job]);
    forall k | k in db'.leases ensures RowOk(db', k) { assert RowOk(db, k); }
    forall u | u in db'.issued ensures IssueOk(db', u) { assert IssueOk(db, u); }
    forall u, v | u in db'.issued && v in db'.issued && SameJob(db', u, v) ensures u == v { assert SameJob(db, u, v); }
  }

  // ---------------------------------------------------------------- the executor

  predicate Active(db: Db, j: JobId) requires j in db.jobs { db.jobs[j].status.Active() }

  predicate HandedOver(db: Db, j: JobId) requires j in db.jobs {
    db.jobs[j].status.Terminal() || db.jobs[j].status.Detached?
  }

  function LeaseOf(e: Exec): Option<(Token, Holder)> {
    match e
    case Submitted => None
    case Waiting => None
    case Acquired(t, h) => Some((t, h))
    case Working(t, h) => Some((t, h))
    case Detaching(t, h) => Some((t, h))
    case Catching(lease, _) => lease
    case Rereading(lease, _, _) => lease
    case Finalizing(lease, _, _) => lease
    case Done => None
  }

  /** The executor's flags say that the job is terminal or detached. */
  predicate ClaimsHandOver(e: Exec) {
    match e
    case Detaching(_, _) => true
    case Catching(_, detached) => detached
    case Rereading(_, detached, cancelled) => detached || cancelled
    case Finalizing(_, terminal, detached) => terminal || detached
    case _ => false
  }

  /** What an executor knows for certain at each program counter. */
  ghost predicate ExecOk(db: Db, j: JobId, e: Exec) {
    && j in db.jobs
    && (LeaseOf(e).None? && !e.Done? ==> NoToken(db, j))
    && (LeaseOf(e).Some? ==>
          var (t, h) := LeaseOf(e).value;
          t in db.issued && db.issued[t] == Held(db.jobs[j].key, j, h))
    && (ClaimsHandOver(e) ==> HandedOver(db, j))
    && (e.Working? || e.Detaching? ==> !db.jobs[j].status.Queued?)
  }

  ghost predicate ExecInv(db: Db, exec: map<JobId, Exec>) {
    && (forall j :: j in exec ==> ExecOk(db, j, exec[j]))
    && (forall t :: t in db.issued ==> db.issued[t].Held? ==> db.issued[t].job in exec)
  }

  /** Tokens installed by a step from `db` to `db'` are for job `j`. */
  ghost predicate InstallsOnlyFor(db: Db, db': Db, j: JobId) {
    forall t :: t in db'.issued && t !in db.issued ==> db'.issued[t].Held? ==> db'.issued[t].job == j
  }

  lemma ExecOkStable(db: Db, db': Db, i: JobId, e: Exec)
    requires ExecOk(db, i, e) && DbEvolves(db, db')
    requires forall t :: t in db'.issued && t !in db.issued ==> db'.issued[t].Held? ==> db'.issued[t].job != i
    ensures ExecOk(db', i, e)
  {
  }

  lemma JobUpdateKeeps(db: Db, j: JobId, from: set<Status>, status: Status, at: int)
    requires DbInv(db) && UpdateJob(db, j, from, status, at).Some?
    requires forall s :: s in from ==> s.Rank() <= status.Rank()
    ensures var db' := UpdateJob(db, j, from, status, at).value;
      DbInv(db') && DbEvolves(db, db') && NotRevived(db, at, db') && db'.issued == db.issued && db'.jobs[j].status == status
  {
    JobWriteKeeps(db, j, status, at);
  }

  lemma ExecJobStepKeeps(db: Db, at: int, j: JobId, e: Exec, c: Choice, db': Db, e': Exec)
    requires DbInv(db) && ExecOk(db, j, e) && ExecStep(db, at, j, e, c, db', e') && db' != db
    requires e.Submitted? || e.Acquired? || e.Working? || e.Catching?
    ensures DbInv(db') && DbEvolves(db, db') && db'.issued == db.issued && NotRevived(db, at, db')
  {
    match e
    case Submitted => JobWriteKeeps(db, j, Blocked, at);
    case Acquired(_, _) => JobUpdateKeeps(db, j, {Queued}, Running, at);
    case Working(_, _) =>
      JobUpdateKeeps(db, j, {Running}, if c.Detach? then Status.Detached else if c.success then Completed else Failed, at);
    case Catching(lease, _) =>
      if c.WriteCancelled? {
        JobUpdateKeeps(db, j, {Queued, Running}, Cancelled, at);
      } else {
        JobUpdateKeeps(db, j, if lease.None? then {Queued} else {Running}, if c.blocked then Blocked else Failed, at);
      }
  }

  lemma AcquiringInstalls(db: Db, at: int, j: JobId, e: Exec, c: Choice, db': Db, e': Exec) returns (expiresAt: int)
    requires j in db.jobs && ExecStep(db, at, j, e, c, db', e') && db' != db && e.Waiting?
    ensures (c.CreateRow? || c.ClaimRow?) && c.token !in db.issued
    ensures db' == Install(db, db.jobs[j].key, j, c.token, c.holder, expiresAt)
  {
    expiresAt := (if c.CreateRow? then at else c.readAt) + WORKSPACE_LEASE_TTL_MS;
  }

  lemma ExecAcquireKeeps(db: Db, at: int, j: JobId, e: Exec, c: Choice, db': Db, e': Exec)
    requires DbInv(db) && j in db.jobs && NoToken(db, j) && ExecStep(db, at, j, e, c, db', e') && db' != db && e.Waiting?
    ensures DbInv(db') && DbEvolves(db, db') && InstallsOnlyFor(db, db', j) && NotRevived(db, at, db')
  {
    var expiresAt := AcquiringInstalls(db, at, j, e, c, db', e');
    InstallKeeps(db, db.jobs[j].key, j, c.token, c.holder, expiresAt, at);
  }

  lemma ExecReleaseKeeps(db: Db, at: int, j: JobId, e: Exec, c: Choice, db': Db, e': Exec)
    requires DbInv(db) && ExecOk(db, j, e) && ExecStep(db, at, j, e, c, db', e') && db' != db && e.Finalizing?
    ensures DbInv(db') && DbEvolves(db, db') && InstallsOnlyFor(db, db', j) && NotRevived(db, at, db')
  {
    ReleaseKeeps(db, db.jobs[j].key, e.lease.value.0, e.lease.value.1, c.tombstone, at);
  }

  /** The effect of one executor step on the tables. */
  lemma ExecStepKeepsTables(db: Db, at: int, j: JobId, e: Exec, c: Choice, db': Db, e': Exec)
    requires DbInv(db) && ExecOk(db, j, e) && ExecStep(db, at, j, e, c, db', e')
    ensures DbInv(db') && DbEvolves(db, db') && InstallsOnlyFor(db, db', j) && NotRevived(db, at, db')
  {
    if db' != db {
      if e.Waiting? {
        ExecAcquireKeeps(db, at, j, e, c, db', e');
      } else if e.Finalizing? {
        ExecReleaseKeeps(db, at, j, e, c, db', e');
      } else {
        ExecJobStepKeeps(db, at, j, e, c, db', e');
      }
    }
  }

  /** A step keeps the executor's lease, acquires one, or is the last. */
  lemma ExecStepKeepsLease(db: Db, at: int, j: JobId, e: Exec, c: Choice, db': Db, e': Exec)
    requires j in db.jobs && ExecStep(db, at, j, e, c, db', e')
    ensures || e'.Done?
            || (LeaseOf(e') == LeaseOf(e) && db'.issued == db.issued)
            || (e'.Acquired? && e'.token in db'.issued && db'.issued[e'.token] == Held(db.jobs[j].key, j, e'.holder))
  {
  }

  /** The flags of an executor tell the truth. */
  lemma ExecStepKeepsClaims(db: Db, at: int, j: JobId, e: Exec, c: Choice, db': Db, e': Exec)
    requires ExecOk(db, j, e) && ExecStep(db, at, j, e, c, db', e')
    ensures ClaimsHandOver(e') ==> ClaimsHandOver(e) || (j in db'.jobs && HandedOver(db', j))
  {
  }

  lemma ExecStepKeepsExec(db: Db, at: int, j: JobId, e: Exec, c: Choice, db': Db, e': Exec)
    requires ExecOk(db, j, e) && ExecStep(db, at, j, e, c, db', e') && DbEvolves(db, db')
    ensures ExecOk(db', j, e')
  {
    ExecStepKeepsLease(db, at, j, e, c, db', e');
    ExecStepKeepsClaims(db, at, j, e, c, db', e');
    assert db.jobs[j].status.Rank() <= db'.jobs[j].status.Rank();
  }
}

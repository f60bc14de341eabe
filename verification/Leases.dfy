/** How long a workspace can be kept: a lease that nobody renews runs out, and then, or once it has been
    released, whoever waits for the workspace can have it. */
module Leases {
  import opened Wrappers
  import opened Numbers
  import opened Records
  import opened Programs
  import opened Invariants
  import opened Protocol
  import opened Lifecycle

  /** A row expires within one lifetime of the latest statement, and a released row not in the future. */
  predicate RowBounded(row: Lease, clock: int) {
    row.expiresAt <= clock + (if row.job.Some? then WORKSPACE_LEASE_TTL_MS else 0)
  }

  ghost predicate Bounded(w: World) {
    forall k :: k in w.db.leases ==> RowBounded(w.db.leases[k], w.clock)
  }

  lemma ExecutorKeepsBounded(db: Db, at: int, j: JobId, e: Exec, c: Choice, db': Db, e': Exec, clock: int, k: Key)
    requires j in db.jobs && ExecStep(db, at, j, e, c, db', e') && k in db'.leases
    requires k in db.leases ==> RowBounded(db.leases[k], clock)
    ensures RowBounded(db'.leases[k], Max(clock, at))
  {
  }

  lemma RenewalKeepsBounded(db: Db, gen: Generation, readAt: int, at: int, db': Db, clock: int, k: Key)
    requires RenewLease(db, gen.key, gen.job, gen.token, gen.holder, readAt + WORKSPACE_LEASE_TTL_MS, at) == Some(db')
    requires readAt <= at && k in db'.leases && (k in db.leases ==> RowBounded(db.leases[k], clock))
    ensures RowBounded(db'.leases[k], Max(clock, at))
  {
  }

  lemma OthersKeepLeases(w: World, at: int, m: Move, w': World)
    requires Next(w, at, m, w') && !m.Execute? && !m.Renew?
    ensures w'.db.leases == w.db.leases
  {
    match m
    case Go(_, _, _) => ProgramsOnlyFail(w, at, m, w');
    case Write(i, writer) => WritersKeepLeases(w.db, i, writer, at);
    case _ => OthersKeepTables(w, at, m, w');
  }

  lemma NextKeepsBounded(w: World, at: int, m: Move, w': World)
    requires Next(w, at, m, w') && Bounded(w)
    ensures Bounded(w')
  {
    forall k | k in w'.db.leases ensures RowBounded(w'.db.leases[k], w'.clock) {
      match m
      case Execute(j, c) => ExecutorKeepsBounded(w.db, at, j, w.exec[j], c, w'.db, w'.exec[j], w.clock, k);
      case Renew(gen, readAt) => RenewalKeepsBounded(w.db, gen, readAt, at, w'.db, w.clock, k);
      case _ => OthersKeepLeases(w, at, m, w');
    }
  }

  /** In every reachable state each lease ends within 30 seconds of the latest statement. */
  lemma {:induction false} LeasesAreShort(run: Run, i: nat)
    requires run.Valid() && i < |run.states|
    ensures Bounded(run.states[i])
  {
    if i > 0 {
      LeasesAreShort(run, i - 1);
      assert run.Step(i - 1);
      NextKeepsBounded(run.states[i - 1], run.moves[i - 1].0, run.moves[i - 1].1, run.states[i]);
    }
  }

  // ---------------------------------------------------------------- what is not renewed runs out

  predicate Renews(m: Move, t: Token) { m.Renew? && m.gen.token == t }

  lemma ExecutorKeepsExpiry(db: Db, at: int, j: JobId, e: Exec, c: Choice, db': Db, e': Exec, k: Key)
    requires j in db.jobs && ExecStep(db, at, j, e, c, db', e') && k in db.leases && RowOk(db, k) && k in db'.leases
    requires db'.leases[k].token == db.leases[k].token
    ensures db'.leases[k] == db.leases[k]
  {
  }

  lemma ExecutorsKeepExpiry(w: World, at: int, m: Move, w': World, k: Key)
    requires Next(w, at, m, w') && m.Execute? && DbInv(w.db) && k in w.db.leases && k in w'.db.leases
    requires w'.db.leases[k].token == w.db.leases[k].token
    ensures w'.db.leases[k] == w.db.leases[k]
  {
    assert RowOk(w.db, k);
    ExecutorKeepsExpiry(w.db, at, m.job, w.exec[m.job], m.choice, w'.db, w'.exec[m.job], k);
  }

  lemma RenewalKeepsOthers(db: Db, gen: Generation, expiresAt: int, at: int, db': Db, k: Key)
    requires RenewLease(db, gen.key, gen.job, gen.token, gen.holder, expiresAt, at) == Some(db')
    requires k in db.leases && db.leases[k].token != gen.token
    ensures k in db'.leases && db'.leases[k] == db.leases[k]
  {
  }

  lemma OnlyRenewalsProlong(w: World, at: int, m: Move, w': World, k: Key)
    requires Next(w, at, m, w') && Sound(w) && k in w.db.leases && k in w'.db.leases
    requires w'.db.leases[k].token == w.db.leases[k].token && !Renews(m, w.db.leases[k].token)
    ensures w'.db.leases[k].expiresAt == w.db.leases[k].expiresAt
  {
    match m
    case Execute(_, _) => ExecutorsKeepExpiry(w, at, m, w', k);
    case Renew(gen, readAt) => RenewalKeepsOthers(w.db, gen, readAt + WORKSPACE_LEASE_TTL_MS, at, w'.db, k);
    case _ => OthersKeepLeases(w, at, m, w');
  }

  lemma ExpiryStep(run: Run, i: nat, key: Key)
    requires run.Valid() && i < |run.moves| && key in run.states[i].db.leases && key in run.states[i + 1].db.leases
    requires run.states[i + 1].db.leases[key].token == run.states[i].db.leases[key].token
    requires !Renews(run.moves[i].1, run.states[i].db.leases[key].token)
    ensures run.states[i + 1].db.leases[key].expiresAt == run.states[i].db.leases[key].expiresAt
  {
    RunSound(run, i);
    assert run.Step(i);
    OnlyRenewalsProlong(run.states[i], run.moves[i].0, run.moves[i].1, run.states[i + 1], key);
  }

  /** A row whose token nobody renews keeps its expiry for as long as it keeps its token. */
  lemma {:induction false} UnrenewedRowsRunOut(run: Run, i: nat, n: nat, key: Key)
    requires run.Valid() && i <= n < |run.states| && key in run.states[i].db.leases
    requires forall r :: i <= r < n ==> !Renews(run.moves[r].1, run.states[i].db.leases[key].token)
    ensures key in run.states[n].db.leases
    ensures run.states[n].db.leases[key].token == run.states[i].db.leases[key].token ==>
              run.states[n].db.leases[key].expiresAt == run.states[i].db.leases[key].expiresAt
    decreases n
  {
    RowStays(run, i, n, key);
    if i < n && run.states[n].db.leases[key].token == run.states[i].db.leases[key].token {
      TokenKeptBetween(run, i, n - 1, n, key);
      UnrenewedRowsRunOut(run, i, n - 1, key);
      ExpiryStep(run, n - 1, key);
    }
  }

  lemma RowStays(run: Run, i: nat, n: nat, key: Key)
    requires run.Valid() && i <= n < |run.states| && key in run.states[i].db.leases
    ensures key in run.states[n].db.leases
  {
    RunEvolves(run, i, n);
  }

  /** A token that is on the row at both ends was there in between. */
  lemma TokenKeptBetween(run: Run, i: nat, m: nat, n: nat, key: Key)
    requires run.Valid() && i <= m <= n < |run.states| && key in run.states[i].db.leases
    requires key in run.states[n].db.leases && run.states[n].db.leases[key].token == run.states[i].db.leases[key].token
    ensures key in run.states[m].db.leases && run.states[m].db.leases[key].token == run.states[i].db.leases[key].token
  {
    RunSound(run, i);
    RunEvolves(run, i, m);
    RunEvolves(run, m, n);
    assert RowOk(run.states[i].db, key);
  }

  // ---------------------------------------------------------------- and then others can have it

  /** Job `j` holds the row under token `t`, and its executor knows. */
  predicate Acquires(w: World, at: int, j: JobId, t: Token, h: Holder, w': World) {
    && j in w.db.jobs && j in w'.exec && w'.exec[j] == Acquired(t, h)
    && w.db.jobs[j].key in w'.db.leases
    && var row := w'.db.leases[w.db.jobs[j].key];
       row.job == Some(j) && row.token == t && row.holder == h && row.expiresAt == at + WORKSPACE_LEASE_TTL_MS
  }

  /** A waiting executor can take a workspace that has no row or whose row has expired, and is given
      exactly one lifetime. */
  lemma FreeWorkspaceCanBeTaken(w: World, at: int, j: JobId, t: Token, h: Holder) returns (m: Move, w': World)
    requires j in w.db.jobs && j in w.exec && w.exec[j] == Waiting && t !in w.db.issued
    requires w.db.jobs[j].key in w.db.leases ==> w.db.leases[w.db.jobs[j].key].expiresAt < at
    ensures Next(w, at, m, w') && Acquires(w, at, j, t, h, w')
  {
    var key := w.db.jobs[j].key;
    m := Execute(j, if key in w.db.leases then ClaimRow(t, h, at) else CreateRow(t, h));
    w' := w.(clock := Max(w.clock, at), db := Install(w.db, key, j, t, h, at + WORKSPACE_LEASE_TTL_MS), exec := w.exec[j := Acquired(t, h)]);
  }

  /** No holder, however it fails, keeps a workspace longer than one lifetime after its last renewal:
      from then on a waiting executor can take it, unless another one already has. */
  lemma DeadHolderBlocksForOneLifetime(run: Run, i: nat, n: nat, key: Key, at: int, j: JobId, t: Token, h: Holder)
    returns (m: Move, w': World)
    requires run.Valid() && i <= n < |run.states| && key in run.states[i].db.leases
    requires forall r :: i <= r < n ==> !Renews(run.moves[r].1, run.states[i].db.leases[key].token)
    requires at > run.states[i].clock + WORKSPACE_LEASE_TTL_MS
    requires j in run.states[n].db.jobs && run.states[n].db.jobs[j].key == key
    requires j in run.states[n].exec && run.states[n].exec[j] == Waiting && t !in run.states[n].db.issued
    ensures key in run.states[n].db.leases
    ensures run.states[n].db.leases[key].token == run.states[i].db.leases[key].token ==>
              Next(run.states[n], at, m, w') && Acquires(run.states[n], at, j, t, h, w')
  {
    UnrenewedRowsRunOut(run, i, n, key);
    m, w' := Execute(j, GiveUp), run.states[n];
    if run.states[n].db.leases[key].token == run.states[i].db.leases[key].token {
      LeasesAreShort(run, i);
      assert RowBounded(run.states[i].db.leases[key], run.states[i].clock);
      m, w' := FreeWorkspaceCanBeTaken(run.states[n], at, j, t, h);
    }
  }

  /** A released workspace is free at once. */
  lemma ReleasedWorkspaceIsFree(run: Run, n: nat, key: Key, at: int, j: JobId, t: Token, h: Holder) returns (m: Move, w': World)
    requires run.Valid() && n < |run.states| && key in run.states[n].db.leases && run.states[n].db.leases[key].job.None?
    requires at > run.states[n].clock
    requires j in run.states[n].db.jobs && run.states[n].db.jobs[j].key == key
    requires j in run.states[n].exec && run.states[n].exec[j] == Waiting && t !in run.states[n].db.issued
    ensures Next(run.states[n], at, m, w') && Acquires(run.states[n], at, j, t, h, w')
  {
    LeasesAreShort(run, n);
    assert RowBounded(run.states[n].db.leases[key], run.states[n].clock);
    m, w' := FreeWorkspaceCanBeTaken(run.states[n], at, j, t, h);
  }
}

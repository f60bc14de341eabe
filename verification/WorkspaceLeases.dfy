/** The tables and the lease guard as the service updates them in place. Every method of the database
    is one statement of the protocol; `TryAcquireWorkspaceLease` is two, with others in between. */
module WorkspaceLeases {
  import opened Wrappers
  import opened Records
  import opened Programs
  import opened Invariants

  /** The token is new, and the job has no other. */
  ghost predicate MayInstall(db: Db, gen: Generation) {
    gen.token !in db.issued && gen.job in db.jobs && db.jobs[gen.job].key == gen.key && NoToken(db, gen.job)
  }

  function Installed(db: Db, gen: Generation, expiresAt: int): Db {
    Install(db, gen.key, gen.job, gen.token, gen.holder, expiresAt)
  }

  class SandboxDatabase {
    var leases: map<Key, Lease>
    var jobs: map<JobId, Job>
    ghost var issued: map<Token, Issue>

    ghost function View(): Db
      reads this
    {
      Db(leases, jobs, issued)
    }

    constructor ()
      ensures View() == Db(map[], map[], map[]) && DbInv(View())
    {
      leases, jobs, issued := map[], map[], map[];
    }

    /** INSERT; a row that is there is a violation of the unique index. */
    method CreateWorkspaceLease(gen: Generation, expiresAt: int, ghost at: int) returns (created: bool)
      requires DbInv(View()) && MayInstall(View(), gen)
      modifies this`leases, this`issued
      ensures created <==> gen.key !in old(leases)
      ensures View() == if created then Installed(old(View()), gen, expiresAt) else old(View())
      ensures CreateLease(old(View()), gen.key, gen.job, gen.token, gen.holder, expiresAt) == if created then Some(View()) else None
      ensures DbInv(View()) && DbEvolves(old(View()), View()) && NotRevived(old(View()), at, View())
    {
      InstallKeeps(View(), gen.key, gen.job, gen.token, gen.holder, expiresAt, at);
      created := gen.key !in leases;
      if created {
        leases := leases[gen.key := Lease(Some(gen.job), gen.token, gen.holder, expiresAt)];
        issued := issued[gen.token := Held(gen.key, gen.job, gen.holder)];
      }
    }

    /** UPDATE of a row that has expired. */
    method ClaimExpiredWorkspaceLease(gen: Generation, expiresAt: int, at: int) returns (claimed: bool)
      requires DbInv(View()) && MayInstall(View(), gen)
      modifies this`leases, this`issued
      ensures claimed <==> gen.key in old(leases) && old(leases)[gen.key].expiresAt < at
      ensures View() == if claimed then Installed(old(View()), gen, expiresAt) else old(View())
      ensures ClaimLease(old(View()), gen.key, gen.job, gen.token, gen.holder, expiresAt, at) == if claimed then Some(View()) else None
      ensures DbInv(View()) && DbEvolves(old(View()), View()) && NotRevived(old(View()), at, View())
    {
      InstallKeeps(View(), gen.key, gen.job, gen.token, gen.holder, expiresAt, at);
      claimed := gen.key in leases && leases[gen.key].expiresAt < at;
      if claimed {
        leases := leases[gen.key := Lease(Some(gen.job), gen.token, gen.holder, expiresAt)];
        issued := issued[gen.token := Held(gen.key, gen.job, gen.holder)];
      }
    }

    /** What the other replicas do between two statements. */
    method Meanwhile(between: Db)
      requires DbInv(between) && DbEvolves(View(), between)
      modifies this
      ensures View() == between
    {
      leases, jobs, issued := between.leases, between.jobs, between.issued;
    }

    /** INSERT, then on a unique violation UPDATE of an expired row. The others turn the tables into
        `between` before the second statement. The new row expires a lease lifetime after `readAt`,
        when the handle was built. */
    method TryAcquireWorkspaceLease(gen: Generation, readAt: int, between: Db, at: int) returns (acquired: bool)
      requires DbInv(View()) && MayInstall(View(), gen)
      requires DbInv(between) && DbEvolves(View(), between) && MayInstall(between, gen)
      modifies this
      ensures acquired <==> gen.key !in old(leases) || between.leases[gen.key].expiresAt < at
      ensures View() == if gen.key !in old(leases) then Installed(old(View()), gen, readAt + WORKSPACE_LEASE_TTL_MS)
                        else if acquired then Installed(between, gen, readAt + WORKSPACE_LEASE_TTL_MS) else between
      ensures DbInv(View()) && DbEvolves(old(View()), View())
    {
      ghost var before := View();
      acquired := CreateWorkspaceLease(gen, readAt + WORKSPACE_LEASE_TTL_MS, at);
      if !acquired {
        Meanwhile(between);
        acquired := ClaimExpiredWorkspaceLease(gen, readAt + WORKSPACE_LEASE_TTL_MS, at);
        DbEvolvesTransitive(before, between, View());
      }
    }

    method RenewWorkspaceLease(gen: Generation, readAt: int, at: int) returns (renewed: bool)
      requires DbInv(View()) && Issued(View(), gen)
      modifies this`leases
      ensures renewed <==> Live(old(View()), gen.token, at)
      ensures RenewLease(old(View()), gen.key, gen.job, gen.token, gen.holder, readAt + WORKSPACE_LEASE_TTL_MS, at)
              == if renewed then Some(View()) else None
      ensures renewed ==> gen.key in leases && leases[gen.key] == Lease(Some(gen.job), gen.token, gen.holder, readAt + WORKSPACE_LEASE_TTL_MS)
      ensures !renewed ==> View() == old(View())
      ensures DbInv(View()) && DbEvolves(old(View()), View()) && NotRevived(old(View()), at, View())
    {
      assert IssueOk(View(), gen.token) && RowOk(View(), gen.key);
      renewed := leases[gen.key].token == gen.token && leases[gen.key].holder == gen.holder && leases[gen.key].expiresAt > at;
      if renewed {
        ghost var before := View();
        leases := leases[gen.key := leases[gen.key].(job := Some(gen.job), expiresAt := readAt + WORKSPACE_LEASE_TTL_MS)];
        RenewKeeps(before, gen, readAt + WORKSPACE_LEASE_TTL_MS, at, View());
      }
    }

    method ReleaseWorkspaceLease(gen: Generation, tombstone: Token, at: int)
      requires DbInv(View()) && Issued(View(), gen) && tombstone !in issued
      modifies this`leases, this`issued
      ensures Displaced(View(), gen.token)
      ensures forall k :: k in old(leases) && k != gen.key ==> k in leases && leases[k] == old(leases)[k]
      ensures old(leases)[gen.key].token != gen.token ==> View() == old(View())
      ensures old(leases)[gen.key].token == gen.token ==> gen.key in leases && leases[gen.key] == Lease(None, tombstone, gen.holder, at)
      ensures ReleaseLease(old(View()), gen.key, gen.token, gen.holder, tombstone, at)
              == if old(leases)[gen.key].token == gen.token then Some(View()) else None
      ensures DbInv(View()) && DbEvolves(old(View()), View()) && NotRevived(old(View()), at, View())
    {
      assert IssueOk(View(), gen.token) && RowOk(View(), gen.key);
      if leases[gen.key].token == gen.token && leases[gen.key].holder == gen.holder {
        ReleaseKeeps(View(), gen.key, gen.token, gen.holder, tombstone, at);
        leases := leases[gen.key := Lease(None, tombstone, gen.holder, at)];
        issued := issued[tombstone := Tombstone];
      }
    }

    method UpdateSandboxJobUnderActiveLease(gen: Generation, expected: Status, status: Status, at: int) returns (updated: bool)
      requires DbInv(View()) && Issued(View(), gen) && expected.Active() && expected.Rank() < status.Rank()
      modifies this`jobs
      ensures updated <==> && Live(old(View()), gen.token, at) && old(jobs)[gen.job].status == expected
      ensures updated ==> jobs == old(jobs)[gen.job := Moved(old(jobs)[gen.job], status, at)]
      ensures !updated ==> jobs == old(jobs)
      ensures UpdateJobUnderLease(old(View()), gen.job, gen.key, gen.token, gen.holder, expected, status, at)
              == if updated then Some(View()) else None
      ensures DbInv(View()) && DbEvolves(old(View()), View()) && NotRevived(old(View()), at, View())
    {
      assert IssueOk(View(), gen.token) && RowOk(View(), gen.key) && CompletedIffTerminal(jobs[gen.job]);
      updated := && HoldsLeaseRow(gen, at) && jobs[gen.job].status == expected && jobs[gen.job].completedAt.None?;
      if updated {
        JobWriteKeeps(View(), gen.job, status, at);
        jobs := jobs[gen.job := Moved(jobs[gen.job], status, at)];
      }
    }

    predicate HoldsLeaseRow(gen: Generation, at: int)
      requires gen.key in leases
      reads this`leases
    {
      var row := leases[gen.key];
      row.job == Some(gen.job) && row.token == gen.token && row.holder == gen.holder && row.expiresAt > at
    }
  }

  datatype Handle = Handle(gen: Generation, expiresAt: int)

  datatype LeaseError = LeaseLost | RenewFailed

  /** What a renewal brings back: a new expiry, no row, or an error of the database. */
  datatype Renewal = Renewed(expiresAt: int) | Refused | Failed

  /** What an executor keeps about its lease while the heartbeat runs. */
  class WorkspaceLeaseGuard {
    const db: SandboxDatabase
    var handle: Handle
    var active: bool
    var renewing: bool
    var renewalError: Option<LeaseError>

    /** The handle names a generation that was issued; an error is recorded only when it gave up. */
    ghost predicate Valid()
      reads this, db
    {
      DbInv(db.View()) && Issued(db.View(), handle.gen) && (active ==> renewalError.None?)
    }

    constructor (db: SandboxDatabase, handle: Handle)
      requires DbInv(db.View()) && Issued(db.View(), handle.gen)
      ensures this.db == db && this.handle == handle && active && !renewing && Valid()
    {
      this.db, this.handle, active, renewing, renewalError := db, handle, true, false, None;
    }

    /** The timer fires. A tick is skipped while the renewal of an earlier one is under way. */
    method OnTimer() returns (starts: bool)
      modifies this`renewing
      ensures starts <==> active && !old(renewing)
      ensures renewing <==> old(renewing) || starts
    {
      starts := active && !renewing;
      if starts {
        renewing := true;
      }
    }

    /** The renewal has come back, perhaps after the guard was stopped. */
    method OnRenewal(outcome: Renewal)
      requires renewing
      modifies this`handle, this`active, this`renewing, this`renewalError
      ensures !renewing && handle.gen == old(handle.gen) && (active <==> old(active) && outcome.Renewed?)
      ensures outcome.Renewed? ==> handle.expiresAt == outcome.expiresAt && renewalError == old(renewalError)
      ensures !outcome.Renewed? ==> handle == old(handle) && renewalError == Some(if outcome.Refused? then LeaseLost else RenewFailed)
    {
      match outcome {
        case Renewed(expiresAt) => handle := handle.(expiresAt := expiresAt);
        case Refused => active, renewalError := false, Some(LeaseLost);
        case Failed => active, renewalError := false, Some(RenewFailed);
      }
      renewing := false;
    }

    /** A tick with its renewal and nothing in between. The database may fail before the statement
        (`reached`) or lose its answer (`answered`). The guard stays active exactly if the lease was
        live and the database said so, and then its handle agrees with the row. */
    method Heartbeat(readAt: int, at: int, reached: bool, answered: bool)
      requires Valid()
      modifies this`handle, this`active, this`renewing, this`renewalError, db`leases
      ensures Valid() && handle.gen == old(handle.gen) && DbEvolves(old(db.View()), db.View()) && NotRevived(old(db.View()), at, db.View())
      ensures !old(active) || old(renewing) ==>
                handle == old(handle) && active == old(active) && renewing == old(renewing) && db.View() == old(db.View())
      ensures old(active) && !old(renewing) ==>
                && !renewing && (active <==> reached && answered && Live(old(db.View()), handle.gen.token, at))
                && (active ==> && handle.gen.key in db.leases && db.leases[handle.gen.key].token == handle.gen.token
                               && handle.expiresAt == readAt + WORKSPACE_LEASE_TTL_MS == db.leases[handle.gen.key].expiresAt)
    {
      var starts := OnTimer();
      if !starts {
        return;
      }
      var renewed := false;
      if reached {
        renewed := db.RenewWorkspaceLease(handle.gen, readAt, at);
      }
      OnRenewal(if !reached || !answered then Renewal.Failed
                else if renewed then Renewed(readAt + WORKSPACE_LEASE_TTL_MS) else Refused);
    }

    /** A job update under the lease; a refusal ends the guard. */
    method UpdateSandboxJob(expected: Status, status: Status, at: int) returns (updated: bool)
      requires Valid() && expected.Active() && expected.Rank() < status.Rank()
      modifies this`active, this`renewalError, db`jobs
      ensures Valid() && DbEvolves(old(db.View()), db.View())
      ensures updated <==> Live(old(db.View()), handle.gen.token, at) && old(db.jobs)[handle.gen.job].status == expected
      ensures db.jobs == if updated then old(db.jobs)[handle.gen.job := Moved(old(db.jobs)[handle.gen.job], status, at)] else old(db.jobs)
      ensures active <==> old(active) && updated
      ensures !updated ==> renewalError == Some(LeaseLost)
    {
      updated := db.UpdateSandboxJobUnderActiveLease(handle.gen, expected, status, at);
      if !updated {
        active, renewalError := false, Some(LeaseLost);
      }
    }

    /** The end of `executeQueuedJob`: the lease is given up only if the job was handed over. */
    method Stop(terminalWriteSucceeded: bool, detachedWriteSucceeded: bool, podFinalizationSucceeded: bool, tombstone: Token, at: int)
      requires Valid() && tombstone !in db.issued
      modifies this`active, db`leases, db`issued
      ensures !active && Valid() && DbEvolves(old(db.View()), db.View())
      ensures (terminalWriteSucceeded || detachedWriteSucceeded) && podFinalizationSucceeded ==> Displaced(db.View(), handle.gen.token)
      ensures !((terminalWriteSucceeded || detachedWriteSucceeded) && podFinalizationSucceeded) ==> db.View() == old(db.View())
    {
      active := false;
      if (terminalWriteSucceeded || detachedWriteSucceeded) && podFinalizationSucceeded {
        db.ReleaseWorkspaceLease(handle.gen, tombstone, at);
      }
    }
  }
}

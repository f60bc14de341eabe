/** The protocol as a whole: every reachable state is sound, and what that means over runs. */
module Protocol {
  import opened Records
  import opened Programs
  import opened Invariants
  import opened Snapshots

  ghost predicate Sound(w: World) {
    && DbInv(w.db) && ClusterInv(w.db, w.cluster) && ExecInv(w.db, w.exec)
    && TasksOk(w.db, w.cluster, w.tasks)
  }

  ghost predicate Evolves(w: World, w': World) {
    w.clock <= w'.clock && DbEvolves(w.db, w'.db) && ClusterEvolves(w.cluster, w'.cluster)
  }

  lemma ExecStable(w: World, db': Db)
    requires Sound(w) && DbEvolves(w.db, db')
    requires forall t :: t in db'.issued && t !in w.db.issued ==> !db'.issued[t].Held?
    ensures ExecInv(db', w.exec)
  {
    forall j | j in w.exec ensures ExecOk(db', j, w.exec[j]) {
      ExecOkStable(w.db, db', j, w.exec[j]);
    }
  }

  lemma ExecuteKeeps(w: World, at: int, j: JobId, c: Choice, w': World)
    requires Sound(w) && Next(w, at, Execute(j, c), w')
    ensures Sound(w') && Evolves(w, w') && NotRevived(w.db, at, w'.db)
  {
    ExecStepKeepsTables(w.db, at, j, w.exec[j], c, w'.db, w'.exec[j]);
    ExecStepKeepsExec(w.db, at, j, w.exec[j], c, w'.db, w'.exec[j]);
    forall i | i in w'.exec ensures ExecOk(w'.db, i, w'.exec[i]) {
      if i != j { ExecOkStable(w.db, w'.db, i, w.exec[i]); }
    }
    ClusterStable(w.db, w'.db, w.cluster);
    TasksStable(w.db, w'.db, w.cluster, w.cluster, w.tasks);
  }

  lemma NewJobHasNoToken(db: Db, j: JobId)
    requires DbInv(db) && j !in db.jobs
    ensures NoToken(db, j)
  {
    forall t | t in db.issued && db.issued[t].Held? ensures db.issued[t].job != j { assert IssueOk(db, t); }
  }

  lemma SubmitMoveKeepsExec(w: World, at: int, j: JobId, key: Key, blocked: bool, w': World)
    requires Sound(w) && Next(w, at, Submit(j, key, blocked), w') && DbEvolves(w.db, w'.db)
    ensures ExecInv(w'.db, w'.exec)
  {
    NewJobHasNoToken(w.db, j);
    ExecStable(w, w'.db);
    assert !blocked ==> ExecOk(w'.db, j, Submitted);
  }

  lemma SubmitMoveKeeps(w: World, at: int, j: JobId, key: Key, blocked: bool, w': World)
    requires Sound(w) && Next(w, at, Submit(j, key, blocked), w')
    ensures Sound(w') && Evolves(w, w') && NotRevived(w.db, at, w'.db)
  {
    SubmitKeeps(w.db, j, w'.db.jobs[j], at);
    SubmitMoveKeepsExec(w, at, j, key, blocked, w');
    ClusterStable(w.db, w'.db, w.cluster);
    TasksStable(w.db, w'.db, w.cluster, w.cluster, w.tasks);
  }

  /** A change of the tables that issues no lease leaves the executors and the pods alone. */
  lemma TablesOnly(w: World, w': World)
    requires Sound(w) && DbInv(w'.db) && DbEvolves(w.db, w'.db) && w'.db.issued == w.db.issued
    requires w' == w.(clock := w'.clock, db := w'.db)
    ensures Sound(w')
  {
    ExecStable(w, w'.db);
    ClusterStable(w.db, w'.db, w.cluster);
    TasksStable(w.db, w'.db, w.cluster, w.cluster, w.tasks);
  }

  lemma RenewMoveKeeps(w: World, at: int, gen: Generation, readAt: int, w': World)
    requires Sound(w) && Next(w, at, Renew(gen, readAt), w')
    ensures Sound(w') && Evolves(w, w') && NotRevived(w.db, at, w'.db)
  {
    RenewKeeps(w.db, gen, readAt + WORKSPACE_LEASE_TTL_MS, at, w'.db);
    TablesOnly(w, w');
  }

  lemma WriteMoveKeeps(w: World, at: int, j: JobId, writer: Writer, w': World)
    requires Sound(w) && Next(w, at, Write(j, writer), w')
    ensures Sound(w') && Evolves(w, w') && NotRevived(w.db, at, w'.db)
  {
    WriteKeeps(w.db, j, writer, at);
    TablesOnly(w, w');
  }

  lemma WriteKeeps(db: Db, j: JobId, writer: Writer, at: int)
    requires DbInv(db) && Written(db, j, writer, at).Some?
    ensures var db' := Written(db, j, writer, at).value;
      DbInv(db') && DbEvolves(db, db') && NotRevived(db, at, db') && db'.issued == db.issued
  {
    match writer
    case CancelActive => JobUpdateKeeps(db, j, {Queued, Running}, Cancelled, at);
    case CancelDetached => JobUpdateKeeps(db, j, {Status.Detached}, Cancelled, at);
    case FinishDetached(outcome) => JobUpdateKeeps(db, j, {Status.Detached}, outcome, at);
    case FailStaleJob(observed) => JobUpdateKeeps(db, j, {observed}, Failed, at);
  }

  lemma PodMoveKeeps(w: World, at: int, m: Move, w': World)
    requires Sound(w) && Next(w, at, m, w') && (m.Create? || m.Touch? || m.Evict? || m.SetMode?)
    ensures Sound(w') && Evolves(w, w') && NotRevived(w.db, at, w'.db)
  {
    match m {
      case Create(name, owner, handle, mode) => CreateKeeps(w.db, w.cluster, name, owner, handle, mode, at);
      case Touch(name) =>
        var pod := w.cluster.pods[name];
        assert Logged(w.cluster, pod);
        StoreKeeps(w.db, w.cluster, pod);
      case Evict(_) =>
      case SetMode(_, _) =>
    }
    TasksStable(w.db, w'.db, w.cluster, w'.cluster, w.tasks);
  }

  lemma GoKeeps(w: World, at: int, id: nat, fails: bool, pids: seq<nat>, w': World)
    requires Sound(w) && Next(w, at, Go(id, fails, pids), w')
    ensures Sound(w') && Evolves(w, w') && NotRevived(w.db, at, w'.db)
  {
    TaskStepKeeps(w.db, w.cluster, w.modes, at, w.tasks[id], fails, pids, w'.db, w'.cluster, w'.tasks[id]);
    TasksStable(w.db, w'.db, w.cluster, w'.cluster, w.tasks);
    ExecStable(w, w'.db);
  }

  lemma StartKeeps(w: World, at: int, id: nat, task: Task, w': World)
    requires Sound(w) && Next(w, at, Start(id, task), w')
    ensures Sound(w') && Evolves(w, w') && NotRevived(w.db, at, w'.db)
  {
    if task.Reap? { assert Logged(w.cluster, w.cluster.pods[task.seen.name]); }
    if task.Reconcile? { assert Logged(w.cluster, w.cluster.pods[task.target.name]); }
    assert TaskOk(w.db, w.cluster, task);
    TasksStable(w.db, w'.db, w.cluster, w.cluster, w.tasks);
  }

  lemma StatementKeeps(w: World, at: int, m: Move, w': World)
    requires Sound(w) && Next(w, at, m, w') && (m.Submit? || m.Execute? || m.Renew? || m.Write?)
    ensures Sound(w') && Evolves(w, w') && NotRevived(w.db, at, w'.db)
  {
    match m
    case Submit(j, key, blocked) => SubmitMoveKeeps(w, at, j, key, blocked, w');
    case Execute(j, c) => ExecuteKeeps(w, at, j, c, w');
    case Renew(gen, readAt) => RenewMoveKeeps(w, at, gen, readAt, w');
    case Write(j, writer) => WriteMoveKeeps(w, at, j, writer, w');
  }

  lemma ProgramKeeps(w: World, at: int, m: Move, w': World)
    requires Sound(w) && Next(w, at, m, w') && (m.Start? || m.Go?)
    ensures Sound(w') && Evolves(w, w') && NotRevived(w.db, at, w'.db)
  {
    match m
    case Start(id, task) => StartKeeps(w, at, id, task, w');
    case Go(id, fails, pids) => GoKeeps(w, at, id, fails, pids, w');
  }

  /** The inductive step of everything below. */
  lemma NextKeeps(w: World, at: int, m: Move, w': World)
    requires Sound(w) && Next(w, at, m, w')
    ensures Sound(w') && Evolves(w, w') && NotRevived(w.db, at, w'.db)
  {
    if m.Start? || m.Go? {
      ProgramKeeps(w, at, m, w');
    } else if m.Submit? || m.Execute? || m.Renew? || m.Write? {
      StatementKeeps(w, at, m, w');
    } else {
      PodMoveKeeps(w, at, m, w');
    }
  }

  // ---------------------------------------------------------------- runs

  lemma {:induction false} RunSound(run: Run, i: nat)
    requires run.Valid() && i < |run.states|
    ensures Sound(run.states[i])
  {
    if i > 0 {
      RunSound(run, i - 1);
      assert run.Step(i - 1);
      NextKeeps(run.states[i - 1], run.moves[i - 1].0, run.moves[i - 1].1, run.states[i]);
    }
  }

  /** In every reachable state the flags of every executor are true: those that `finally` reads before
      it gives up the lease say that the job is terminal or detached only if it is. */
  lemma ExecutorFlagsAreTrue(run: Run, i: nat, j: JobId)
    requires run.Valid() && i < |run.states| && j in run.states[i].exec && ClaimsHandOver(run.states[i].exec[j])
    ensures j in run.states[i].db.jobs && HandedOver(run.states[i].db, j)
  {
    RunSound(run, i);
    assert ExecOk(run.states[i].db, j, run.states[i].exec[j]);
  }

  /** Nothing is worked on before its job has started. */
  lemma WorkFollowsStart(run: Run, i: nat, j: JobId)
    requires run.Valid() && i < |run.states| && j in run.states[i].exec && run.states[i].exec[j].Working?
    ensures j in run.states[i].db.jobs && !run.states[i].db.jobs[j].status.Queued?
  {
    RunSound(run, i);
    assert ExecOk(run.states[i].db, j, run.states[i].exec[j]);
  }

  lemma RunStep(run: Run, i: nat)
    requires run.Valid() && i < |run.moves|
    ensures Sound(run.states[i]) && Next(run.states[i], run.moves[i].0, run.moves[i].1, run.states[i + 1])
    ensures Sound(run.states[i + 1]) && Evolves(run.states[i], run.states[i + 1])
    ensures NotRevived(run.states[i].db, run.moves[i].0, run.states[i + 1].db)
  {
    RunSound(run, i);
    assert run.Step(i);
    NextKeeps(run.states[i], run.moves[i].0, run.moves[i].1, run.states[i + 1]);
  }

  lemma StepEvolves(run: Run, i: nat)
    requires run.Valid() && i < |run.moves|
    ensures Evolves(run.states[i], run.states[i + 1])
  {
    RunStep(run, i);
  }

  lemma EvolvesTransitive(a: World, b: World, c: World)
    requires Evolves(a, b) && Evolves(b, c)
    ensures Evolves(a, c)
  {
    DbEvolvesTransitive(a.db, b.db, c.db);
  }

  lemma {:induction false} RunEvolves(run: Run, i: nat, k: nat)
    requires run.Valid() && i <= k < |run.states|
    ensures Evolves(run.states[i], run.states[k])
    decreases k
  {
    if i < k {
      RunEvolves(run, i, k - 1);
      StepEvolves(run, k - 1);
      EvolvesTransitive(run.states[i], run.states[k - 1], run.states[k]);
    }
  }
}

/** The protocol's hypotheses can be met, and its exceptions do occur: runs from the empty state. */
module Scenario {
  import opened Wrappers
  import opened Records
  import opened Programs
  import opened Sweeps
  import opened Windows

  // ---------------------------------------------------------------- building a run step by step

  ghost predicate Timed(run: Run, w: World) {
    run.Valid() && run.Timely() && run.states[|run.moves|] == w
  }

  lemma Begin(w: World) returns (run: Run)
    requires Init(w)
    ensures Timed(run, w) && run == Run([w], [])
  {
    run := Run([w], []);
  }

  lemma Proceed(run: Run, w: World, at: int, m: Move, w': World) returns (run': Run)
    requires Timed(run, w) && w.clock <= at && Next(w, at, m, w')
    ensures Timed(run', w') && run' == Run(run.states + [w'], run.moves + [(at, m)])
  {
    run' := Run(run.states + [w'], run.moves + [(at, m)]);
    forall i: nat | i < |run'.moves| ensures run'.Step(i) && run'.states[i].clock <= run'.moves[i].0 {
      if i < |run.moves| {
        assert run.Step(i);
      }
    }
  }

  // ---------------------------------------------------------------- one workspace, one job, one pod

  const Workspace := Key(7, 8)
  const Worker := Generation(Workspace, 1, 100, 5)

  function WithJob(job: Job): Db { Db(map[], map[1 := job], map[]) }

  /** The tables while job 1 holds the lease. */
  function Leased(job: Job): Db {
    Db(map[Workspace := Lease(Some(1), 100, 5, WORKSPACE_LEASE_TTL_MS)], map[1 := job], map[100 := Held(Workspace, 1, 5)])
  }

  const QueuedJob := Job(Workspace, Queued, 0, None, None)
  const RunningJob := Job(Workspace, Running, 0, Some(0), None)

  const Plain := Pod(3, 0, 0, 0, Some(Workspace), 4, Some(Restricted), None, None, None)
  const Marked := Pod(3, 0, 1, 0, Some(Workspace), 4, Some(Restricted), Some(1), Some(100), None)

  function NoPods(): Cluster { Cluster(map[], map[], 0, 0) }
  function OnePod(): Cluster { Cluster(map[3 := Plain], map[0 := Plain], 1, 1) }
  function MarkedPod(): Cluster { Cluster(map[3 := Marked], map[0 := Plain, 1 := Marked], 1, 2) }

  function W(db: Db, cluster: Cluster, exec: map<JobId, Exec>, tasks: map<nat, Task>): World {
    World(0, db, cluster, map[7 := Restricted], exec, tasks)
  }

  function Empty(): World { W(Db(map[], map[], map[]), NoPods(), map[], map[]) }

  function Executing(job: Job, e: Exec): World { W(Leased(job), NoPods(), map[1 := e], map[]) }

  /** Job 1 is working while a bind of its pod has got to `pc`. */
  function Binds(cluster: Cluster, pc: BindPc): World {
    W(Leased(RunningJob), cluster, map[1 := Working(100, 5)], map[9 := Bind(Worker, 3, 4, Restricted, 1, pc)])
  }

  const WorkersPod := Binding(Worker, 3, 0, 4, Restricted)

  /** The pod is bound, and the guard before an exec has got to `pc`. */
  function Guards(pc: GuardPc): World {
    W(Leased(RunningJob), MarkedPod(), map[1 := Working(100, 5)],
      map[9 := Bind(Worker, 3, 4, Restricted, 1, Bound(Marked)), 10 := Guard(WorkersPod, pc)])
  }

  const Tick := Go(9, false, [])
  const Tock := Go(10, false, [])

  // ---------------------------------------------------------------- a job starts

  lemma JobIsSubmitted() returns (run: Run)
    ensures Timed(run, W(WithJob(QueuedJob), NoPods(), map[1 := Submitted], map[]))
  {
    run := Begin(Empty());
    run := Proceed(run, Empty(), 0, Submit(1, Workspace, false), W(WithJob(QueuedJob), NoPods(), map[1 := Submitted], map[]));
  }

  lemma JobIsEnqueued() returns (run: Run)
    ensures Timed(run, W(WithJob(QueuedJob), NoPods(), map[1 := Waiting], map[]))
  {
    run := JobIsSubmitted();
    run := Proceed(run, W(WithJob(QueuedJob), NoPods(), map[1 := Submitted], map[]), 0, Execute(1, Enqueue),
                   W(WithJob(QueuedJob), NoPods(), map[1 := Waiting], map[]));
  }

  lemma LeaseIsAcquired() returns (run: Run)
    ensures Timed(run, Executing(QueuedJob, Acquired(100, 5)))
  {
    run := JobIsEnqueued();
    run := Proceed(run, W(WithJob(QueuedJob), NoPods(), map[1 := Waiting], map[]), 0, Execute(1, CreateRow(100, 5)),
                   Executing(QueuedJob, Acquired(100, 5)));
  }

  lemma JobStarts() returns (run: Run)
    ensures Timed(run, Executing(RunningJob, Working(100, 5)))
  {
    run := LeaseIsAcquired();
    assert Leased(QueuedJob).jobs[1 := RunningJob] == Leased(RunningJob).jobs;
    run := Proceed(run, Executing(QueuedJob, Acquired(100, 5)), 0, Execute(1, StartRunning), Executing(RunningJob, Working(100, 5)));
  }

  // ---------------------------------------------------------------- its pod is bound

  lemma PodAppears() returns (run: Run)
    ensures Timed(run, W(Leased(RunningJob), OnePod(), map[1 := Working(100, 5)], map[]))
  {
    run := JobStarts();
    run := Proceed(run, Executing(RunningJob, Working(100, 5)), 0, Create(3, Some(Workspace), 4, Restricted),
                   W(Leased(RunningJob), OnePod(), map[1 := Working(100, 5)], map[]));
  }

  lemma BindBegins() returns (run: Run)
    ensures Timed(run, Binds(OnePod(), BindStart))
  {
    run := PodAppears();
    run := Proceed(run, W(Leased(RunningJob), OnePod(), map[1 := Working(100, 5)], map[]), 0,
                   Start(9, Bind(Worker, 3, 4, Restricted, 1, BindStart)), Binds(OnePod(), BindStart));
  }

  lemma BindChecks() returns (run: Run)
    ensures Timed(run, Binds(OnePod(), BindChecked))
  {
    run := BindBegins();
    run := Proceed(run, Binds(OnePod(), BindStart), 0, Tick, Binds(OnePod(), BindChecked));
  }

  lemma BindReads() returns (run: Run)
    ensures Timed(run, Binds(OnePod(), BindRead(Plain)))
  {
    run := BindChecks();
    run := Proceed(run, Binds(OnePod(), BindChecked), 0, Tick, Binds(OnePod(), BindRead(Plain)));
  }

  lemma BindStamps() returns (run: Run)
    ensures Timed(run, Binds(MarkedPod(), BindStamped(Plain)))
  {
    run := BindReads();
    run := Proceed(run, Binds(OnePod(), BindRead(Plain)), 0, Tick, Binds(MarkedPod(), BindStamped(Plain)));
  }

  lemma BindReadsAgain() returns (run: Run)
    ensures Timed(run, Binds(MarkedPod(), BindReread(Marked)))
  {
    run := BindStamps();
    run := Proceed(run, Binds(MarkedPod(), BindStamped(Plain)), 0, Tick, Binds(MarkedPod(), BindReread(Marked)));
  }

  /** A run with agreeing clocks in which a job starts and its bind completes. */
  lemma SomeBindCompletes() returns (run: Run)
    ensures Timed(run, Binds(MarkedPod(), Bound(Marked))) && |run.moves| > 0
    ensures run.states[|run.moves| - 1] == Binds(MarkedPod(), BindReread(Marked)) && run.moves[|run.moves| - 1].1 == Tick
  {
    run := BindReadsAgain();
    run := Proceed(run, Binds(MarkedPod(), BindReread(Marked)), 0, Tick, Binds(MarkedPod(), Bound(Marked)));
  }

  // ---------------------------------------------------------------- the guard passes

  /** `run` goes on from `before`. */
  predicate Continues(before: Run, run: Run) {
    before.states <= run.states && before.moves <= run.moves
  }

  lemma GuardBegins(before: Run) returns (run: Run)
    requires Timed(before, Binds(MarkedPod(), Bound(Marked)))
    ensures Timed(run, Guards(GuardStart)) && Continues(before, run)
  {
    run := Proceed(before, Binds(MarkedPod(), Bound(Marked)), 0, Start(10, Guard(WorkersPod, GuardStart)), Guards(GuardStart));
  }

  lemma GuardMoves(before: Run, pc: GuardPc, pc': GuardPc) returns (run: Run)
    requires Timed(before, Guards(pc))
    requires || (pc == GuardStart && pc' == GuardChecked)
             || (pc == GuardChecked && pc' == GuardRead(Marked))
             || (pc == GuardRead(Marked) && pc' == GuardMode(Marked))
             || (pc == GuardMode(Marked) && pc' == GuardPassed(Marked))
    ensures Timed(run, Guards(pc')) && Continues(before, run)
    ensures run.moves == before.moves + [(0, Tock)]
  {
    run := Proceed(before, Guards(pc), 0, Tock, Guards(pc'));
  }

  lemma GuardPasses(before: Run) returns (run: Run)
    requires Timed(before, Guards(GuardStart))
    ensures Timed(run, Guards(GuardPassed(Marked))) && Continues(before, run) && |run.moves| > |before.moves|
    ensures run.states[|run.moves| - 1] == Guards(GuardMode(Marked)) && run.moves[|run.moves| - 1].1 == Tock
  {
    var checked := GuardMoves(before, GuardStart, GuardChecked);
    var read := GuardMoves(checked, GuardChecked, GuardRead(Marked));
    var decided := GuardMoves(read, GuardRead(Marked), GuardMode(Marked));
    run := GuardMoves(decided, GuardMode(Marked), GuardPassed(Marked));
  }

  /** A run with agreeing clocks in which a job starts, its bind completes at step `bound`, the guard
      before an exec passes at step `passed`, and the generation is at work. */
  lemma SomeRunGetsToWork() returns (run: Run, bound: nat, passed: nat)
    ensures Timed(run, Guards(GuardPassed(Marked))) && bound < passed == |run.moves| - 1
    ensures Protected(Guards(GuardPassed(Marked)).db, 0, 1, 100) && Marked.Stamped(1, 100)
    ensures run.states[bound] == Binds(MarkedPod(), BindReread(Marked)) && run.moves[bound].1 == Tick
    ensures run.states[bound + 1] == Binds(MarkedPod(), Bound(Marked))
    ensures run.states[passed] == Guards(GuardMode(Marked)) && run.moves[passed].1 == Tock
  {
    var binding := SomeBindCompletes();
    bound := |binding.moves| - 1;
    var guarding := GuardBegins(binding);
    run := GuardPasses(guarding);
    passed := |run.moves| - 1;
  }

  /** Both windows are there in that run. */
  lemma SomeWindowsOpen() returns (run: Run, i: nat, bound: nat, i': nat, passed: nat)
    ensures run.Valid() && i < bound < |run.moves| && i' < passed < |run.moves|
    ensures HeldThroughout(run, i, bound, Worker) && HeldThroughout(run, i', passed, Worker)
  {
    run, bound, passed := SomeRunGetsToWork();
    var s, r, r', c' := 0, 0, 0, 0;
    i, s, r := BindWindow(run, bound, 9, Bind(Worker, 3, 4, Restricted, 1, BindReread(Marked)), Marked);
    i', r', c' := GuardWindow(run, passed, 10, WorkersPod, Marked);
  }

  // ---------------------------------------------------------------- the mode is changed meanwhile

  /** The egress mode of the assistant is changed after the guard has read the pod; the guard does not
      pass. */
  lemma ChangedModeIsRefused(before: Run) returns (run: Run)
    requires Timed(before, Guards(GuardRead(Marked)))
    ensures run.Valid() && Continues(before, run) && run.states[|run.moves|].tasks == Guards(GuardRead(Marked)).tasks[10 := Ended]
    ensures |run.moves| > 0 && run.moves[|run.moves| - 1] == (0, Tock)
  {
    var changed := Guards(GuardRead(Marked)).(modes := map[7 := FullPublic]);
    assert map[7 := Restricted][7 := FullPublic] == map[7 := FullPublic];
    run := Proceed(before, Guards(GuardRead(Marked)), 0, SetMode(7, FullPublic), changed);
    run := Proceed(run, changed, 0, Tock, changed.(tasks := changed.tasks[10 := Ended]));
  }

  // ---------------------------------------------------------------- a terminal status is replaced

  /** Job 1 has status `status`, was never started, and its submitter is at `e`. */
  function NeverStarted(status: Status, e: Exec): World {
    W(WithJob(Job(Workspace, status, 0, None, Some(0))), NoPods(), map[1 := e], map[])
  }

  lemma SubmittedJobIsCancelled() returns (run: Run)
    ensures Timed(run, NeverStarted(Cancelled, Submitted))
  {
    run := JobIsSubmitted();
    assert WithJob(QueuedJob).jobs[1 := Job(Workspace, Cancelled, 0, None, Some(0))] == map[1 := Job(Workspace, Cancelled, 0, None, Some(0))];
    run := Proceed(run, W(WithJob(QueuedJob), NoPods(), map[1 := Submitted], map[]), 0, Write(1, CancelActive),
                   NeverStarted(Cancelled, Submitted));
  }

  /** A Script is cancelled while its submitter still checks the limits; the write to blocked that
      follows replaces the terminal status. */
  lemma CancelledJobBecomesBlocked() returns (run: Run)
    ensures Timed(run, NeverStarted(Blocked, Done)) && |run.moves| > 0
    ensures var k := |run.moves| - 1; run.states[k] == NeverStarted(Cancelled, Submitted) && run.moves[k].1 == Execute(1, Block)
  {
    run := SubmittedJobIsCancelled();
    assert map[1 := Job(Workspace, Cancelled, 0, None, Some(0))][1 := Job(Workspace, Blocked, 0, None, Some(0))]
        == map[1 := Job(Workspace, Blocked, 0, None, Some(0))];
    run := Proceed(run, NeverStarted(Cancelled, Submitted), 0, Execute(1, Block), NeverStarted(Blocked, Done));
  }
}

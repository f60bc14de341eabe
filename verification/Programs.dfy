/** The programs the replicas run over the shared records, one program counter each. Every
    awaited statement or API call is one step; what a program read earlier it remembers. */
module Programs {
  import opened Wrappers
  import opened Numbers
  import opened Records

  /** A lease generation: who works on which job under which token. */
  datatype Generation = Generation(key: Key, job: JobId, token: Token, holder: Holder)

  /** The immutable record a bound job keeps about its pod. */
  datatype Binding = Binding(gen: Generation, name: PodName, uid: nat, handle: nat, mode: Mode)

  predicate Holds(db: Db, gen: Generation, at: int) {
    HoldsLease(db, gen.key, gen.job, gen.token, gen.holder, at)
  }

  predicate Identified(pod: Pod, gen: Generation, handle: nat, mode: Mode) {
    pod.owner == Some(gen.key) && pod.handle == handle && pod.mode == Some(mode)
  }

  // ---------------------------------------------------------------- executeQueuedJob

  /** Program counter of the one executor of a job, with the flags its `finally` block reads. */
  datatype Exec =
    | Submitted
    | Waiting
    | Acquired(token: Token, holder: Holder)
    | Working(token: Token, holder: Holder)
    | Detaching(token: Token, holder: Holder)
    | Catching(lease: Option<(Token, Holder)>, detached: bool)
    | Rereading(lease: Option<(Token, Holder)>, detached: bool, cancelled: bool)
    | Finalizing(lease: Option<(Token, Holder)>, terminal: bool, detached: bool)
    | Done

  /** What the environment of a step decides: outcomes of pod work, errors, fresh tokens. */
  datatype Choice =
    | Block
    | Enqueue
    | CreateRow(token: Token, holder: Holder)
    | ClaimRow(token: Token, holder: Holder, readAt: int)
    | GiveUp
    | StartRunning
    | Throw
    | Detach
    | DetachedPodReleased(ok: bool)
    | Complete(success: bool)
    | WriteCancelled
    | Reread
    | WriteFailure(blocked: bool)
    | CatchFails
    | StopHeartbeat(podFinalized: bool, tombstone: Token)

  predicate ExecStep(db: Db, at: int, j: JobId, e: Exec, c: Choice, db': Db, e': Exec)
    requires j in db.jobs
  {
    var key := db.jobs[j].key;
    match e
    case Submitted =>
      (match c
       case Enqueue => db' == db && e' == Waiting
       case Block => db' == db.(jobs := db.jobs[j := Moved(db.jobs[j], Blocked, at)]) && e' == Done
       case _ => false)
    case Waiting =>
      (match c
       case CreateRow(t, h) =>
         && t !in db.issued
         && CreateLease(db, key, j, t, h, at + WORKSPACE_LEASE_TTL_MS) == Some(db')
         && e' == Acquired(t, h)
       case ClaimRow(t, h, readAt) =>
         && t !in db.issued && readAt <= at
         && ClaimLease(db, key, j, t, h, readAt + WORKSPACE_LEASE_TTL_MS, at) == Some(db')
         && e' == Acquired(t, h)
       case GiveUp => db' == db && e' == Catching(None, false)
       case _ => false)
    case Acquired(t, h) =>
      (match c
       case StartRunning =>
         (match UpdateJobUnderLease(db, j, key, t, h, Queued, Running, at)
          case Some(d) => db' == d && e' == Working(t, h)
          case None => db' == db && e' == Catching(Some((t, h)), false))
       case Throw => db' == db && e' == Catching(Some((t, h)), false)
       case _ => false)
    case Working(t, h) =>
      (match c
       case Throw => db' == db && e' == Catching(Some((t, h)), false)
       case Detach =>
         (match UpdateJobUnderLease(db, j, key, t, h, Running, Status.Detached, at)
          case Some(d) => db' == d && e' == Detaching(t, h)
          case None => db' == db && e' == Catching(Some((t, h)), false))
       case Complete(success) =>
         (match UpdateJobUnderLease(db, j, key, t, h, Running, if success then Completed else Failed, at)
          case Some(d) => db' == d && e' == Finalizing(Some((t, h)), true, false)
          case None => db' == db && e' == Finalizing(Some((t, h)), false, false))
       case _ => false)
    case Detaching(t, h) =>
      (match c
       case DetachedPodReleased(ok) =>
         db' == db && e' == if ok then Finalizing(Some((t, h)), false, true) else Catching(Some((t, h)), true)
       case _ => false)
    case Catching(lease, detached) =>
      (match c
       case WriteCancelled =>
         (match UpdateJob(db, j, {Queued, Running}, Cancelled, at)
          case Some(d) => db' == d && e' == Rereading(lease, detached, true)
          case None => db' == db && e' == Rereading(lease, detached, false))
       case WriteFailure(blocked) =>
         var status := if blocked then Blocked else Failed;
         (match (if lease.None? then UpdateJob(db, j, {Queued}, status, at)
                 else UpdateJobUnderLease(db, j, key, lease.value.0, lease.value.1, Running, status, at))
          case Some(d) => db' == d && e' == Finalizing(lease, true, detached)
          case None => db' == db && e' == Finalizing(lease, false, detached))
       case CatchFails => db' == db && e' == Finalizing(lease, false, detached)
       case _ => false)
    case Rereading(lease, detached, cancelled) =>
      && db' == db
      && (match c
          case Reread => e' == Finalizing(lease, cancelled || db.jobs[j].status.Cancelled?, detached)
          case CatchFails => e' == Finalizing(lease, false, detached)
          case _ => false)
    case Finalizing(lease, terminal, detached) =>
      (match c
       case StopHeartbeat(podFinalized, tombstone) =>
         && tombstone !in db.issued
         && e' == Done
         && db' == (if lease.Some? && (terminal || detached) && (podFinalized || detached)
                    then match ReleaseLease(db, key, lease.value.0, lease.value.1, tombstone, at)
                         case Some(d) => d
                         case None => db
                    else db)
       case _ => false)
    case Done => false
  }

  // ---------------------------------------------------------------- pod programs

  datatype BindPc = BindStart | BindChecked | BindRead(seen: Pod) | BindStamped(seen: Pod) | BindReread(again: Pod) | Bound(bound: Pod)

  datatype GuardPc = GuardStart | GuardChecked | GuardRead(seen: Pod) | GuardMode(seen: Pod) | GuardPassed(seen: Pod)

  datatype SweepPc = Listed | JobRead(active: bool) | Quiet(active: bool) | Unused
                   | Found(current: Pod) | FoundJob(current: Pod, active: bool) | Stale | Ready

  datatype Task =
    | Bind(gen: Generation, name: PodName, handle: nat, mode: Mode, attempt: nat, bind: BindPc)
    | Guard(binding: Binding, guard: GuardPc)
    | Clear(binding: Binding, clearing: Option<Pod>)
    | Retire(binding: Binding, retiring: Option<Pod>)
    | Baseline(name: PodName, uid: nat, recording: Option<Pod>)
    | Reap(now: int, idleTtl: nat, seen: Pod, sweep: SweepPc)
    | Reconcile(canonical: Mode, target: Pod, review: SweepPc)
    | Recycle(gen: Generation, name: PodName, handle: nat, admitted: bool, found: Option<Pod>, marked: bool)
    | Ended

  /** Where each program starts. A sweep starts from one entry of a pod list taken just now. */
  predicate Initial(cluster: Cluster, at: int, task: Task) {
    match task
    case Bind(_, _, _, _, attempt, pc) => attempt == 1 && pc == BindStart
    case Guard(_, pc) => pc == GuardStart
    case Clear(_, read) => read.None?
    case Retire(_, read) => read.None?
    case Baseline(_, _, read) => read.None?
    case Reap(now, _, seen, pc) =>
      pc == Listed && now <= at && seen.name in cluster.pods && cluster.pods[seen.name] == seen
    case Reconcile(canonical, seen, pc) =>
      && pc == Listed && seen.name in cluster.pods && cluster.pods[seen.name] == seen
      && seen.owner.Some? && seen.mode != Some(canonical)
    case Recycle(_, _, _, admitted, found, marked) => !admitted && found.None? && !marked
    case Ended => false
  }

  /** bindPodToCurrentJob. */
  predicate BindStep(db: Db, cl: Cluster, at: int, t: Task, cl': Cluster, t': Task)
    requires t.Bind?
  {
    match t.bind
    case BindStart =>
      cl' == cl && t' == if Holds(db, t.gen, at) then t.(bind := BindChecked) else Ended
    case BindChecked =>
      && cl' == cl
      && t' == if t.name !in cl.pods then Ended
               else var pod := cl.pods[t.name];
               if !Identified(pod, t.gen, t.handle, t.mode) then Ended
               else if || (pod.stampJob.Some? && pod.stampJob != Some(t.gen.job))
                       || (pod.stampToken.Some? && pod.stampToken != Some(t.gen.token)) then Ended
               else if pod.Stamped(t.gen.job, t.gen.token) then t.(bind := BindStamped(pod))
               else t.(bind := BindRead(pod))
    case BindRead(seen) =>
      (match ReplacePod(cl, seen.(stampJob := Some(t.gen.job), stampToken := Some(t.gen.token)))
       case Some(c) => cl' == c && t' == t.(bind := BindStamped(seen))
       case None => cl' == cl && t' == if t.attempt < 3 then t.(attempt := t.attempt + 1, bind := BindStart) else Ended)
    case BindStamped(seen) =>
      && cl' == cl
      && t' == if t.name !in cl.pods then Ended
               else var pod := cl.pods[t.name];
               if && pod.uid == seen.uid && Identified(pod, t.gen, t.handle, t.mode)
                  && pod.Stamped(t.gen.job, t.gen.token) then t.(bind := BindReread(pod))
               else Ended
    case BindReread(again) =>
      cl' == cl && t' == if Holds(db, t.gen, at) then t.(bind := Bound(again)) else Ended
    case Bound(_) => false
  }

  /** assertCanonicalPodModeImmediatelyBeforeExec, for a caller that is bound to a job. */
  predicate GuardStep(db: Db, cl: Cluster, modes: map<nat, Mode>, at: int, t: Task, t': Task)
    requires t.Guard?
  {
    var b := t.binding;
    match t.guard
    case GuardStart => t' == if Holds(db, b.gen, at) then t.(guard := GuardChecked) else Ended
    case GuardChecked => t' == if b.name in cl.pods then t.(guard := GuardRead(cl.pods[b.name])) else Ended
    case GuardRead(seen) =>
      t' == if && b.gen.key.assistant in modes && modes[b.gen.key.assistant] == b.mode
               && seen.uid == b.uid && Identified(seen, b.gen, b.handle, b.mode)
               && seen.Stamped(b.gen.job, b.gen.token)
            then t.(guard := GuardMode(seen)) else Ended
    case GuardMode(seen) => t' == if Holds(db, b.gen, at) then t.(guard := GuardPassed(seen)) else Ended
    case GuardPassed(_) => false
  }

  /** clearBoundPodGeneration. */
  predicate ClearStep(cl: Cluster, t: Task, cl': Cluster, t': Task)
    requires t.Clear?
  {
    var b := t.binding;
    match t.clearing
    case None =>
      && cl' == cl
      && t' == if && b.name in cl.pods && cl.pods[b.name].uid == b.uid
                  && cl.pods[b.name].Stamped(b.gen.job, b.gen.token)
               then t.(clearing := Some(cl.pods[b.name])) else Ended
    case Some(seen) =>
      && t' == Ended
      && cl' == (match ReplacePod(cl, seen.(stampJob := None, stampToken := None))
                case Some(c) => c
                case None => cl)
  }

  /** retireModelJobPod. */
  predicate RetireStep(cl: Cluster, t: Task, cl': Cluster, t': Task)
    requires t.Retire?
  {
    var b := t.binding;
    match t.retiring
    case None =>
      && cl' == cl
      && t' == if && b.name in cl.pods && cl.pods[b.name].uid == b.uid
                  && Identified(cl.pods[b.name], b.gen, b.handle, b.mode)
                  && cl.pods[b.name].Stamped(b.gen.job, b.gen.token)
               then t.(retiring := Some(cl.pods[b.name])) else Ended
    case Some(seen) =>
      && t' == Ended
      && cl' == (match DeletePod(cl, b.name, b.uid, Some(seen.version))
                case Some(c) => c
                case None => cl)
  }

  /** ensureBaselineProcessSet and applyBaselineProcessPids; the process ids come from the pod. */
  predicate BaselineStep(cl: Cluster, t: Task, pids: seq<nat>, cl': Cluster, t': Task)
    requires t.Baseline?
  {
    match t.recording
    case None =>
      && cl' == cl
      && t' == if t.name in cl.pods && cl.pods[t.name].baseline.None?
               then t.(recording := Some(cl.pods[t.name])) else Ended
    case Some(seen) =>
      && t' == Ended
      && cl' == if seen.uid != t.uid then cl
                else match ReplacePod(cl, seen.(baseline := Some(pids)))
                     case Some(c) => c
                     case None => cl
  }

  /** failStaleAnnotatedJob. */
  function FailStale(db: Db, pod: Pod, at: int): Db {
    if pod.stampJob.Some? && pod.owner.Some? && ActiveJob(db, pod.owner.value, pod.stampJob.value)
    then match UpdateJob(db, pod.stampJob.value, {Queued, Running}, Failed, at)
         case Some(d) => d
         case None => db
    else db
  }

  predicate AnyActiveJob(db: Db, key: Key) {
    exists j :: j in db.jobs && ActiveJob(db, key, j)
  }

  /** `j` is the job of the workspace that was created last. */
  predicate IsLatestJob(db: Db, key: Key, j: JobId) {
    && j in db.jobs && db.jobs[j].key == key
    && forall i :: i in db.jobs && db.jobs[i].key == key ==> db.jobs[i].createdAt <= db.jobs[j].createdAt
  }

  predicate NoJob(db: Db, key: Key) {
    forall i :: i in db.jobs ==> db.jobs[i].key != key
  }

  function LastActivity(job: Job): int {
    if job.completedAt.Some? then job.completedAt.value else job.createdAt
  }

  predicate IdleSince(last: int, now: int, idleTtl: nat) { now - last > idleTtl }

  /** One pod of runReaperTick; `now` is the time the tick began, which the lease queries use. */
  predicate ReapStep(db: Db, cl: Cluster, at: int, t: Task, db': Db, cl': Cluster, t': Task)
    requires t.Reap?
  {
    var pod := t.seen;
    match t.sweep
    case Listed =>
      && db' == db && cl' == cl
      && t' == if pod.owner.None? then (if IdleSince(pod.createdAt, t.now, t.idleTtl) then t.(sweep := Ready) else Ended)
               else if pod.Unstamped() then t.(sweep := Quiet(AnyActiveJob(db, pod.owner.value)))
               else if pod.stampJob.None? || pod.stampToken.None? then t.(sweep := Stale)
               else t.(sweep := JobRead(ActiveJob(db, pod.owner.value, pod.stampJob.value)))
    case JobRead(active) =>
      && db' == db && cl' == cl && pod.owner.Some? && pod.stampJob.Some? && pod.stampToken.Some?
      && t' == if active && ActiveLease(db, pod.owner.value, pod.stampJob.value, pod.stampToken.value, t.now)
               then Ended else t.(sweep := Stale)
    case Quiet(active) =>
      && db' == db && cl' == cl && pod.owner.Some?
      && t' == if active || (pod.owner.value in db.leases && db.leases[pod.owner.value].expiresAt > t.now)
               then Ended else t.(sweep := Unused)
    case Unused =>
      && db' == db && cl' == cl && pod.owner.Some?
      && (|| (NoJob(db, pod.owner.value) && t' == if IdleSince(pod.createdAt, t.now, t.idleTtl) then t.(sweep := Ready) else Ended)
          || (exists j | j in db.jobs ::
                && IsLatestJob(db, pod.owner.value, j)
                && t' == if IdleSince(Max(pod.createdAt, LastActivity(db.jobs[j])), t.now, t.idleTtl) then t.(sweep := Ready) else Ended))
    case Stale => db' == FailStale(db, pod, at) && cl' == cl && t' == t.(sweep := Ready)
    case Ready =>
      && db' == db && t' == Ended
      && cl' == (match DeletePod(cl, pod.name, pod.uid, Some(pod.version))
                case Some(c) => c
                case None => cl)
    case Found(_) => false
    case FoundJob(_, _) => false
  }

  /** One target of reconcileAssistantEgressPods. */
  predicate ReconcileStep(db: Db, cl: Cluster, at: int, t: Task, cl': Cluster, t': Task)
    requires t.Reconcile?
  {
    var pod := t.target;
    match t.review
    case Listed =>
      && cl' == cl
      && t' == if pod.name !in cl.pods then Ended
               else var current := cl.pods[pod.name];
               if current.uid != pod.uid || current.version != pod.version || current.mode == Some(t.canonical)
               then Ended else t.(review := Found(current))
    case Found(current) =>
      && cl' == cl && pod.owner.Some?
      && t' == if current.stampJob.None? || current.stampToken.None? then t.(review := Ready)
               else t.(review := FoundJob(current, ActiveJob(db, pod.owner.value, current.stampJob.value)))
    case FoundJob(current, active) =>
      && cl' == cl && pod.owner.Some? && current.stampJob.Some? && current.stampToken.Some?
      && t' == if active && ActiveLease(db, pod.owner.value, current.stampJob.value, current.stampToken.value, at)
               then Ended else t.(review := Ready)
    case Ready =>
      && t' == Ended
      && cl' == (match DeletePod(cl, pod.name, pod.uid, Some(pod.version))
                case Some(c) => c
                case None => cl)
    case _ => false
  }

  /** The recycle path of ensureSessionPodRunning for a pod stamped by another generation. */
  predicate RecycleStep(db: Db, cl: Cluster, at: int, t: Task, db': Db, cl': Cluster, t': Task)
    requires t.Recycle?
  {
    if !t.admitted then
      db' == db && cl' == cl && t' == if Holds(db, t.gen, at) then t.(admitted := true) else Ended
    else match t.found
      case None =>
        && db' == db && cl' == cl
        && t' == if && t.name in cl.pods && cl.pods[t.name].owner == Some(t.gen.key) && cl.pods[t.name].handle == t.handle
                    && !cl.pods[t.name].Unstamped() && !cl.pods[t.name].Stamped(t.gen.job, t.gen.token)
                 then t.(found := Some(cl.pods[t.name])) else Ended
      case Some(pod) =>
        if !t.marked then db' == FailStale(db, pod, at) && cl' == cl && t' == t.(marked := true)
        else && db' == db && t' == Ended
             && cl' == (match DeletePod(cl, pod.name, pod.uid, None)
                       case Some(c) => c
                       case None => cl)
  }

  /** One step of a pod program. Any call may also fail, which ends the program. */
  predicate TaskStep(db: Db, cl: Cluster, modes: map<nat, Mode>, at: int, t: Task, fails: bool, pids: seq<nat>,
                     db': Db, cl': Cluster, t': Task)
  {
    && !t.Ended?
    && (fails ==> t' == Ended && db' == db && cl' == cl)
    && (!fails ==>
          match t
          case Bind(_, _, _, _, _, _) => db' == db && BindStep(db, cl, at, t, cl', t')
          case Guard(_, _) => db' == db && cl' == cl && GuardStep(db, cl, modes, at, t, t')
          case Clear(_, _) => db' == db && ClearStep(cl, t, cl', t')
          case Retire(_, _) => db' == db && RetireStep(cl, t, cl', t')
          case Baseline(_, _, _) => db' == db && BaselineStep(cl, t, pids, cl', t')
          case Reap(_, _, _, _) => ReapStep(db, cl, at, t, db', cl', t')
          case Reconcile(_, _, _) => db' == db && ReconcileStep(db, cl, at, t, cl', t')
          case Recycle(_, _, _, _, _, _) => RecycleStep(db, cl, at, t, db', cl', t')
          case Ended => false)
  }

  // ---------------------------------------------------------------- the whole system

  /** The job writers that hold no lease: cancellation, polling of detached jobs, staleness. */
  datatype Writer = CancelActive | CancelDetached | FinishDetached(outcome: Status) | FailStaleJob(observed: Status)

  function Written(db: Db, j: JobId, writer: Writer, at: int): Option<Db> {
    match writer
    case CancelActive => UpdateJob(db, j, {Queued, Running}, Cancelled, at)
    case CancelDetached => UpdateJob(db, j, {Status.Detached}, Cancelled, at)
    case FinishDetached(outcome) =>
      if outcome in {Completed, Failed, Cancelled} then UpdateJob(db, j, {Status.Detached}, outcome, at) else None
    case FailStaleJob(observed) =>
      if observed.Active() then UpdateJob(db, j, {observed}, Failed, at) else None
  }

  datatype World = World(clock: int, db: Db, cluster: Cluster, modes: map<nat, Mode>, exec: map<JobId, Exec>, tasks: map<nat, Task>)

  datatype Move =
    | Submit(job: JobId, key: Key, blocked: bool)
    | Execute(job: JobId, choice: Choice)
    | Renew(gen: Generation, readAt: int)
    | Write(job: JobId, writer: Writer)
    | SetMode(assistant: nat, mode: Mode)
    | Create(name: PodName, owner: Option<Key>, handle: nat, mode: Mode)
    | Touch(name: PodName)
    | Evict(name: PodName)
    | Start(id: nat, task: Task)
    | Go(id: nat, fails: bool, pids: seq<nat>)

  /** One step of the system by a statement stamped `at`. The clock is the latest stamp so far.
      `Touch` is a status write by the cluster; `Evict` is any removal by uid alone, among them
      the recycling of pods with a wrong mode. */
  predicate Next(w: World, at: int, m: Move, w': World) {
    && w'.clock == Max(w.clock, at)
    && match m
       case Submit(j, key, blocked) =>
         && j !in w.db.jobs && j !in w.exec
         && w' == w.(clock := w'.clock,
                     db := w.db.(jobs := w.db.jobs[j := if blocked then Job(key, Blocked, at, None, Some(at)) else Job(key, Queued, at, None, None)]),
                     exec := if blocked then w.exec else w.exec[j := Submitted])
       case Execute(j, choice) =>
         && j in w.exec && j in w'.exec && j in w.db.jobs
         && ExecStep(w.db, at, j, w.exec[j], choice, w'.db, w'.exec[j])
         && w' == w.(clock := w'.clock, db := w'.db, exec := w.exec[j := w'.exec[j]])
       case Renew(gen, readAt) =>
         && readAt <= at && gen.token in w.db.issued && w.db.issued[gen.token] == Held(gen.key, gen.job, gen.holder)
         && RenewLease(w.db, gen.key, gen.job, gen.token, gen.holder, readAt + WORKSPACE_LEASE_TTL_MS, at) == Some(w'.db)
         && w' == w.(clock := w'.clock, db := w'.db)
       case Write(j, writer) =>
         && Written(w.db, j, writer, at) == Some(w'.db)
         && w' == w.(clock := w'.clock, db := w'.db)
       case SetMode(a, mode) => w' == w.(clock := w'.clock, modes := w.modes[a := mode])
       case Create(name, owner, handle, mode) =>
         && CreatePod(w.cluster, name, owner, handle, mode, at) == Some(w'.cluster)
         && w' == w.(clock := w'.clock, cluster := w'.cluster)
       case Touch(name) =>
         && name in w.cluster.pods
         && w' == w.(clock := w'.clock, cluster := Store(w.cluster, w.cluster.pods[name]))
       case Evict(name) =>
         w' == w.(clock := w'.clock, cluster := w.cluster.(pods := w.cluster.pods - {name}))
       case Start(id, task) =>
         && id !in w.tasks && Initial(w.cluster, at, task)
         && (task.Bind? ==> Issued(w.db, task.gen)) && (task.Recycle? ==> Issued(w.db, task.gen))
         && w' == w.(clock := w'.clock, tasks := w.tasks[id := task])
       case Go(id, fails, pids) =>
         && id in w.tasks && id in w'.tasks
         && TaskStep(w.db, w.cluster, w.modes, at, w.tasks[id], fails, pids, w'.db, w'.cluster, w'.tasks[id])
         && w' == w.(clock := w'.clock, db := w'.db, cluster := w'.cluster, tasks := w.tasks[id := w'.tasks[id]])
  }

  /** The token of `gen` was installed for exactly this key, job and holder. */
  predicate Issued(db: Db, gen: Generation) {
    gen.token in db.issued && db.issued[gen.token] == Held(gen.key, gen.job, gen.holder)
  }

  predicate Init(w: World) {
    && w.db == Db(map[], map[], map[])
    && w.cluster.pods == map[] && w.cluster.log == map[]
    && w.exec == map[] && w.tasks == map[]
  }

  /** A run: states and the moves between them, each with the time stamp of its statement. */
  datatype Run = Run(states: seq<World>, moves: seq<(int, Move)>)
  {
    ghost predicate Valid() {
      && |states| == |moves| + 1
      && Init(states[0])
      && forall i :: 0 <= i < |moves| ==> Step(i)
    }

    ghost predicate Step(i: nat)
      requires i < |moves| && |states| == |moves| + 1
    {
      Next(states[i], moves[i].0, moves[i].1, states[i + 1])
    }

    /** The replicas' clocks agree with the order in which statements take effect. */
    ghost predicate Timely()
      requires |states| == |moves| + 1
    {
      forall i :: 0 <= i < |moves| ==> states[i].clock <= moves[i].0
    }
  }
}

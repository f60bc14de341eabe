/** The cluster side of the invariant, and what the pod programs may rely on between a read and
    the write that depends on it. A snapshot is a whole pod version, so a matching resource
    version means that nothing in the pod has changed since. */
module Snapshots {
  import opened Wrappers
  import opened Records
  import opened Programs
  import opened Invariants

  /** A stamp is whole, and names a generation that was issued for the pod's owner. */
  predicate StampOk(db: Db, pod: Pod) {
    || pod.Unstamped()
    || (&& pod.stampJob.Some? && pod.stampToken.Some? && pod.owner.Some?
        && pod.stampToken.value in db.issued && db.issued[pod.stampToken.value].Held?
        && db.issued[pod.stampToken.value].key == pod.owner.value
        && db.issued[pod.stampToken.value].job == pod.stampJob.value)
  }

  predicate Logged(cl: Cluster, pod: Pod) {
    pod.version in cl.log && cl.log[pod.version] == pod
  }

  ghost predicate ClusterInv(db: Db, cl: Cluster) {
    && (forall n :: n in cl.pods ==> cl.pods[n].name == n && Logged(cl, cl.pods[n]))
    && (forall v :: v in cl.log ==>
          cl.log[v].version == v && v < cl.nextVersion && cl.log[v].uid < cl.nextUid && StampOk(db, cl.log[v]))
    && (forall v, u :: v in cl.log && u in cl.log && cl.log[v].uid == cl.log[u].uid ==> cl.log[v].SamePod(cl.log[u]))
  }

  ghost predicate ClusterEvolves(cl: Cluster, cl': Cluster) {
    forall v :: v in cl.log ==> v in cl'.log && cl'.log[v] == cl.log[v]
  }

  lemma StoreKeeps(db: Db, cl: Cluster, pod: Pod)
    requires ClusterInv(db, cl) && StampOk(db, pod) && pod.uid < cl.nextUid
    requires forall v :: v in cl.log && cl.log[v].uid == pod.uid ==> cl.log[v].SamePod(pod)
    ensures ClusterInv(db, Store(cl, pod)) && ClusterEvolves(cl, Store(cl, pod))
  {
  }

  /** Rewriting the stamp or the baseline of a version that was once stored. */
  lemma ReplaceKeeps(db: Db, cl: Cluster, seen: Pod, body: Pod)
    requires ClusterInv(db, cl) && Logged(cl, seen) && body.SamePod(seen) && body.version == seen.version && StampOk(db, body)
    requires ReplacePod(cl, body).Some?
    ensures var cl' := ReplacePod(cl, body).value; ClusterInv(db, cl') && ClusterEvolves(cl, cl')
    ensures cl.pods[body.name] == seen
  {
    StoreKeeps(db, cl, body);
  }

  lemma CreateKeeps(db: Db, cl: Cluster, name: PodName, owner: Option<Key>, handle: nat, mode: Mode, at: int)
    requires ClusterInv(db, cl) && CreatePod(cl, name, owner, handle, mode, at).Some?
    ensures var cl' := CreatePod(cl, name, owner, handle, mode, at).value; ClusterInv(db, cl') && ClusterEvolves(cl, cl')
  {
    var cl1 := cl.(nextUid := cl.nextUid + 1);
    assert ClusterInv(db, cl1);
    StoreKeeps(db, cl1, Pod(name, cl.nextUid, 0, at, owner, handle, Some(mode), None, None, None));
  }

  lemma ClusterStable(db: Db, db': Db, cl: Cluster)
    requires ClusterInv(db, cl) && DbEvolves(db, db')
    ensures ClusterInv(db', cl)
  {
    forall v | v in cl.log ensures StampOk(db', cl.log[v]) { assert StampOk(db, cl.log[v]); }
  }

  // ---------------------------------------------------------------- what a program knows

  predicate OwnStampOrNone(pod: Pod, gen: Generation) {
    && (pod.stampJob.None? || pod.stampJob == Some(gen.job))
    && (pod.stampToken.None? || pod.stampToken == Some(gen.token))
  }

  predicate BoundTo(cl: Cluster, pod: Pod, b: Binding) {
    Logged(cl, pod) && pod.uid == b.uid && pod.Stamped(b.gen.job, b.gen.token)
  }

  predicate WholeStamp(pod: Pod) {
    pod.owner.Some? && pod.stampJob.Some? && pod.stampToken.Some?
  }

  predicate BindOk(db: Db, cl: Cluster, t: Task)
    requires t.Bind?
  {
    && Issued(db, t.gen) && 1 <= t.attempt <= 3
    && match t.bind
       case BindStart => true
       case BindChecked => true
       case BindRead(seen) =>
         Logged(cl, seen) && seen.name == t.name && Identified(seen, t.gen, t.handle, t.mode) && OwnStampOrNone(seen, t.gen)
       case BindStamped(seen) => Logged(cl, seen) && seen.name == t.name
       case BindReread(again) => Logged(cl, again) && again.name == t.name && again.Stamped(t.gen.job, t.gen.token)
       case Bound(bound) => Logged(cl, bound) && bound.name == t.name && bound.Stamped(t.gen.job, t.gen.token)
  }

  predicate TaskOk(db: Db, cl: Cluster, t: Task) {
    match t
    case Bind(_, _, _, _, _, _) => BindOk(db, cl, t)
    case Guard(b, pc) =>
      (match pc
       case GuardRead(seen) => Logged(cl, seen) && seen.name == b.name
       case GuardMode(seen) => BoundTo(cl, seen, b)
       case GuardPassed(seen) => BoundTo(cl, seen, b)
       case _ => true)
    case Clear(b, read) => read.Some? ==> BoundTo(cl, read.value, b) && read.value.name == b.name
    case Retire(b, read) =>
      read.Some? ==> BoundTo(cl, read.value, b) && read.value.name == b.name && Identified(read.value, b.gen, b.handle, b.mode)
    case Baseline(name, _, read) => read.Some? ==> Logged(cl, read.value) && read.value.name == name && read.value.baseline.None?
    case Reap(_, _, seen, pc) => Logged(cl, seen) && (pc.JobRead? || pc.Stale? ==> WholeStamp(seen))
                               && (pc.Quiet? || pc.Unused? ==> seen.owner.Some? && seen.Unstamped())
    case Reconcile(canonical, target, pc) =>
      && Logged(cl, target) && target.mode != Some(canonical)
      && (pc.Found? || pc.FoundJob? ==> pc.current == target)
      && (pc.FoundJob? ==> WholeStamp(target))
    case Recycle(gen, name, handle, admitted, found, _) =>
      && Issued(db, gen)
      && (found.Some? ==> && admitted && Logged(cl, found.value) && found.value.name == name
                          && found.value.owner == Some(gen.key) && found.value.handle == handle)
    case Ended => true
  }

  ghost predicate TasksOk(db: Db, cl: Cluster, tasks: map<nat, Task>) {
    forall id :: id in tasks ==> TaskOk(db, cl, tasks[id])
  }

  lemma TaskStable(db: Db, db': Db, cl: Cluster, cl': Cluster, t: Task)
    requires TaskOk(db, cl, t) && DbEvolves(db, db') && ClusterEvolves(cl, cl')
    ensures TaskOk(db', cl', t)
  {
  }

  lemma TasksStable(db: Db, db': Db, cl: Cluster, cl': Cluster, tasks: map<nat, Task>)
    requires TasksOk(db, cl, tasks) && DbEvolves(db, db') && ClusterEvolves(cl, cl')
    ensures TasksOk(db', cl', tasks)
  {
    forall id | id in tasks ensures TaskOk(db', cl', tasks[id]) { TaskStable(db, db', cl, cl', tasks[id]); }
  }

  // ---------------------------------------------------------------- steps of the pod programs

  lemma FailStaleKeeps(db: Db, pod: Pod, at: int)
    requires DbInv(db)
    ensures var db' := FailStale(db, pod, at);
      DbInv(db') && DbEvolves(db, db') && NotRevived(db, at, db') && db'.issued == db.issued && db'.leases == db.leases
  {
    if FailStale(db, pod, at) != db {
      JobUpdateKeeps(db, pod.stampJob.value, {Queued, Running}, Failed, at);
    }
  }

  lemma BindStepKeeps(db: Db, cl: Cluster, at: int, t: Task, cl': Cluster, t': Task)
    requires ClusterInv(db, cl) && t.Bind? && TaskOk(db, cl, t) && BindStep(db, cl, at, t, cl', t')
    ensures ClusterInv(db, cl') && ClusterEvolves(cl, cl') && TaskOk(db, cl', t')
  {
    if t.bind.BindRead? {
      var seen := t.bind.seen;
      var body := seen.(stampJob := Some(t.gen.job), stampToken := Some(t.gen.token));
      if ReplacePod(cl, body).Some? { ReplaceKeeps(db, cl, seen, body); }
    }
  }

  lemma RewriteStepKeeps(db: Db, cl: Cluster, t: Task, pids: seq<nat>, cl': Cluster, t': Task)
    requires ClusterInv(db, cl) && TaskOk(db, cl, t)
    requires (t.Clear? && ClearStep(cl, t, cl', t')) || (t.Baseline? && BaselineStep(cl, t, pids, cl', t'))
    ensures ClusterInv(db, cl') && ClusterEvolves(cl, cl') && TaskOk(db, cl', t')
  {
    if cl' != cl {
      var seen := if t.Clear? then t.clearing.value else t.recording.value;
      ReplaceKeeps(db, cl, seen, if t.Clear? then seen.(stampJob := None, stampToken := None) else seen.(baseline := Some(pids)));
    }
  }

  lemma ReapStepKeeps(db: Db, cl: Cluster, at: int, t: Task, db': Db, cl': Cluster, t': Task)
    requires ClusterInv(db, cl) && t.Reap? && TaskOk(db, cl, t)
    requires ReapStep(db, cl, at, t, db', cl', t')
    ensures ClusterInv(db, cl') && ClusterEvolves(cl, cl') && TaskOk(db, cl', t')
  {
    assert t.sweep.Listed? ==> StampOk(db, cl.log[t.seen.version]);
  }

  lemma ReconcileStepKeeps(db: Db, cl: Cluster, at: int, t: Task, cl': Cluster, t': Task)
    requires ClusterInv(db, cl) && t.Reconcile? && TaskOk(db, cl, t)
    requires ReconcileStep(db, cl, at, t, cl', t')
    ensures ClusterInv(db, cl') && ClusterEvolves(cl, cl') && TaskOk(db, cl', t')
  {
    if t.review.Listed? && t.target.name in cl.pods { assert Logged(cl, cl.pods[t.target.name]); }
  }

  lemma RecycleStepKeeps(db: Db, cl: Cluster, at: int, t: Task, db': Db, cl': Cluster, t': Task)
    requires ClusterInv(db, cl) && t.Recycle? && TaskOk(db, cl, t)
    requires RecycleStep(db, cl, at, t, db', cl', t')
    ensures ClusterInv(db, cl') && ClusterEvolves(cl, cl') && TaskOk(db, cl', t')
  {
  }

  lemma GuardStepKeeps(db: Db, cl: Cluster, modes: map<nat, Mode>, at: int, t: Task, t': Task)
    requires ClusterInv(db, cl) && t.Guard? && TaskOk(db, cl, t) && GuardStep(db, cl, modes, at, t, t')
    ensures TaskOk(db, cl, t')
  {
  }

  /** A pod program touches the tables only to mark a stale annotated job failed. */
  lemma TaskStepTables(db: Db, cl: Cluster, modes: map<nat, Mode>, at: int, t: Task, fails: bool, pids: seq<nat>,
                       db': Db, cl': Cluster, t': Task)
    requires TaskStep(db, cl, modes, at, t, fails, pids, db', cl', t')
    ensures db' != db ==> (t.Reap? && t.sweep.Stale?) || (t.Recycle? && t.found.Some?)
    ensures db' != db ==> cl' == cl && db' == FailStale(db, if t.Reap? then t.seen else t.found.value, at)
  {
  }

  lemma FailStaleOnlyFails(db: Db, pod: Pod, at: int)
    ensures var db' := FailStale(db, pod, at);
      && db'.leases == db.leases && db'.issued == db.issued && db'.jobs.Keys == db.jobs.Keys
      && forall j :: j in db.jobs ==> db'.jobs[j] == db.jobs[j] || db'.jobs[j].status.Failed?
  {
  }

  /** A step of a pod program that changes pods rewrites one pod it has read, or deletes one. */
  predicate Rewrites(t: Task) { t.Bind? || t.Clear? || t.Baseline? }

  lemma OthersOnlyDelete(db: Db, cl: Cluster, modes: map<nat, Mode>, at: int, t: Task, fails: bool, pids: seq<nat>,
                         db': Db, cl': Cluster, t': Task)
    requires TaskStep(db, cl, modes, at, t, fails, pids, db', cl', t') && !Rewrites(t)
    ensures cl'.nextUid == cl.nextUid && forall n :: n in cl'.pods ==> n in cl.pods && cl'.pods[n] == cl.pods[n]
  {
  }

  lemma RetireDeletesItsOwn(db: Db, cl: Cluster, t: Task, cl': Cluster, t': Task, n: PodName)
    requires t.Retire? && TaskOk(db, cl, t) && RetireStep(cl, t, cl', t')
    requires n in cl.pods && n !in cl'.pods && Logged(cl, cl.pods[n])
    ensures n == t.binding.name && cl.pods[n].uid == t.binding.uid && cl.pods[n].Stamped(t.binding.gen.job, t.binding.gen.token)
    ensures Identified(cl.pods[n], t.binding.gen, t.binding.handle, t.binding.mode)
  {
  }

  predicate IsSweep(t: Task) { t.Reap? || t.Reconcile? }

  /** A sweep changes a pod only by deleting it, and only if it still is the version listed. */
  lemma SweepDeletesListed(db: Db, cl: Cluster, at: int, t: Task, db': Db, cl': Cluster, t': Task, n: PodName)
    requires IsSweep(t) && TaskOk(db, cl, t) && n in cl.pods && Logged(cl, cl.pods[n])
    requires if t.Reap? then ReapStep(db, cl, at, t, db', cl', t') else ReconcileStep(db, cl, at, t, cl', t')
    requires n !in cl'.pods || cl'.pods[n] != cl.pods[n]
    ensures if t.Reap? then t.sweep.Ready? && cl.pods[n] == t.seen else t.review.Ready? && cl.pods[n] == t.target
  {
  }

  lemma TaskStepKeepsPods(db: Db, cl: Cluster, modes: map<nat, Mode>, at: int, t: Task, fails: bool, pids: seq<nat>,
                          db': Db, cl': Cluster, t': Task)
    requires ClusterInv(db, cl) && TaskOk(db, cl, t)
    requires TaskStep(db, cl, modes, at, t, fails, pids, db', cl', t')
    ensures ClusterInv(db, cl') && ClusterEvolves(cl, cl') && TaskOk(db, cl', t')
  {
    if fails {
    } else {
      match t
      case Bind(_, _, _, _, _, _) => BindStepKeeps(db, cl, at, t, cl', t');
      case Guard(_, _) => GuardStepKeeps(db, cl, modes, at, t, t');
      case Clear(_, _) => RewriteStepKeeps(db, cl, t, pids, cl', t');
      case Baseline(_, _, _) => RewriteStepKeeps(db, cl, t, pids, cl', t');
      case Retire(_, _) =>
      case Reap(_, _, _, _) => ReapStepKeeps(db, cl, at, t, db', cl', t');
      case Reconcile(_, _, _) => ReconcileStepKeeps(db, cl, at, t, cl', t');
      case Recycle(_, _, _, _, _, _) => RecycleStepKeeps(db, cl, at, t, db', cl', t');
    }
  }

  lemma TaskStepKeeps(db: Db, cl: Cluster, modes: map<nat, Mode>, at: int, t: Task, fails: bool, pids: seq<nat>,
                      db': Db, cl': Cluster, t': Task)
    requires DbInv(db) && ClusterInv(db, cl) && TaskOk(db, cl, t)
    requires TaskStep(db, cl, modes, at, t, fails, pids, db', cl', t')
    ensures DbInv(db') && DbEvolves(db, db') && NotRevived(db, at, db') && db'.issued == db.issued
    ensures ClusterInv(db', cl') && ClusterEvolves(cl, cl') && TaskOk(db', cl', t')
  {
    TaskStepKeepsPods(db, cl, modes, at, t, fails, pids, db', cl', t');
    if db' != db {
      TaskStepTables(db, cl, modes, at, t, fails, pids, db', cl', t');
      FailStaleKeeps(db, if t.Reap? then t.seen else t.found.value, at);
      ClusterStable(db, db', cl);
      TaskStable(db, db', cl', cl', t');
    }
  }
}

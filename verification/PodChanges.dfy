/** Where every change of a pod comes from: for each kind of change exactly the moves that make it. */
module PodChanges {
  import opened Wrappers
  import opened Records
  import opened Programs
  import opened Snapshots
  import opened Protocol
  import opened Sweeps

  /** Bind puts its own stamp on a pod that is its caller's and carries no other. */
  predicate BindsIt(t: Task, pod: Pod, pod': Pod) {
    && t.Bind? && t.name == pod.name && Identified(pod, t.gen, t.handle, t.mode)
    && OwnStampOrNone(pod, t.gen) && pod'.Stamped(t.gen.job, t.gen.token) && pod'.baseline == pod.baseline
  }

  /** Clear takes exactly its own stamp off the pod it is bound to. */
  predicate ClearsIt(t: Task, pod: Pod, pod': Pod) {
    && t.Clear? && t.binding.name == pod.name && t.binding.uid == pod.uid
    && pod.Stamped(t.binding.gen.job, t.binding.gen.token) && pod'.Unstamped() && pod'.baseline == pod.baseline
  }

  /** A baseline is recorded once, on the pod it was taken from. */
  predicate RecordsIt(t: Task, pids: seq<nat>, pod: Pod, pod': Pod) {
    && t.Baseline? && t.name == pod.name && t.uid == pod.uid && pod.baseline.None? && pod'.baseline == Some(pids)
    && pod'.stampJob == pod.stampJob && pod'.stampToken == pod.stampToken
  }

  /** What a rewriting program does to a pod. Nothing but stamp, baseline and version ever changes. */
  lemma RewriterChanges(db: Db, cl: Cluster, at: int, t: Task, pids: seq<nat>, cl': Cluster, t': Task, n: PodName)
    requires ClusterInv(db, cl) && TaskOk(db, cl, t) && n in cl.pods
    requires || (t.Bind? && BindStep(db, cl, at, t, cl', t')) || (t.Clear? && ClearStep(cl, t, cl', t'))
             || (t.Baseline? && BaselineStep(cl, t, pids, cl', t'))
    ensures cl'.pods.Keys == cl.pods.Keys
    ensures cl'.pods[n] != cl.pods[n] ==>
              && cl'.pods[n].SamePod(cl.pods[n]) && cl'.pods[n].version == cl.nextVersion
              && (BindsIt(t, cl.pods[n], cl'.pods[n]) || ClearsIt(t, cl.pods[n], cl'.pods[n]) || RecordsIt(t, pids, cl.pods[n], cl'.pods[n]))
  {
    assert Logged(cl, cl.pods[n]) && cl.pods[n].name == n;
  }

  /** A pod that is new in a step was created in it, bare; a pod that changes was touched by the cluster
      or rewritten by bind, clear or baseline in just their way. */
  lemma PodsChangeOnlyThus(w: World, at: int, m: Move, w': World, n: PodName)
    requires Sound(w) && Next(w, at, m, w') && n in w'.cluster.pods
    ensures n !in w.cluster.pods ==>
              && m.Create? && m.name == n && w'.cluster.pods[n].Unstamped() && w'.cluster.pods[n].baseline.None?
              && w'.cluster.pods[n].owner == m.owner && w'.cluster.pods[n].handle == m.handle && w'.cluster.pods[n].mode == Some(m.mode)
              && w'.cluster.pods[n].createdAt == at && w'.cluster.pods[n].uid == w.cluster.nextUid
    ensures n in w.cluster.pods && w'.cluster.pods[n] != w.cluster.pods[n] ==>
              var pod, pod' := w.cluster.pods[n], w'.cluster.pods[n];
              || (m == Touch(n) && pod' == pod.(version := pod'.version))
              || (&& m.Go? && !m.fails && m.id in w.tasks && pod'.SamePod(pod)
                  && (BindsIt(w.tasks[m.id], pod, pod') || ClearsIt(w.tasks[m.id], pod, pod') || RecordsIt(w.tasks[m.id], m.pids, pod, pod')))
  {
    if m.Go? && w'.cluster != w.cluster {
      var t, t' := w.tasks[m.id], w'.tasks[m.id];
      assert TaskOk(w.db, w.cluster, t);
      if Rewrites(t) {
        if n in w.cluster.pods {
          RewriterChanges(w.db, w.cluster, at, t, m.pids, w'.cluster, t', n);
        } else {
          RewritersKeepNames(w.db, w.cluster, at, t, m.pids, w'.cluster, t');
        }
      } else {
        OthersOnlyDelete(w.db, w.cluster, w.modes, at, t, m.fails, m.pids, w'.db, w'.cluster, t');
      }
    } else if m.Touch? {
      assert w.cluster.pods[m.name].name == m.name;
    }
  }

  lemma RewritersKeepNames(db: Db, cl: Cluster, at: int, t: Task, pids: seq<nat>, cl': Cluster, t': Task)
    requires || (t.Bind? && BindStep(db, cl, at, t, cl', t')) || (t.Clear? && ClearStep(cl, t, cl', t'))
             || (t.Baseline? && BaselineStep(cl, t, pids, cl', t'))
    ensures cl'.pods.Keys == cl.pods.Keys
  {
  }

  /** A baseline, once recorded, stays as long as the pod does. */
  lemma BaselineIsRecordedOnce(w: World, at: int, m: Move, w': World, n: PodName)
    requires Sound(w) && Next(w, at, m, w') && n in w.cluster.pods && n in w'.cluster.pods && w.cluster.pods[n].baseline.Some?
    ensures w'.cluster.pods[n].baseline == w.cluster.pods[n].baseline
  {
    PodsChangeOnlyThus(w, at, m, w', n);
  }

  /** A retirement, a sweep or a recycle has gone through to its delete. */
  predicate Deletes(t: Task, pod: Pod) {
    match t
    case Retire(b, read) =>
      && read.Some? && b.name == pod.name && b.uid == pod.uid && pod.Stamped(b.gen.job, b.gen.token)
      && Identified(pod, b.gen, b.handle, b.mode)
    case Reap(_, _, seen, pc) => pc.Ready? && pod == seen
    case Reconcile(canonical, target, pc) => pc.Ready? && pod == target && pod.mode != Some(canonical)
    case Recycle(gen, name, handle, admitted, found, marked) =>
      admitted && marked && found.Some? && pod.SamePod(found.value) && pod.owner == Some(gen.key) && pod.name == name && pod.handle == handle
    case _ => false
  }

  lemma ProgramDeletes(db: Db, cl: Cluster, modes: map<nat, Mode>, at: int, t: Task, fails: bool, pids: seq<nat>,
                       db': Db, cl': Cluster, t': Task, n: PodName)
    requires ClusterInv(db, cl) && TaskOk(db, cl, t) && TaskStep(db, cl, modes, at, t, fails, pids, db', cl', t')
    requires n in cl.pods && n !in cl'.pods
    ensures !fails && Deletes(t, cl.pods[n])
  {
    assert Logged(cl, cl.pods[n]) && cl.pods[n].name == n;
    if Rewrites(t) {
      RewritersKeepNames(db, cl, at, t, pids, cl', t');
    } else if t.Recycle? {
      RecycleDeletesFound(db, cl, at, t, db', cl', t', n);
      assert cl.log[cl.pods[n].version].SamePod(cl.log[t.found.value.version]);
    } else if t.Retire? {
      RetireDeletesItsOwn(db, cl, t, cl', t', n);
    } else if IsSweep(t) {
      SweepDeletesListed(db, cl, at, t, db', cl', t', n);
    }
  }

  /** A pod that is gone after a step was evicted, or deleted by one of the four programs in just the
      circumstances that program is meant for. */
  lemma PodsGoOnlyThus(w: World, at: int, m: Move, w': World, n: PodName)
    requires Sound(w) && Next(w, at, m, w') && n in w.cluster.pods && n !in w'.cluster.pods
    ensures m == Evict(n) || (m.Go? && !m.fails && m.id in w.tasks && Deletes(w.tasks[m.id], w.cluster.pods[n]))
  {
    if m.Go? {
      assert TaskOk(w.db, w.cluster, w.tasks[m.id]);
      ProgramDeletes(w.db, w.cluster, w.modes, at, w.tasks[m.id], m.fails, m.pids, w'.db, w'.cluster, w'.tasks[m.id], n);
    }
  }
}

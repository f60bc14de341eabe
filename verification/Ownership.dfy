/** A stamped pod belongs to one generation until that generation clears it or the pod is gone. */
module Ownership {
  import opened Wrappers
  import opened Records
  import opened Programs
  import opened Snapshots
  import opened Protocol

  /** The move is the write of a clear that carries this very generation and pod uid. */
  predicate Clears(w: World, m: Move, uid: nat, j: JobId, t: Token) {
    && m.Go? && m.id in w.tasks && w.tasks[m.id].Clear? && w.tasks[m.id].clearing.Some?
    && w.tasks[m.id].binding.uid == uid
    && w.tasks[m.id].binding.gen.job == j && w.tasks[m.id].binding.gen.token == t
  }

  lemma RewriteKeepsOthers(cl: Cluster, body: Pod, n: PodName)
    requires ReplacePod(cl, body).Some?
    ensures var cl' := ReplacePod(cl, body).value;
      && cl'.nextUid == cl.nextUid && cl'.pods.Keys == cl.pods.Keys
      && (n in cl.pods && n != body.name ==> cl'.pods[n] == cl.pods[n])
      && cl'.pods[body.name] == body.(version := cl.nextVersion)
  {
  }

  /** A program rewrites a pod it has read only if the pod is still exactly what was read. */
  lemma RewriterKeepsForeignStamp(db: Db, cl: Cluster, at: int, t: Task, pids: seq<nat>, cl': Cluster, t': Task, n: PodName)
    requires ClusterInv(db, cl) && TaskOk(db, cl, t) && n in cl.pods
    requires || (t.Bind? && BindStep(db, cl, at, t, cl', t')) || (t.Clear? && ClearStep(cl, t, cl', t'))
             || (t.Baseline? && BaselineStep(cl, t, pids, cl', t'))
    ensures n in cl'.pods && cl'.pods[n].uid == cl.pods[n].uid && cl'.nextUid == cl.nextUid && cl'.pods.Keys == cl.pods.Keys
    ensures WholeStamp(cl.pods[n]) ==>
              var pod := cl.pods[n];
              || cl'.pods[n].Stamped(pod.stampJob.value, pod.stampToken.value)
              || (&& t.Clear? && t.clearing.Some? && t.binding.uid == pod.uid
                  && t.binding.gen.job == pod.stampJob.value && t.binding.gen.token == pod.stampToken.value)
  {
    assert Logged(cl, cl.pods[n]) && cl.pods[n].name == n;
    if cl' != cl {
      var seen := if t.Bind? then t.bind.seen else if t.Clear? then t.clearing.value else t.recording.value;
      var body := if t.Bind? then seen.(stampJob := Some(t.gen.job), stampToken := Some(t.gen.token))
                  else if t.Clear? then seen.(stampJob := None, stampToken := None) else seen.(baseline := Some(pids));
      RewriteKeepsOthers(cl, body, n);
      if n == seen.name { assert cl.pods[n] == seen; }
    }
  }

  lemma RewritersCreateNothing(db: Db, cl: Cluster, at: int, t: Task, pids: seq<nat>, cl': Cluster, t': Task)
    requires || (t.Bind? && BindStep(db, cl, at, t, cl', t')) || (t.Clear? && ClearStep(cl, t, cl', t'))
             || (t.Baseline? && BaselineStep(cl, t, pids, cl', t'))
    ensures cl'.pods.Keys == cl.pods.Keys && cl'.nextUid == cl.nextUid
  {
  }

  lemma ProgramKeepsForeignStamp(w: World, at: int, m: Move, w': World, n: PodName)
    requires Sound(w) && Next(w, at, m, w') && m.Go? && n in w.cluster.pods && n in w'.cluster.pods
    requires WholeStamp(w.cluster.pods[n])
    ensures var pod := w.cluster.pods[n];
      w'.cluster.pods[n].Stamped(pod.stampJob.value, pod.stampToken.value)
      || Clears(w, m, pod.uid, pod.stampJob.value, pod.stampToken.value)
  {
    var t, t' := w.tasks[m.id], w'.tasks[m.id];
    assert TaskOk(w.db, w.cluster, t);
    if w'.cluster != w.cluster {
      if Rewrites(t) {
        RewriterKeepsForeignStamp(w.db, w.cluster, at, t, m.pids, w'.cluster, t', n);
      } else {
        OthersOnlyDelete(w.db, w.cluster, w.modes, at, t, m.fails, m.pids, w'.db, w'.cluster, t');
      }
    }
  }

  lemma StampChangesOnlyByItsOwner(w: World, at: int, m: Move, w': World, n: PodName)
    requires Sound(w) && Next(w, at, m, w') && n in w.cluster.pods && n in w'.cluster.pods
    requires WholeStamp(w.cluster.pods[n])
    ensures var pod := w.cluster.pods[n];
      w'.cluster.pods[n].Stamped(pod.stampJob.value, pod.stampToken.value)
      || Clears(w, m, pod.uid, pod.stampJob.value, pod.stampToken.value)
  {
    if m.Go? {
      ProgramKeepsForeignStamp(w, at, m, w', n);
    } else {
      assert m.Touch? ==> w.cluster.pods[m.name].name == m.name;
    }
  }

  /** Retirement removes a pod only while it carries exactly the uid and the stamp of its own
      generation; the owner reconcile only one whose mode is not the canonical mode. */
  lemma DeletersHitWhatTheyMean(w: World, at: int, m: Move, w': World, n: PodName)
    requires Sound(w) && Next(w, at, m, w') && m.Go? && n in w.cluster.pods && n !in w'.cluster.pods
    ensures var t, pod := w.tasks[m.id], w.cluster.pods[n];
      && (t.Retire? ==> && pod.uid == t.binding.uid && pod.Stamped(t.binding.gen.job, t.binding.gen.token)
                        && Identified(pod, t.binding.gen, t.binding.handle, t.binding.mode))
      && (t.Reconcile? ==> pod.mode != Some(t.canonical))
  {
    var t, t' := w.tasks[m.id], w'.tasks[m.id];
    assert TaskOk(w.db, w.cluster, t) && Logged(w.cluster, w.cluster.pods[n]);
    if t.Retire? {
      RetireDeletesItsOwn(w.db, w.cluster, t, w'.cluster, t', n);
    } else if t.Reconcile? {
      SweepDeletesListed(w.db, w.cluster, at, t, w'.db, w'.cluster, t', n);
    }
  }

  /** A uid that is present was present before, under the same name, unless it is new. */
  lemma UidsAreNotReused(w: World, at: int, m: Move, w': World, n: PodName)
    requires Sound(w) && Next(w, at, m, w') && n in w'.cluster.pods
    ensures w.cluster.nextUid <= w'.cluster.nextUid
    ensures w'.cluster.pods[n].uid < w.cluster.nextUid ==> n in w.cluster.pods && w.cluster.pods[n].uid == w'.cluster.pods[n].uid
  {
    if m.Go? && w'.cluster != w.cluster {
      var t, t' := w.tasks[m.id], w'.tasks[m.id];
      assert TaskOk(w.db, w.cluster, t);
      if Rewrites(t) {
        if n in w.cluster.pods {
          RewriterKeepsForeignStamp(w.db, w.cluster, at, t, m.pids, w'.cluster, t', n);
        } else {
          RewritersCreateNothing(w.db, w.cluster, at, t, m.pids, w'.cluster, t');
        }
      } else {
        OthersOnlyDelete(w.db, w.cluster, w.modes, at, t, m.fails, m.pids, w'.db, w'.cluster, t');
      }
    }
    if m.Touch? { assert w.cluster.pods[m.name].name == m.name; }
  }

  lemma {:induction false} UidsGrow(run: Run, i: nat, k: nat)
    requires run.Valid() && i <= k < |run.states|
    ensures run.states[i].cluster.nextUid <= run.states[k].cluster.nextUid
    decreases k
  {
    if i < k {
      UidsGrow(run, i, k - 1);
      NextUidGrows(run, k - 1);
    }
  }

  lemma NextUidGrows(run: Run, i: nat)
    requires run.Valid() && i < |run.moves|
    ensures run.states[i].cluster.nextUid <= run.states[i + 1].cluster.nextUid
  {
    assert run.Step(i);
  }

  lemma OwnershipStep(run: Run, k: nat, n: PodName)
    requires run.Valid() && k < |run.moves| && n in run.states[k + 1].cluster.pods
    requires run.states[k + 1].cluster.pods[n].uid < run.states[k].cluster.nextUid
    ensures n in run.states[k].cluster.pods
    ensures var pod, pod' := run.states[k].cluster.pods[n], run.states[k + 1].cluster.pods[n];
      && pod.uid == pod'.uid
      && (WholeStamp(pod) ==> || pod'.Stamped(pod.stampJob.value, pod.stampToken.value)
                              || Clears(run.states[k], run.moves[k].1, pod.uid, pod.stampJob.value, pod.stampToken.value))
  {
    RunSound(run, k);
    assert run.Step(k);
    UidsAreNotReused(run.states[k], run.moves[k].0, run.moves[k].1, run.states[k + 1], n);
    if WholeStamp(run.states[k].cluster.pods[n]) {
      StampChangesOnlyByItsOwner(run.states[k], run.moves[k].0, run.moves[k].1, run.states[k + 1], n);
    }
  }

  /** Exclusive ownership over whole runs. If pod `n` with this uid carries stamp (j, t) in state `i`
      and the same pod does not carry it in state `k`, then in between a clear of exactly (j, t) on
      exactly this uid was written. No other bind, retry or baseline rewrite can replace the stamp. */
  lemma {:induction false} OwnershipIsExclusive(run: Run, i: nat, k: nat, n: PodName, j: JobId, t: Token) returns (m: nat)
    requires run.Valid() && i <= k < |run.states| && n in run.states[i].cluster.pods && n in run.states[k].cluster.pods
    requires run.states[k].cluster.pods[n].uid == run.states[i].cluster.pods[n].uid
    requires run.states[i].cluster.pods[n].Stamped(j, t) && !run.states[k].cluster.pods[n].Stamped(j, t)
    ensures i <= m < k && Clears(run.states[m], run.moves[m].1, run.states[i].cluster.pods[n].uid, j, t)
    decreases k
  {
    assert run.states[i].cluster.pods[n].uid < run.states[i].cluster.nextUid && StampedIsWhole(run, i, n) by {
      PodsAreSound(run, i, n);
    }
    UidsGrow(run, i, k - 1);
    OwnershipStep(run, k - 1, n);
    if run.states[k - 1].cluster.pods[n].Stamped(j, t) {
      PodsAreSound(run, k - 1, n);
      m := k - 1;
    } else {
      m := OwnershipIsExclusive(run, i, k - 1, n, j, t);
    }
  }

  predicate StampedIsWhole(run: Run, i: nat, n: PodName)
    requires i < |run.states| && n in run.states[i].cluster.pods
  {
    run.states[i].cluster.pods[n].Unstamped() || WholeStamp(run.states[i].cluster.pods[n])
  }

  /** In no reachable state is a pod half stamped, or stamped for another workspace than its owner. */
  lemma PodsAreSound(run: Run, i: nat, n: PodName)
    requires run.Valid() && i < |run.states| && n in run.states[i].cluster.pods
    ensures run.states[i].cluster.pods[n].uid < run.states[i].cluster.nextUid
    ensures StampedIsWhole(run, i, n) && StampOk(run.states[i].db, run.states[i].cluster.pods[n])
  {
    RunSound(run, i);
    var pod := run.states[i].cluster.pods[n];
    assert Logged(run.states[i].cluster, pod);
  }
}

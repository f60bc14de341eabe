/** What a passed guard or a completed bind proves about the time between its two lease checks. */
module Windows {
  import opened Wrappers
  import opened Records
  import opened Programs
  import opened Invariants
  import opened Snapshots
  import opened Protocol
  import opened Fencing

  lemma OtherMovesKeepTask(w: World, at: int, m: Move, w': World, id: nat)
    requires Next(w, at, m, w') && id in w'.tasks
    requires !(m.Go? && m.id == id) && !(m.Start? && m.id == id)
    ensures id in w.tasks && w.tasks[id] == w'.tasks[id]
  {
  }

  /** The move that brought program `id` to where it is in state `k`. */
  lemma {:induction false} LastMove(run: Run, k: nat, id: nat) returns (r: nat)
    requires run.Valid() && k < |run.states| && id in run.states[k].tasks
    ensures r < k && id in run.states[r + 1].tasks && run.states[r + 1].tasks[id] == run.states[k].tasks[id]
    ensures (run.moves[r].1.Go? || run.moves[r].1.Start?) && run.moves[r].1.id == id
    decreases k
  {
    assert k != 0;
    assert run.Step(k - 1);
    var m := run.moves[k - 1].1;
    if (m.Go? || m.Start?) && m.id == id {
      r := k - 1;
    } else {
      OtherMovesKeepTask(run.states[k - 1], run.moves[k - 1].0, m, run.states[k], id);
      r := LastMove(run, k - 1, id);
    }
  }

  /** The program step by which `id` left its starting point for where it is in state `k`. */
  lemma LastStep(run: Run, k: nat, id: nat) returns (r: nat)
    requires run.Valid() && k < |run.states| && id in run.states[k].tasks && !run.states[k].tasks[id].Ended?
    requires forall c, at :: !Initial(c, at, run.states[k].tasks[id])
    ensures r < k && run.moves[r].1.Go? && run.moves[r].1.id == id && id in run.states[r].tasks
    ensures TakesStep(run, r, id, run.states[k].tasks[id])
  {
    r := LastMove(run, k, id);
    assert run.Step(r);
  }

  /** Step `r` of the run takes program `id` to `t'`. */
  predicate TakesStep(run: Run, r: nat, id: nat, t': Task)
    requires r < |run.moves| && |run.states| == |run.moves| + 1
  {
    var w := run.states[r];
    && id in w.tasks && run.moves[r].1.Go? && run.moves[r].1.id == id
    && TaskStep(w.db, w.cluster, w.modes, run.moves[r].0, w.tasks[id], run.moves[r].1.fails, run.moves[r].1.pids,
                run.states[r + 1].db, run.states[r + 1].cluster, t')
  }

  /** The lease of `gen` held throughout steps `i..k`: in each state and at each statement. */
  ghost predicate HeldThroughout(run: Run, i: nat, k: nat, gen: Generation)
    requires |run.states| == |run.moves| + 1
  {
    forall m :: i <= m <= k < |run.moves| ==> HeldAt(run, m, gen)
  }

  predicate HeldAt(run: Run, m: nat, gen: Generation)
    requires m < |run.moves| && |run.states| == |run.moves| + 1
  {
    && Live(run.states[m].db, gen.token, run.states[m].clock)
    && Live(run.states[m].db, gen.token, run.moves[m].0)
    && run.states[m].db.issued[gen.token] == Held(gen.key, gen.job, gen.holder)
  }

  lemma SandwichHolds(run: Run, i: nat, k: nat, gen: Generation)
    requires run.Valid() && run.Timely() && i <= k < |run.moves|
    requires Holds(run.states[i].db, gen, run.moves[i].0) && Holds(run.states[k].db, gen, run.moves[k].0)
    ensures HeldThroughout(run, i, k, gen)
  {
    RunSound(run, i);
    RunSound(run, k);
    HoldersAreLive(run.states[i].db, gen.key, gen.job, gen.token, gen.holder, run.moves[i].0);
    HoldersAreLive(run.states[k].db, gen.key, gen.job, gen.token, gen.holder, run.moves[k].0);
    forall m | i <= m <= k ensures HeldAt(run, m, gen) {
      CheckSandwich(run, i, m, k, gen.token);
    }
  }

  // ---------------------------------------------------------------- the guard, backwards

  lemma OnlyGuardsGuard(db: Db, cl: Cluster, modes: map<nat, Mode>, at: int, t: Task, fails: bool, pids: seq<nat>,
                        db': Db, cl': Cluster, t': Task)
    requires TaskStep(db, cl, modes, at, t, fails, pids, db', cl', t') && t'.Guard?
    ensures t.Guard? && t.binding == t'.binding && GuardStep(db, cl, modes, at, t, t')
  {
  }

  lemma GuardStepBefore(run: Run, k: nat, id: nat, b: Binding, pc: GuardPc) returns (r: nat)
    requires run.Valid() && k < |run.states| && id in run.states[k].tasks
    requires run.states[k].tasks[id] == Guard(b, pc) && pc != GuardStart
    ensures r < k && r < |run.moves| && id in run.states[r].tasks && run.states[r].tasks[id].Guard?
    ensures run.states[r].tasks[id].binding == b
    ensures GuardStep(run.states[r].db, run.states[r].cluster, run.states[r].modes, run.moves[r].0, run.states[r].tasks[id], Guard(b, pc))
  {
    r := LastStep(run, k, id);
    var w := run.states[r];
    OnlyGuardsGuard(w.db, w.cluster, w.modes, run.moves[r].0, w.tasks[id], run.moves[r].1.fails, run.moves[r].1.pids,
                    run.states[r + 1].db, run.states[r + 1].cluster, Guard(b, pc));
  }

  /** The guard before an exec. When it passes at step `k`, its job's lease held from its first
      check at `i` to `k`; at an instant `r` between the pod carried the expected uid, identity and
      stamp; and after that, at `c`, the assistant's canonical egress mode was the one it is bound to. */
  lemma GuardWindow(run: Run, k: nat, id: nat, b: Binding, seen: Pod) returns (i: nat, r: nat, c: nat)
    requires run.Valid() && run.Timely() && k < |run.moves| && id in run.states[k + 1].tasks
    requires id in run.states[k].tasks && run.states[k].tasks[id] == Guard(b, GuardMode(seen))
    requires run.moves[k].1.Go? && run.moves[k].1.id == id && run.states[k + 1].tasks[id] == Guard(b, GuardPassed(seen))
    ensures i < r < c < k && HeldThroughout(run, i, k, b.gen)
    ensures b.gen.key.assistant in run.states[c].modes && run.states[c].modes[b.gen.key.assistant] == b.mode
    ensures b.name in run.states[r].cluster.pods && run.states[r].cluster.pods[b.name] == seen
    ensures seen.uid == b.uid && seen.owner == Some(b.gen.key) && seen.handle == b.handle && seen.mode == Some(b.mode)
    ensures seen.stampJob == Some(b.gen.job) && seen.stampToken == Some(b.gen.token)
  {
    assert Holds(run.states[k].db, b.gen, run.moves[k].0) by {
      assert run.Step(k);
      var w, w' := run.states[k], run.states[k + 1];
      OnlyGuardsGuard(w.db, w.cluster, w.modes, run.moves[k].0, w.tasks[id], run.moves[k].1.fails, run.moves[k].1.pids,
                      w'.db, w'.cluster, w'.tasks[id]);
    }
    c := GuardStepBefore(run, k, id, b, GuardMode(seen));
    r := GuardStepBefore(run, c, id, b, GuardRead(seen));
    i := GuardStepBefore(run, r, id, b, GuardChecked);
    SandwichHolds(run, i, k, b.gen);
  }

  // ---------------------------------------------------------------- the bind, backwards

  lemma OnlyBindsBind(db: Db, cl: Cluster, modes: map<nat, Mode>, at: int, t: Task, fails: bool, pids: seq<nat>,
                      db': Db, cl': Cluster, t': Task)
    requires TaskStep(db, cl, modes, at, t, fails, pids, db', cl', t') && t'.Bind?
    ensures t.Bind? && BindStep(db, cl, at, t, cl', t')
    ensures t.gen == t'.gen && t.name == t'.name && t.handle == t'.handle && t.mode == t'.mode
  {
  }

  lemma BindStepBefore(run: Run, k: nat, id: nat, t: Task) returns (r: nat)
    requires run.Valid() && k < |run.states| && id in run.states[k].tasks
    requires t.Bind? && run.states[k].tasks[id] == t && t.bind != BindStart
    ensures r < k && r < |run.moves| && id in run.states[r].tasks && run.states[r].tasks[id].Bind?
    ensures var u := run.states[r].tasks[id];
      && u.gen == t.gen && u.name == t.name && u.handle == t.handle && u.mode == t.mode
      && BindStep(run.states[r].db, run.states[r].cluster, run.moves[r].0, u, run.states[r + 1].cluster, t)
  {
    r := LastStep(run, k, id);
    var w := run.states[r];
    OnlyBindsBind(w.db, w.cluster, w.modes, run.moves[r].0, w.tasks[id], run.moves[r].1.fails, run.moves[r].1.pids,
                  run.states[r + 1].db, run.states[r + 1].cluster, t);
  }

  lemma StampIsThere(run: Run, s: nat, u: Task, t: Task)
    requires run.Valid() && s < |run.moves| && u.Bind? && t.Bind? && t.bind.BindStamped?
    requires u.gen == t.gen && u.name == t.name && TaskOk(run.states[s].db, run.states[s].cluster, u)
    requires BindStep(run.states[s].db, run.states[s].cluster, run.moves[s].0, u, run.states[s + 1].cluster, t)
    ensures t.name in run.states[s + 1].cluster.pods && run.states[s + 1].cluster.pods[t.name].uid == t.bind.seen.uid
    ensures run.states[s + 1].cluster.pods[t.name].Stamped(t.gen.job, t.gen.token)
  {
  }

  /** The step behind which the pod carried the stamp: a replace, or a read that found it there. */
  lemma StampStep(run: Run, r: nat, id: nat, t: Task) returns (s: nat)
    requires run.Valid() && r < |run.states| && id in run.states[r].tasks
    requires t.Bind? && run.states[r].tasks[id] == t && t.bind.BindStamped?
    ensures s < r && s < |run.moves| && id in run.states[s].tasks
    ensures var u := run.states[s].tasks[id];
      u.Bind? && u.gen == t.gen && u.name == t.name && u.handle == t.handle && u.mode == t.mode && (u.bind.BindChecked? || u.bind.BindRead?)
    ensures t.name in run.states[s + 1].cluster.pods && run.states[s + 1].cluster.pods[t.name].uid == t.bind.seen.uid
    ensures run.states[s + 1].cluster.pods[t.name].Stamped(t.gen.job, t.gen.token)
  {
    s := BindStepBefore(run, r, id, t);
    RunSound(run, s);
    assert TaskOk(run.states[s].db, run.states[s].cluster, run.states[s].tasks[id]);
    StampIsThere(run, s, run.states[s].tasks[id], t);
  }

  /** The lease check with which the present attempt of a bind began. */
  lemma FirstCheck(run: Run, s: nat, id: nat, u: Task) returns (i: nat)
    requires run.Valid() && s < |run.states| && id in run.states[s].tasks
    requires u.Bind? && run.states[s].tasks[id] == u && (u.bind.BindChecked? || u.bind.BindRead?)
    ensures i < s && i < |run.moves| && Holds(run.states[i].db, u.gen, run.moves[i].0)
  {
    var checked := s;
    if u.bind.BindRead? { checked := BindStepBefore(run, s, id, u); }
    i := BindStepBefore(run, checked, id, run.states[checked].tasks[id]);
  }

  lemma LastCheck(run: Run, k: nat, id: nat, t: Task, again: Pod)
    requires run.Valid() && k < |run.moves| && id in run.states[k + 1].tasks
    requires t.Bind? && t.bind == BindReread(again) && id in run.states[k].tasks && run.states[k].tasks[id] == t
    requires run.moves[k].1.Go? && run.moves[k].1.id == id && run.states[k + 1].tasks[id] == t.(bind := Bound(again))
    ensures Holds(run.states[k].db, t.gen, run.moves[k].0)
  {
    assert run.Step(k);
    var w, w' := run.states[k], run.states[k + 1];
    OnlyBindsBind(w.db, w.cluster, w.modes, run.moves[k].0, w.tasks[id], run.moves[k].1.fails, run.moves[k].1.pids,
                  w'.db, w'.cluster, w'.tasks[id]);
  }

  /** The pod a completed bind reports carried the stamp behind step `s`, by this bind or before it, and
      was read again, still stamped, at `r`, while the lease held throughout. */
  lemma BindWindow(run: Run, k: nat, id: nat, t: Task, again: Pod) returns (i: nat, s: nat, r: nat)
    requires run.Valid() && run.Timely() && k < |run.moves| && id in run.states[k + 1].tasks
    requires t.Bind? && t.bind == BindReread(again) && id in run.states[k].tasks && run.states[k].tasks[id] == t
    requires run.moves[k].1.Go? && run.moves[k].1.id == id && run.states[k + 1].tasks[id] == t.(bind := Bound(again))
    ensures i < s < r < k && HeldThroughout(run, i, k, t.gen)
    ensures t.name in run.states[s + 1].cluster.pods && run.states[s + 1].cluster.pods[t.name].uid == again.uid
    ensures run.states[s + 1].cluster.pods[t.name].Stamped(t.gen.job, t.gen.token)
    ensures t.name in run.states[r].cluster.pods && run.states[r].cluster.pods[t.name] == again
    ensures again.owner == Some(t.gen.key) && again.handle == t.handle && again.mode == Some(t.mode)
    ensures again.stampJob == Some(t.gen.job) && again.stampToken == Some(t.gen.token)
  {
    LastCheck(run, k, id, t, again);
    r := BindStepBefore(run, k, id, t);
    s := StampStep(run, r, id, run.states[r].tasks[id]);
    i := FirstCheck(run, s, id, run.states[s].tasks[id]);
    SandwichHolds(run, i, k, t.gen);
  }

  /** Windows of one workspace that overlap belong to one generation. */
  lemma WindowsDoNotOverlap(run: Run, i: nat, k: nat, gen: Generation, i': nat, k': nat, gen': Generation)
    requires run.Valid() && i <= k < |run.moves| && i' <= k' < |run.moves|
    requires HeldThroughout(run, i, k, gen) && HeldThroughout(run, i', k', gen')
    requires gen.key == gen'.key && i' <= k && i <= k'
    ensures gen == gen'
  {
    var m := if i <= i' then i' else i;
    assert HeldAt(run, m, gen) && HeldAt(run, m, gen');
    OneLiveToken(run.states[m].db, gen.token, gen'.token, run.moves[m].0, run.moves[m].0);
  }
}

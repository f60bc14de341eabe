/** A lease token that was displaced, released or has expired authorises nothing any more, and
    two passed checks of one token fence off everything in between. */
module Fencing {
  import opened Records
  import opened Programs
  import opened Invariants
  import opened Protocol

  /** Move `m` succeeds in something only the holder of token `t` may do: a renewal, a lease
      assertion of a pod program, or a job update under the lease. */
  predicate Authorised(w: World, m: Move, w': World, t: Token) {
    match m
    case Execute(j, c) =>
      && j in w.exec && w'.db != w.db
      && (c.StartRunning? || c.Detach? || c.Complete? || c.WriteFailure?)
      && LeaseOf(w.exec[j]).Some? && LeaseOf(w.exec[j]).value.0 == t
    case Renew(gen, _) => gen.token == t
    case Go(id, _, _) =>
      && id in w.tasks && id in w'.tasks
      && PassesCheck(w.tasks[id], w'.tasks[id]) && GenOf(w.tasks[id]).token == t
    case _ => false
  }

  predicate PassesCheck(t: Task, t': Task) {
    || (t.Bind? && t'.Bind? && ((t.bind.BindStart? && t'.bind.BindChecked?) || (t.bind.BindReread? && t'.bind.Bound?)))
    || (t.Guard? && t'.Guard? && ((t.guard.GuardStart? && t'.guard.GuardChecked?) || (t.guard.GuardMode? && t'.guard.GuardPassed?)))
    || (t.Recycle? && t'.Recycle? && !t.admitted && t'.admitted)
  }

  function GenOf(t: Task): Generation
    requires t.Bind? || t.Guard? || t.Recycle?
  {
    if t.Guard? then t.binding.gen else t.gen
  }

  lemma HoldersAreLive(db: Db, key: Key, j: JobId, t: Token, h: Holder, at: int)
    requires DbInv(db) && HoldsLease(db, key, j, t, h, at)
    ensures Live(db, t, at) && db.issued[t] == Held(key, j, h)
  {
    assert RowOk(db, key);
  }

  lemma ExecutorsAreLive(w: World, at: int, j: JobId, c: Choice, w': World, t: Token)
    requires Sound(w) && Next(w, at, Execute(j, c), w') && Authorised(w, Execute(j, c), w', t)
    ensures Live(w.db, t, at) && w.db.issued[t].job == j
  {
    assert ExecOk(w.db, j, w.exec[j]);
    var (u, h) := LeaseOf(w.exec[j]).value;
    assert HoldsLease(w.db, w.db.jobs[j].key, j, u, h, at);
    HoldersAreLive(w.db, w.db.jobs[j].key, j, u, h, at);
  }

  lemma CheckersAreLive(w: World, at: int, m: Move, w': World, t: Token)
    requires Sound(w) && Next(w, at, m, w') && m.Go? && Authorised(w, m, w', t)
    ensures Live(w.db, t, at) && Issued(w.db, GenOf(w.tasks[m.id]))
  {
    var gen := GenOf(w.tasks[m.id]);
    assert Holds(w.db, gen, at);
    HoldersAreLive(w.db, gen.key, gen.job, gen.token, gen.holder, at);
  }

  lemma AuthorisedIsLive(w: World, at: int, m: Move, w': World, t: Token)
    requires Sound(w) && Next(w, at, m, w') && Authorised(w, m, w', t)
    ensures Live(w.db, t, at)
  {
    match m
    case Execute(j, c) => ExecutorsAreLive(w, at, j, c, w', t);
    case Renew(_, _) =>
      assert IssueOk(w.db, t);
    case Go(_, _, _) => CheckersAreLive(w, at, m, w', t);
  }

  // ---------------------------------------------------------------- a spent token stays spent

  lemma {:induction false} DisplacedForGood(run: Run, i: nat, k: nat, t: Token)
    requires run.Valid() && i <= k < |run.states| && Displaced(run.states[i].db, t)
    ensures Displaced(run.states[k].db, t)
  {
    RunEvolves(run, i, k);
  }

  lemma SpentStep(run: Run, i: nat, t: Token)
    requires run.Valid() && run.Timely() && i < |run.moves|
    requires Spent(run.states[i].db, run.moves[i].0, t)
    ensures Spent(run.states[i + 1].db, run.states[i + 1].clock, t)
  {
    RunStep(run, i);
    SpentTokensStaySpent(run.states[i].db, run.states[i + 1].db, run.moves[i].0, t);
  }

  lemma {:induction false} SpentForGood(run: Run, i: nat, k: nat, t: Token)
    requires run.Valid() && run.Timely() && i <= k < |run.states|
    requires Spent(run.states[i].db, run.states[i].clock, t)
    ensures Spent(run.states[k].db, run.states[k].clock, t)
    decreases k
  {
    if i < k {
      SpentForGood(run, i, k - 1, t);
      SpentStep(run, k - 1, t);
    }
  }

  /** Fencing. A displaced or released token never authorises a move again, whatever the clocks
      of the replicas say; an expired one never does as long as the clocks agree. */
  lemma SpentTokenIsFenced(run: Run, i: nat, k: nat, t: Token)
    requires run.Valid() && i <= k < |run.moves|
    requires || Displaced(run.states[i].db, t)
             || (run.Timely() && Spent(run.states[i].db, run.states[i].clock, t))
    ensures !Authorised(run.states[k], run.moves[k].1, run.states[k + 1], t)
  {
    if Authorised(run.states[k], run.moves[k].1, run.states[k + 1], t) {
      RunStep(run, k);
      AuthorisedIsLive(run.states[k], run.moves[k].0, run.moves[k].1, run.states[k + 1], t);
      if Displaced(run.states[i].db, t) {
        DisplacedForGood(run, i, k, t);
      } else {
        SpentForGood(run, i, k, t);
      }
    }
  }

  // ---------------------------------------------------------------- between two checks

  /** The row of `t` carries `t` at both ends, hence in between; no clock is involved. */
  lemma RowKeptBetween(run: Run, i: nat, m: nat, k: nat, t: Token)
    requires run.Valid() && i <= m <= k < |run.states|
    requires t in run.states[i].db.issued && run.states[i].db.issued[t].Held?
    requires !Displaced(run.states[k].db, t)
    ensures t in run.states[m].db.issued && run.states[m].db.issued[t] == run.states[i].db.issued[t]
    ensures var key := run.states[i].db.issued[t].key;
      key in run.states[m].db.leases && run.states[m].db.leases[key].token == t
  {
    RunSound(run, i);
    assert IssueOk(run.states[i].db, t);
    RunEvolves(run, i, m);
    RunEvolves(run, m, k);
    if Displaced(run.states[m].db, t) {
      DisplacedForGood(run, m, k, t);
    }
  }

  /** Check sandwich. If token `t` passes a check at step `i` and one at step `k`, its lease held at
      every instant between: in each state, and still when the next statement took effect. */
  lemma CheckSandwich(run: Run, i: nat, m: nat, k: nat, t: Token)
    requires run.Valid() && run.Timely() && i <= m <= k < |run.moves|
    requires Live(run.states[i].db, t, run.moves[i].0) && Live(run.states[k].db, t, run.moves[k].0)
    ensures Live(run.states[m].db, t, run.states[m].clock) && Live(run.states[m].db, t, run.moves[m].0)
    ensures run.states[m].db.issued[t] == run.states[i].db.issued[t]
  {
    RowKeptBetween(run, i, m, k, t);
    if m < k && !Live(run.states[m].db, t, run.moves[m].0) {
      SpentStep(run, m, t);
      SpentForGood(run, m + 1, k, t);
    }
  }

  /** Two tokens of one workspace are never both live. */
  lemma OneLiveToken(db: Db, t: Token, u: Token, at: int, at': int)
    requires Live(db, t, at) && Live(db, u, at') && db.issued[t].key == db.issued[u].key
    ensures t == u
  {
  }

  /** Successful acts under one token form one block: no act of another token of the same
      workspace falls between two of them. This needs no agreement of clocks. */
  lemma CommitsAreContiguous(run: Run, a: nat, b: nat, c: nat, t: Token, u: Token)
    requires run.Valid() && a <= b <= c < |run.moves|
    requires Authorised(run.states[a], run.moves[a].1, run.states[a + 1], t)
    requires Authorised(run.states[b], run.moves[b].1, run.states[b + 1], u)
    requires Authorised(run.states[c], run.moves[c].1, run.states[c + 1], t)
    ensures var issued := run.states[b].db.issued;
      && t in issued && u in issued && issued[t].Held? && issued[u].Held?
      && (issued[t].key == issued[u].key ==> t == u)
  {
    RunStep(run, a);
    AuthorisedIsLive(run.states[a], run.moves[a].0, run.moves[a].1, run.states[a + 1], t);
    RunStep(run, b);
    AuthorisedIsLive(run.states[b], run.moves[b].0, run.moves[b].1, run.states[b + 1], u);
    RunStep(run, c);
    AuthorisedIsLive(run.states[c], run.moves[c].0, run.moves[c].1, run.states[c + 1], t);
    RowKeptBetween(run, a, b, c, t);
  }
}

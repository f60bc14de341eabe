/** Admission of Script executions by many replicas at once: a job row is created under a unique
    index on (assistant, invocation key) before anything else happens. */
module ScriptIdempotency {
  datatype Slot = Slot(assistant: nat, invocationKey: nat)

  datatype Row = Row(id: nat, version: nat, inputHash: nat)

  datatype Request = Request(slot: Slot, version: nat, inputHash: nat)

  /** Where a submission stands: before its INSERT, after winning or losing it, or answered. A winner
      is blocked by the preflight or enqueues its job. */
  datatype Phase = Submitted | Won(id: nat) | Lost | Answered(id: nat, enqueued: bool) | Conflict(id: nat)

  datatype Submission = Submission(request: Request, phase: Phase)

  /** A job given to the execution queue. */
  datatype Execution = Execution(slot: Slot, id: nat)

  datatype State = State(rows: map<Slot, Row>, submissions: map<nat, Submission>, enqueued: seq<Execution>, nextId: nat)

  datatype Event = Arrive(sid: nat, request: Request) | Insert(sid: nat) | Preflight(sid: nat, passes: bool) | LookUp(sid: nat)

  const Start := State(map[], map[], [], 0)

  predicate Matches(r: Request, row: Row) { row.version == r.version && row.inputHash == r.inputHash }

  function InPhase(s: State, sid: nat, phase: Phase): State
    requires sid in s.submissions
  {
    s.(submissions := s.submissions[sid := s.submissions[sid].(phase := phase)])
  }

  function Apply(s: State, e: Event): State {
    match e
    case Arrive(sid, request) =>
      if sid in s.submissions then s else s.(submissions := s.submissions[sid := Submission(request, Submitted)])
    case Insert(sid) =>
      if !(sid in s.submissions && s.submissions[sid].phase.Submitted?) then s
      else var r := s.submissions[sid].request;
        if r.slot in s.rows then InPhase(s, sid, Lost)
        else InPhase(s, sid, Won(s.nextId)).(rows := s.rows[r.slot := Row(s.nextId, r.version, r.inputHash)], nextId := s.nextId + 1)
    case Preflight(sid, passes) =>
      if !(sid in s.submissions && s.submissions[sid].phase.Won?) then s
      else var r, id := s.submissions[sid].request, s.submissions[sid].phase.id;
        InPhase(s, sid, Answered(id, passes)).(enqueued := if passes then s.enqueued + [Execution(r.slot, id)] else s.enqueued)
    case LookUp(sid) =>
      if !(sid in s.submissions && s.submissions[sid].phase.Lost? && s.submissions[sid].request.slot in s.rows) then s
      else var r, row := s.submissions[sid].request, s.rows[s.submissions[sid].request.slot];
        if Matches(r, row) then InPhase(s, sid, Answered(row.id, false))
        else InPhase(s, sid, Conflict(row.id))
  }

  function Run(events: seq<Event>): State {
    if events == [] then Start else Apply(Run(events[..|events| - 1]), events[|events| - 1])
  }

  // ---------------------------------------------------------------- what every order of events keeps

  /** Nothing was enqueued for `slot`. */
  predicate Unstarted(s: State, slot: Slot) {
    forall i :: 0 <= i < |s.enqueued| ==> s.enqueued[i].slot != slot
  }

  /** What a submission's phase says about the table. */
  predicate SubmissionOk(s: State, sub: Submission) {
    var r := sub.request;
    match sub.phase
    case Submitted => true
    case Won(id) => r.slot in s.rows && s.rows[r.slot] == Row(id, r.version, r.inputHash) && Unstarted(s, r.slot)
    case Lost => r.slot in s.rows
    case Answered(id, _) => r.slot in s.rows && s.rows[r.slot] == Row(id, r.version, r.inputHash)
    case Conflict(id) => r.slot in s.rows && s.rows[r.slot].id == id && !Matches(r, s.rows[r.slot])
  }

  predicate SameWinner(x: Submission, y: Submission) {
    x.phase.Won? && y.phase.Won? && x.phase.id == y.phase.id
  }

  ghost predicate SubmissionsOk(s: State) {
    && (forall sid :: sid in s.submissions ==> SubmissionOk(s, s.submissions[sid]))
    && (forall a, b :: a in s.submissions && b in s.submissions && SameWinner(s.submissions[a], s.submissions[b]) ==> a == b)
  }

  predicate RowsOk(s: State) {
    && (forall slot :: slot in s.rows ==> s.rows[slot].id < s.nextId)
    && (forall a, b :: a in s.rows && b in s.rows && s.rows[a].id == s.rows[b].id ==> a == b)
  }

  /** At most one execution per slot, of the job in its row. */
  predicate EnqueuedOk(s: State) {
    && (forall i :: 0 <= i < |s.enqueued| ==> s.enqueued[i].slot in s.rows && s.rows[s.enqueued[i].slot].id == s.enqueued[i].id)
    && (forall i, j :: 0 <= i < j < |s.enqueued| ==> s.enqueued[i].slot != s.enqueued[j].slot)
  }

  ghost predicate Consistent(s: State) {
    SubmissionsOk(s) && RowsOk(s) && EnqueuedOk(s)
  }

  lemma SubmissionStaysOk(s: State, e: Event, sid: nat)
    requires Consistent(s) && sid in Apply(s, e).submissions
    ensures SubmissionOk(Apply(s, e), Apply(s, e).submissions[sid])
  {
    if sid in s.submissions {
      assert SubmissionOk(s, s.submissions[sid]);
      if e.Preflight? && e.sid in s.submissions && sid != e.sid {
        assert SubmissionOk(s, s.submissions[e.sid]) && !SameWinner(s.submissions[sid], s.submissions[e.sid]);
      }
    }
  }

  lemma WinnersStayApart(s: State, e: Event, a: nat, b: nat)
    requires Consistent(s)
    requires a in Apply(s, e).submissions && b in Apply(s, e).submissions
    requires SameWinner(Apply(s, e).submissions[a], Apply(s, e).submissions[b])
    ensures a == b
  {
    if a in s.submissions { assert SubmissionOk(s, s.submissions[a]); }
    if b in s.submissions { assert SubmissionOk(s, s.submissions[b]); }
    if a in s.submissions && b in s.submissions { assert SameWinner(s.submissions[a], s.submissions[b]) ==> a == b; }
  }

  lemma RowsStayOk(s: State, e: Event)
    requires RowsOk(s)
    ensures RowsOk(Apply(s, e))
  {
  }

  lemma EnqueuedStaysOk(s: State, e: Event)
    requires Consistent(s)
    ensures EnqueuedOk(Apply(s, e))
  {
    if e.Preflight? && e.sid in s.submissions { assert SubmissionOk(s, s.submissions[e.sid]); }
  }

  lemma ApplyKeeps(s: State, e: Event)
    requires Consistent(s)
    ensures Consistent(Apply(s, e))
  {
    var s' := Apply(s, e);
    RowsStayOk(s, e);
    EnqueuedStaysOk(s, e);
    forall sid | sid in s'.submissions ensures SubmissionOk(s', s'.submissions[sid]) { SubmissionStaysOk(s, e, sid); }
    forall a, b | a in s'.submissions && b in s'.submissions && SameWinner(s'.submissions[a], s'.submissions[b]) ensures a == b {
      WinnersStayApart(s, e, a, b);
    }
  }

  lemma {:induction false} RunIsConsistent(events: seq<Event>)
    ensures Consistent(Run(events))
  {
    if events != [] {
      RunIsConsistent(events[..|events| - 1]);
      ApplyKeeps(Run(events[..|events| - 1]), events[|events| - 1]);
    }
  }

  // ---------------------------------------------------------------- rows and answers are final

  predicate Answers(sub: Submission) { sub.phase.Answered? || sub.phase.Conflict? }

  /** Rows, answers and executions of `s` are still there in `s'`. */
  predicate Final(s: State, s': State) {
    && (forall slot :: slot in s.rows ==> slot in s'.rows && s'.rows[slot] == s.rows[slot])
    && (forall sid :: sid in s.submissions ==> sid in s'.submissions && s'.submissions[sid].request == s.submissions[sid].request)
    && (forall sid :: sid in s.submissions && Answers(s.submissions[sid]) ==> s'.submissions[sid] == s.submissions[sid])
    && s.enqueued <= s'.enqueued
  }

  lemma AnswersAreFinal(s: State, e: Event)
    ensures Final(s, Apply(s, e))
  {
  }

  /** Over runs: a row is never replaced, and an answer never taken back. */
  lemma {:induction false} RunIsFinal(events: seq<Event>, more: seq<Event>)
    ensures Final(Run(events), Run(events + more))
  {
    if more == [] {
      assert events + more == events;
    } else {
      var init := more[..|more| - 1];
      assert (events + more)[..|events + more| - 1] == events + init;
      RunIsFinal(events, init);
      AnswersAreFinal(Run(events + init), more[|more| - 1]);
    }
  }

  // ---------------------------------------------------------------- one execution per slot

  /** The answer of a submission is dictated by the row of its slot. */
  predicate AnsweredBy(row: Row, sub: Submission) {
    && (sub.phase.Won? || Answers(sub) ==> sub.phase.id == row.id)
    && (sub.phase.Won? ==> Matches(sub.request, row))
    && (Answers(sub) ==> (sub.phase.Conflict? <==> !Matches(sub.request, row)))
  }

  /** Once a slot has a row, that row stays, whatever else is submitted. The slot is executed at most
      once, with the job of the row. Every submission for the slot gets the id of that job, and it is
      a conflict exactly if its version or input differs from the row, even while the winner is still
      in its preflight. */
  lemma OneExecutionPerSlot(events: seq<Event>, more: seq<Event>, slot: Slot)
    requires slot in Run(events).rows
    ensures var row, s := Run(events).rows[slot], Run(events + more);
      && slot in s.rows && s.rows[slot] == row
      && (forall i :: 0 <= i < |s.enqueued| && s.enqueued[i].slot == slot ==> s.enqueued[i].id == row.id)
      && (forall i, j :: 0 <= i < j < |s.enqueued| ==> s.enqueued[i].slot != s.enqueued[j].slot && s.enqueued[i].id != s.enqueued[j].id)
      && (forall sid :: sid in s.submissions && s.submissions[sid].request.slot == slot ==> AnsweredBy(row, s.submissions[sid]))
  {
    RunIsFinal(events, more);
    RunIsConsistent(events + more);
    var s := Run(events + more);
    forall sid | sid in s.submissions && s.submissions[sid].request.slot == slot ensures AnsweredBy(s.rows[slot], s.submissions[sid]) {
      assert SubmissionOk(s, s.submissions[sid]);
    }
  }

  /** A submission that is past its INSERT has a row in its slot. */
  lemma AdmissionLeavesARow(events: seq<Event>, sid: nat)
    requires sid in Run(events).submissions && !Run(events).submissions[sid].phase.Submitted?
    ensures Run(events).submissions[sid].request.slot in Run(events).rows
  {
    RunIsConsistent(events);
    assert SubmissionOk(Run(events), Run(events).submissions[sid]);
  }

  /** A job is enqueued only by the submission that created it: neither a losing nor a conflicting
      submission starts anything. */
  lemma OnlyWinnersEnqueue(s: State, e: Event)
    requires Consistent(s) && Apply(s, e).enqueued != s.enqueued
    ensures e.Preflight? && e.passes && e.sid in s.submissions && s.submissions[e.sid].phase.Won?
    ensures var r, id := s.submissions[e.sid].request, s.submissions[e.sid].phase.id;
      && Apply(s, e).enqueued == s.enqueued + [Execution(r.slot, id)]
      && r.slot in s.rows && s.rows[r.slot] == Row(id, r.version, r.inputHash) && Unstarted(s, r.slot)
  {
    assert SubmissionOk(s, s.submissions[e.sid]);
  }

  // ---------------------------------------------------------------- what each step decides

  /** The first to insert creates the row it asked for; everyone after loses, and is then answered with
      the job of the row or told of the conflict. */
  lemma InsertAndLookUpDecide(s: State, sid: nat)
    requires Consistent(s) && sid in s.submissions
    ensures var sub := s.submissions[sid]; var slot := sub.request.slot;
      && (sub.phase.Submitted? ==>
            var s' := Apply(s, Insert(sid));
            if slot in s.rows then s'.submissions[sid].phase == Lost && s'.rows == s.rows
            else && s'.submissions[sid].phase == Won(s.nextId)
                 && s'.rows == s.rows[slot := Row(s.nextId, sub.request.version, sub.request.inputHash)])
      && (sub.phase.Lost? ==>
            slot in s.rows &&
            var s', row := Apply(s, LookUp(sid)), s.rows[slot];
            s'.submissions[sid].phase == if Matches(sub.request, row) then Answered(row.id, false) else Conflict(row.id))
  {
    assert SubmissionOk(s, s.submissions[sid]);
  }

  /** The slot has its row, nothing was enqueued for it, and nobody can any more. */
  predicate Closed(s: State, slot: Slot) {
    && slot in s.rows && Unstarted(s, slot)
    && forall sid :: sid in s.submissions && s.submissions[sid].request.slot == slot ==> !s.submissions[sid].phase.Won?
  }

  lemma {:induction false} ClosedForGood(events: seq<Event>, more: seq<Event>, slot: Slot)
    requires Closed(Run(events), slot)
    ensures Closed(Run(events + more), slot)
  {
    if more == [] {
      assert events + more == events;
    } else {
      var init := more[..|more| - 1];
      assert (events + more)[..|events + more| - 1] == events + init;
      ClosedForGood(events, init, slot);
    }
  }

  /** The preflight of the winner decides alone, and for good: if it passes, the job of the slot is
      enqueued; if not, nothing ever is. */
  lemma PreflightDecides(events: seq<Event>, sid: nat, passes: bool, more: seq<Event>)
    requires sid in Run(events).submissions && Run(events).submissions[sid].phase.Won?
    ensures var sub := Run(events).submissions[sid]; var s := Run(events + [Preflight(sid, passes)] + more);
      if passes then Execution(sub.request.slot, sub.phase.id) in s.enqueued else Unstarted(s, sub.request.slot)
  {
    var s0, decided := Run(events), events + [Preflight(sid, passes)];
    var slot := s0.submissions[sid].request.slot;
    RunIsConsistent(events);
    assert SubmissionOk(s0, s0.submissions[sid]);
    assert decided[..|decided| - 1] == events;
    var s1 := Run(decided);
    if passes {
      assert s1.enqueued[|s0.enqueued|] == Execution(slot, s0.submissions[sid].phase.id);
      RunIsFinal(decided, more);
    } else {
      forall other | other in s1.submissions && s1.submissions[other].request.slot == slot ensures !s1.submissions[other].phase.Won? {
        if other != sid && s0.submissions[other].phase.Won? {
          assert SubmissionOk(s0, s0.submissions[other]);
          assert SameWinner(s0.submissions[sid], s0.submissions[other]);
        }
      }
      ClosedForGood(decided, more, slot);
    }
  }
}

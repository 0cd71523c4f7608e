/** What every reachable goal ledger satisfies, and what a snapshot of it shows. */
module GoalRuns {
  import opened Domain
  import opened Goals

  // ---- the invariant --------------------------------------------------------------------------

  ghost predicate HasEvidence(rows: seq<Evidence>, criterion: nat) {
    exists e :: e in rows && e.criterion == Some(criterion)
  }

  ghost predicate HasVerifiedFor(rows: seq<Evidence>, goal: nat, criterion: nat) {
    exists e :: e in rows && e.goal == goal && e.criterion == Some(criterion) && e.verified
  }

  /** A completion audit whose deciding row waives the criterion, with notes. */
  predicate Waives(a: Audit, goal: nat, criterion: nat) {
    && a.goal == goal && a.result == Complete
    && LastRow(a.rows, criterion).Some?
    && LastRow(a.rows, criterion).value.result == NotApplicableAccepted
    && !LastRow(a.rows, criterion).value.notesBlank
  }

  ghost predicate HasWaiver(audits: seq<Audit>, goal: nat, criterion: nat) {
    exists a :: a in audits && Waives(a, goal, criterion)
  }

  /** A criterion of a goal that is not complete shows whether evidence names it; one
      of a complete goal shows how it was settled, and the proof is in the ledger. */
  ghost predicate CriterionOk(l: Ledger, c: nat)
    requires c in l.criteria
  {
    var row := l.criteria[c];
    && row.required
    && row.goal in l.goals && l.goals[row.goal].session == row.session
    && if l.goals[row.goal].status != Complete then
         row.status in {Pending, Covered} && (row.status == Covered <==> HasEvidence(l.evidence, c))
       else
         && IsCompletionResult(row.status)
         && if row.status == NotApplicableAccepted then HasWaiver(l.audits, row.goal, c)
            else HasVerifiedFor(l.evidence, row.goal, c)
  }

  ghost predicate EvidenceOk(l: Ledger, e: Evidence) {
    && e.goal in l.goals && l.goals[e.goal].session == e.session
    && (e.criterion.Some? ==> e.criterion.value in l.criteria && l.criteria[e.criterion.value].goal == e.goal)
  }

  ghost predicate AuditOk(l: Ledger, a: Audit) {
    a.goal in l.goals && l.goals[a.goal].session == a.session
  }

  ghost predicate GoalsOk(goals: map<nat, Goal>) {
    && (forall id :: id in goals ==> (goals[id].completed <==> !IsCurrent(goals[id].status)))
    && (forall id, other :: (id in goals && other in goals && goals[id].session == goals[other].session
                             && IsCurrent(goals[id].status) && IsCurrent(goals[other].status)) ==> id == other)
  }

  ghost predicate IdsBelow(l: Ledger) {
    && (forall id :: id in l.goals ==> id < l.nextId)
    && (forall id :: id in l.criteria ==> id < l.nextId)
  }

  ghost predicate LedgerOk(l: Ledger) {
    && IdsBelow(l) && GoalsOk(l.goals)
    && (forall c :: c in l.criteria ==> CriterionOk(l, c))
    && (forall e :: e in l.evidence ==> EvidenceOk(l, e))
    && (forall a :: a in l.audits ==> AuditOk(l, a))
  }

  // ---- replacing --------------------------------------------------------------------------------

  lemma {:induction false} AddCriteriaFacts(criteria: map<nat, Criterion>, goal: nat, session: SessionId, first: nat,
      count: nat)
    ensures
      var now := AddCriteria(criteria, goal, session, first, count);
      && (forall c :: c in now <==> c in criteria || first <= c < first + count)
      && (forall c :: c in now ==>
            now[c] == if first <= c < first + count then Criterion(goal, session, true, Pending) else criteria[c])
  {
    if count > 0 {
      AddCriteriaFacts(criteria, goal, session, first, count - 1);
    }
  }

  /** A goal whose completeness, session and place do not change keeps its criteria. */
  lemma CriterionUnmoved(l: Ledger, l': Ledger, c: nat)
    requires c in l.criteria && CriterionOk(l, c) && c in l'.criteria && l'.criteria[c] == l.criteria[c]
    requires
      var g := l.criteria[c].goal;
      g in l'.goals && l'.goals[g].session == l.goals[g].session
      && (l'.goals[g].status == Complete <==> l.goals[g].status == Complete)
    requires l'.evidence == l.evidence && (forall a :: a in l.audits ==> a in l'.audits)
    ensures CriterionOk(l', c)
  {
  }

  lemma ReplaceKeepsCriteria(l: Ledger, req: GoalRequest, now: int)
    requires LedgerOk(l) && ReplaceGoal(l, req, now).Accepted?
    ensures
      var l' := ReplaceGoal(l, req, now).value.0;
      forall c :: c in l'.criteria ==> CriterionOk(l', c)
  {
    var l' := ReplaceGoal(l, req, now).value.0;
    var id, session := l.nextId, req.session.value;
    AddCriteriaFacts(l.criteria, id, session, id + 2, |Cleaned(req.criteria)|);
    forall c | c in l'.criteria
      ensures CriterionOk(l', c)
    {
      if c >= id + 2 {
        assert l'.criteria[c] == Criterion(id, session, true, Pending);
        assert !HasEvidence(l.evidence, c);
      } else {
        CriterionUnmoved(l, l', c);
      }
    }
  }

  lemma ReplaceKeepsGoals(l: Ledger, req: GoalRequest, now: int)
    requires LedgerOk(l) && ReplaceGoal(l, req, now).Accepted?
    ensures GoalsOk(ReplaceGoal(l, req, now).value.0.goals)
  {
  }

  lemma ReplaceKeepsLedger(l: Ledger, req: GoalRequest, now: int)
    requires LedgerOk(l) && ReplaceGoal(l, req, now).Accepted?
    ensures LedgerOk(ReplaceGoal(l, req, now).value.0)
  {
    var l' := ReplaceGoal(l, req, now).value.0;
    ReplaceKeepsCriteria(l, req, now);
    ReplaceKeepsGoals(l, req, now);
    AddCriteriaFacts(l.criteria, l.nextId, req.session.value, l.nextId + 2, |Cleaned(req.criteria)|);
    forall e | e in l'.evidence ensures EvidenceOk(l', e) { assert EvidenceOk(l, e); }
    forall a | a in l'.audits ensures AuditOk(l', a) { assert AuditOk(l, a); }
  }

  // ---- appending evidence -------------------------------------------------------------------------

  lemma AppendKeepsCriteria(l: Ledger, t: Target, input: EvidenceInput)
    requires LedgerOk(l) && AppendEvidence(l, t, input).Accepted?
    ensures
      var l' := AppendEvidence(l, t, input).value.0;
      forall c :: c in l'.criteria ==> CriterionOk(l', c)
  {
    var l' := AppendEvidence(l, t, input).value.0;
    var row := l'.evidence[|l.evidence|];
    assert l'.evidence == l.evidence + [row];
    forall c | c in l'.criteria
      ensures CriterionOk(l', c)
    {
      assert CriterionOk(l, c);
      var goal := l.criteria[c].goal;
      if Some(c) == row.criterion {
        assert row in l'.evidence && HasEvidence(l'.evidence, c);
      } else {
        assert HasEvidence(l'.evidence, c) <==> HasEvidence(l.evidence, c) by {
          MoreEvidence(l.evidence, row, c);
        }
        if HasVerifiedFor(l.evidence, goal, c) {
          var e :| e in l.evidence && e.goal == goal && e.criterion == Some(c) && e.verified;
          assert e in l'.evidence;
        }
      }
    }
  }

  lemma MoreEvidence(rows: seq<Evidence>, row: Evidence, c: nat)
    requires row.criterion != Some(c)
    ensures HasEvidence(rows + [row], c) <==> HasEvidence(rows, c)
  {
    if HasEvidence(rows, c) {
      var e :| e in rows && e.criterion == Some(c);
      assert e in rows + [row];
    }
    if HasEvidence(rows + [row], c) {
      var e :| e in rows + [row] && e.criterion == Some(c);
      assert e in rows;
    }
  }

  lemma AppendKeepsLedger(l: Ledger, t: Target, input: EvidenceInput)
    requires LedgerOk(l) && AppendEvidence(l, t, input).Accepted?
    ensures LedgerOk(AppendEvidence(l, t, input).value.0)
  {
    var l' := AppendEvidence(l, t, input).value.0;
    AppendKeepsCriteria(l, t, input);
    forall e | e in l'.evidence
      ensures EvidenceOk(l', e)
    {
      if e in l.evidence {
        assert EvidenceOk(l, e);
      }
    }
    forall a | a in l'.audits ensures AuditOk(l', a) { assert AuditOk(l, a); }
  }

  // ---- status -----------------------------------------------------------------------------------------

  /** After an audit, a criterion of the goal shows the result of its deciding row. */
  lemma {:induction false} ApplyAuditFacts(criteria: map<nat, Criterion>, goal: nat, session: SessionId,
      rows: seq<AuditRow>)
    ensures
      var now := ApplyAudit(criteria, goal, session, rows);
      && now.Keys == criteria.Keys
      && forall c :: c in criteria ==>
           now[c] == if criteria[c].goal == goal && criteria[c].session == session && LastRow(rows, c).Some?
                     then criteria[c].(status := LastRow(rows, c).value.result) else criteria[c]
  {
    if rows != [] {
      ApplyAuditFacts(criteria, goal, session, rows[..|rows| - 1]);
    }
  }

  /** An accepted row settles its criterion from what the ledger holds. */
  lemma AcceptedRowSettles(l: Ledger, goal: nat, c: nat, row: AuditRow)
    requires RowAccepted(l, goal, c, row)
    ensures row.result == NotApplicableAccepted || HasVerifiedFor(l.evidence, goal, c)
  {
    if row.result != NotApplicableAccepted {
      var k :| 0 <= k < |row.evidenceIds| && FindEvidence(l.evidence, row.evidenceIds[k]).Some?
               && FindEvidence(l.evidence, row.evidenceIds[k]).value.verified;
      assert EvidenceMatches(l, goal, c, row.evidenceIds[k]);
      var e := FindEvidence(l.evidence, row.evidenceIds[k]).value;
      assert e in l.evidence && e.goal == goal && e.criterion == Some(c) && e.verified;
    }
  }

  lemma CompletedCriterion(l: Ledger, t: Target, rows: seq<AuditRow>, now: int, c: nat)
    requires LedgerOk(l) && UpdateStatus(l, t, Complete, rows, now).Accepted?
    requires c in l.criteria && l.criteria[c].goal == t.goal
    ensures
      var l' := UpdateStatus(l, t, Complete, rows, now).value;
      c in l'.criteria && CriterionOk(l', c)
  {
    var l' := UpdateStatus(l, t, Complete, rows, now).value;
    assert CriterionOk(l, c);
    ApplyAuditFacts(l.criteria, t.goal, t.session.value, rows);
    var row := LastRow(rows, c).value;
    AcceptedRowSettles(l, t.goal, c, row);
    if row.result == NotApplicableAccepted {
      var a := Audit(t.goal, t.session.value, Complete, rows);
      assert a in l'.audits && Waives(a, t.goal, c);
    }
  }

  lemma StatusKeepsCriteria(l: Ledger, t: Target, status: GoalStatus, rows: seq<AuditRow>, now: int)
    requires LedgerOk(l) && UpdateStatus(l, t, status, rows, now).Accepted?
    ensures
      var l' := UpdateStatus(l, t, status, rows, now).value;
      forall c :: c in l'.criteria ==> CriterionOk(l', c)
  {
    var l' := UpdateStatus(l, t, status, rows, now).value;
    ApplyAuditFacts(l.criteria, t.goal, t.session.value, rows);
    forall c | c in l'.criteria
      ensures CriterionOk(l', c)
    {
      if status == Complete && l.criteria[c].goal == t.goal {
        CompletedCriterion(l, t, rows, now, c);
      } else {
        CriterionUnmoved(l, l', c);
      }
    }
  }

  lemma StatusKeepsLedger(l: Ledger, t: Target, status: GoalStatus, rows: seq<AuditRow>, now: int)
    requires LedgerOk(l) && UpdateStatus(l, t, status, rows, now).Accepted?
    ensures LedgerOk(UpdateStatus(l, t, status, rows, now).value)
  {
    var l' := UpdateStatus(l, t, status, rows, now).value;
    StatusKeepsCriteria(l, t, status, rows, now);
    ApplyAuditFacts(l.criteria, t.goal, t.session.value, rows);
    forall e | e in l'.evidence ensures EvidenceOk(l', e) { assert EvidenceOk(l, e); }
    forall a | a in l'.audits
      ensures AuditOk(l', a)
    {
      if a in l.audits {
        assert AuditOk(l, a);
      }
    }
  }

  lemma UsageKeepsLedger(l: Ledger, t: Target, usage: Usage, now: int)
    requires LedgerOk(l) && AccountUsage(l, t, usage, now).Accepted?
    ensures LedgerOk(AccountUsage(l, t, usage, now).value)
  {
    var l' := AccountUsage(l, t, usage, now).value;
    forall c | c in l'.criteria ensures CriterionOk(l', c) { CriterionUnmoved(l, l', c); }
    forall e | e in l'.evidence ensures EvidenceOk(l', e) { assert EvidenceOk(l, e); }
    forall a | a in l'.audits ensures AuditOk(l', a) { assert AuditOk(l, a); }
  }

  /** Deleting a session removes everything a remaining criterion does not rely on. */
  lemma DeletedCriterion(l: Ledger, session: SessionId, c: nat)
    requires LedgerOk(l) && c in DeleteSession(l, session).criteria
    ensures CriterionOk(DeleteSession(l, session), c)
  {
    var l' := DeleteSession(l, session);
    assert CriterionOk(l, c);
    var goal := l.criteria[c].goal;
    if HasEvidence(l.evidence, c) {
      var e :| e in l.evidence && e.criterion == Some(c);
      assert EvidenceOk(l, e) && e in l'.evidence;
    }
    if HasVerifiedFor(l.evidence, goal, c) {
      var e :| e in l.evidence && e.goal == goal && e.criterion == Some(c) && e.verified;
      assert EvidenceOk(l, e) && e in l'.evidence;
    }
    if HasWaiver(l.audits, goal, c) {
      var a :| a in l.audits && Waives(a, goal, c);
      assert AuditOk(l, a) && a in l'.audits;
    }
  }

  lemma DeleteKeepsLedger(l: Ledger, session: SessionId)
    requires LedgerOk(l)
    ensures LedgerOk(DeleteSession(l, session))
  {
    var l' := DeleteSession(l, session);
    forall c | c in l'.criteria ensures CriterionOk(l', c) { DeletedCriterion(l, session, c); }
    forall e | e in l'.evidence
      ensures EvidenceOk(l', e)
    {
      assert EvidenceOk(l, e);
      if e.criterion.Some? {
        assert CriterionOk(l, e.criterion.value);
      }
    }
    forall a | a in l'.audits ensures AuditOk(l', a) { assert AuditOk(l, a); }
  }

  // ---- runs ----------------------------------------------------------------------------------------------

  datatype GoalStep =
    | Replace(req: GoalRequest, now: int)
    | Append(target: Target, input: EvidenceInput)
    | SetStatus(target: Target, status: GoalStatus, rows: seq<AuditRow>, now: int)
    | Spend(target: Target, usage: Usage, now: int)
    | Delete(session: SessionId)

  /** The committed ledger: a rejected call is rolled back. */
  function Apply(l: Ledger, step: GoalStep): Ledger {
    match step
    case Replace(req, now) => var r := ReplaceGoal(l, req, now); if r.Accepted? then r.value.0 else l
    case Append(t, input) => var r := AppendEvidence(l, t, input); if r.Accepted? then r.value.0 else l
    case SetStatus(t, status, rows, now) =>
      var r := UpdateStatus(l, t, status, rows, now); if r.Accepted? then r.value else l
    case Spend(t, usage, now) => var r := AccountUsage(l, t, usage, now); if r.Accepted? then r.value else l
    case Delete(session) => DeleteSession(l, session)
  }

  const EMPTY := Ledger(map[], map[], map[], [], [], 0)

  ghost predicate IsGoalRun(ledgers: seq<Ledger>, steps: seq<GoalStep>) {
    && |ledgers| == |steps| + 1 && ledgers[0] == EMPTY
    && forall i :: 0 <= i < |steps| ==> ledgers[i + 1] == Apply(ledgers[i], steps[i])
  }

  lemma StepKeepsLedger(l: Ledger, step: GoalStep)
    requires LedgerOk(l)
    ensures LedgerOk(Apply(l, step))
  {
    match step
    case Replace(req, now) =>
      if ReplaceGoal(l, req, now).Accepted? { ReplaceKeepsLedger(l, req, now); }
    case Append(t, input) =>
      if AppendEvidence(l, t, input).Accepted? { AppendKeepsLedger(l, t, input); }
    case SetStatus(t, status, rows, now) =>
      if UpdateStatus(l, t, status, rows, now).Accepted? { StatusKeepsLedger(l, t, status, rows, now); }
    case Spend(t, usage, now) =>
      if AccountUsage(l, t, usage, now).Accepted? { UsageKeepsLedger(l, t, usage, now); }
    case Delete(session) => DeleteKeepsLedger(l, session);
  }

  lemma {:induction false} LedgerTheorem(ledgers: seq<Ledger>, steps: seq<GoalStep>, i: nat)
    requires IsGoalRun(ledgers, steps) && i < |ledgers|
    ensures LedgerOk(ledgers[i])
  {
    if i > 0 {
      LedgerTheorem(ledgers, steps, i - 1);
      StepKeepsLedger(ledgers[i - 1], steps[i - 1]);
    }
  }

  // ---- theorems ----------------------------------------------------------------------------------------------

  /** A session has at most one current goal, with no index to enforce it, and a
      goal has a completion time exactly when it is no longer current. */
  lemma OneCurrentGoal(ledgers: seq<Ledger>, steps: seq<GoalStep>, i: nat, goal: nat, other: nat)
    requires IsGoalRun(ledgers, steps) && i < |ledgers|
    requires goal in ledgers[i].goals && other in ledgers[i].goals
    ensures ledgers[i].goals[goal].completed
            <==> ledgers[i].goals[goal].status in {Complete, Blocked, GoalCancelled, Superseded, UsageLimited}
    ensures ledgers[i].goals[goal].completed <==> !IsCurrent(ledgers[i].goals[goal].status)
    ensures
      var g, h := ledgers[i].goals[goal], ledgers[i].goals[other];
      g.session == h.session && IsCurrent(g.status) && IsCurrent(h.status) ==> goal == other
  {
    LedgerTheorem(ledgers, steps, i);
    CurrentIs(ledgers[i].goals[goal].status);
  }

  lemma CurrentIs(status: GoalStatus)
    ensures IsCurrent(status) <==> status !in {Complete, Blocked, GoalCancelled, Superseded, UsageLimited}
  {
  }

  /** A goal that is no longer current never changes again. */
  lemma StepKeepsEnded(l: Ledger, step: GoalStep, goal: nat)
    requires LedgerOk(l) && goal < l.nextId
    requires goal in l.goals ==> !IsCurrent(l.goals[goal].status)
    ensures goal < Apply(l, step).nextId
    ensures goal in Apply(l, step).goals ==> goal in l.goals && Apply(l, step).goals[goal] == l.goals[goal]
  {
  }

  /** The step deletes the goal's session. */
  predicate Deletes(step: GoalStep, session: SessionId) {
    step.Delete? && step.session == session
  }

  /** Unless its session is deleted, a goal that is no longer current stays, and so do
      its criteria, word for word. */
  lemma StepKeepsEndedRows(l: Ledger, step: GoalStep, goal: nat)
    requires LedgerOk(l) && goal in l.goals && !IsCurrent(l.goals[goal].status)
    requires !Deletes(step, l.goals[goal].session)
    ensures goal in Apply(l, step).goals && Apply(l, step).goals[goal] == l.goals[goal]
  {
  }

  lemma StepKeepsEndedCriterion(l: Ledger, step: GoalStep, goal: nat, c: nat)
    requires LedgerOk(l) && goal in l.goals && !IsCurrent(l.goals[goal].status)
    requires c in l.criteria && l.criteria[c].goal == goal && !Deletes(step, l.goals[goal].session)
    ensures c in Apply(l, step).criteria && Apply(l, step).criteria[c] == l.criteria[c]
  {
    assert CriterionOk(l, c);
    match step
    case Replace(req, now) =>
      if ValidRequest(req) {
        AddCriteriaFacts(l.criteria, l.nextId, req.session.value, l.nextId + 2, |Cleaned(req.criteria)|);
      }
    case SetStatus(t, status, rows, now) =>
      if t.session.Some? {
        ApplyAuditFacts(l.criteria, t.goal, t.session.value, rows);
      }
    case _ =>
  }

  ghost predicate NotDeleted(steps: seq<GoalStep>, i: nat, k: nat, session: SessionId)
    requires i <= k <= |steps|
  {
    forall j :: i <= j < k ==> !Deletes(steps[j], session)
  }

  /** A goal that is no longer current is there, unchanged, until its session is
      deleted, and so is every criterion of it. */
  lemma {:induction false} EndedGoalsAreFinal(ledgers: seq<Ledger>, steps: seq<GoalStep>, i: nat, k: nat, goal: nat)
    requires IsGoalRun(ledgers, steps) && i <= k < |ledgers|
    requires goal in ledgers[i].goals && !IsCurrent(ledgers[i].goals[goal].status)
    requires NotDeleted(steps, i, k, ledgers[i].goals[goal].session)
    ensures goal in ledgers[k].goals && ledgers[k].goals[goal] == ledgers[i].goals[goal]
    ensures forall c :: c in ledgers[i].criteria && ledgers[i].criteria[c].goal == goal ==>
              c in ledgers[k].criteria && ledgers[k].criteria[c] == ledgers[i].criteria[c]
  {
    if i < k {
      EndedGoalsAreFinal(ledgers, steps, i, k - 1, goal);
      LedgerTheorem(ledgers, steps, k - 1);
      StepKeepsEndedRows(ledgers[k - 1], steps[k - 1], goal);
      forall c | c in ledgers[i].criteria && ledgers[i].criteria[c].goal == goal
        ensures c in ledgers[k].criteria && ledgers[k].criteria[c] == ledgers[i].criteria[c]
      {
        StepKeepsEndedCriterion(ledgers[k - 1], steps[k - 1], goal, c);
      }
    }
  }

  /** Once deleted, a goal does not come back. */
  lemma {:induction false} GoalsDoNotReturn(ledgers: seq<Ledger>, steps: seq<GoalStep>, i: nat, k: nat, goal: nat)
    requires IsGoalRun(ledgers, steps) && i <= k < |ledgers|
    requires goal < ledgers[i].nextId && goal !in ledgers[i].goals
    ensures goal < ledgers[k].nextId && goal !in ledgers[k].goals
  {
    if i < k {
      GoalsDoNotReturn(ledgers, steps, i, k - 1, goal);
      LedgerTheorem(ledgers, steps, k - 1);
      StepKeepsEnded(ledgers[k - 1], steps[k - 1], goal);
    }
  }

  /** Every criterion of a complete goal shows a completion result, and the ledger
      holds either a completion audit that waives it with notes, or a verified
      evidence row of that goal and criterion. */
  lemma CompletionTheorem(ledgers: seq<Ledger>, steps: seq<GoalStep>, i: nat, c: nat)
    requires IsGoalRun(ledgers, steps) && i < |ledgers|
    requires c in ledgers[i].criteria && ledgers[i].criteria[c].goal in ledgers[i].goals
    requires ledgers[i].goals[ledgers[i].criteria[c].goal].status == Complete
    ensures
      var l := ledgers[i];
      && IsCompletionResult(l.criteria[c].status)
      && (HasWaiver(l.audits, l.criteria[c].goal, c) || HasVerifiedFor(l.evidence, l.criteria[c].goal, c))
  {
    LedgerTheorem(ledgers, steps, i);
    assert CriterionOk(ledgers[i], c);
  }

  /** A completion lasts: until the session is deleted, every criterion the goal had
      when it was complete is still settled as it was, and the proof is still there. */
  lemma CompletionLasts(ledgers: seq<Ledger>, steps: seq<GoalStep>, i: nat, k: nat, c: nat)
    requires IsGoalRun(ledgers, steps) && i <= k < |ledgers|
    requires c in ledgers[i].criteria && ledgers[i].criteria[c].goal in ledgers[i].goals
    requires ledgers[i].goals[ledgers[i].criteria[c].goal].status == Complete
    requires NotDeleted(steps, i, k, ledgers[i].goals[ledgers[i].criteria[c].goal].session)
    ensures
      var l, goal := ledgers[k], ledgers[i].criteria[c].goal;
      && goal in l.goals && l.goals[goal].status == Complete
      && c in l.criteria && l.criteria[c] == ledgers[i].criteria[c] && IsCompletionResult(l.criteria[c].status)
      && (HasWaiver(l.audits, goal, c) || HasVerifiedFor(l.evidence, goal, c))
  {
    EndedGoalsAreFinal(ledgers, steps, i, k, ledgers[i].criteria[c].goal);
    CompletionTheorem(ledgers, steps, k, c);
  }

  /** Whatever the window, a snapshot shows a criterion as covered exactly when some
      evidence in the whole ledger names it, or the goal is complete. */
  lemma SnapshotCoverage(l: Ledger, goal: nat, limit: Option<int>, c: nat)
    requires LedgerOk(l) && goal in l.goals && (limit.Some? ==> limit.value > 0)
    requires c in l.criteria && l.criteria[c].goal == goal
    ensures
      var snapshot := GoalSnapshot(l, goal, limit);
      && snapshot.Accepted? && snapshot.value.Some? && c in snapshot.value.value.criteria
      && (IsCovered(snapshot.value.value, c) <==> l.goals[goal].status == Complete || HasEvidence(l.evidence, c))
  {
    var snapshot := GoalSnapshot(l, goal, limit).value.value;
    assert CriterionOk(l, c);
    var all := EvidenceOf(l.evidence, goal);
    if k :| 0 <= k < |snapshot.evidence| && snapshot.evidence[k].criterion == Some(c) {
      assert snapshot.evidence[k] in all;
    }
  }
}

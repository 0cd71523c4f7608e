/** The goal store as it works: table updates inside transactions, each call proved
    against its ledger function. */
module GoalMachine {
  import opened Domain
  import opened Goals
  import opened GoalRuns
  import opened GoalCalls

  class GoalStore {
    var goals: map<nat, Goal>
    var claims: map<nat, Claim>
    var criteria: map<nat, Criterion>
    var evidence: seq<Evidence>
    var audits: seq<Audit>
    var nextId: nat

    ghost function Contents(): Ledger
      reads this
    {
      Ledger(goals, claims, criteria, evidence, audits, nextId)
    }

    ghost predicate Valid()
      reads this
    {
      LedgerOk(Contents()) && EvidenceIdsOk(Contents())
    }

    constructor ()
      ensures Valid() && Contents() == EMPTY
    {
      goals, claims, criteria, evidence, audits, nextId := map[], map[], map[], [], [], 0;
    }

    // ---- reading -------------------------------------------------------------------------------

    /** The session's current goal, the latest touched if there were several. */
    method GetCurrentGoal(session: SessionId) returns (r: Option<nat>)
      ensures r.Some? ==> r.value in goals && goals[r.value].session == session && IsCurrent(goals[r.value].status)
                          && IsNewest(goals, r.value)
      ensures r.None? ==> forall id :: id in goals && goals[id].session == session ==> !IsCurrent(goals[id].status)
    {
      r := None;
      var todo := goals.Keys;
      while todo != {}
        invariant todo <= goals.Keys
        invariant r.Some? ==> r.value in goals && goals[r.value].session == session && IsCurrent(goals[r.value].status)
        invariant forall id ::
                    (id in goals && id !in todo && goals[id].session == session && IsCurrent(goals[id].status)) ==>
                    r.Some? && goals[id].updatedAt <= goals[r.value].updatedAt
        decreases |todo|
      {
        var id :| id in todo;
        todo := todo - {id};
        if goals[id].session == session && IsCurrent(goals[id].status)
           && (r.None? || goals[r.value].updatedAt < goals[id].updatedAt) {
          r := Some(id);
        }
      }
    }

    method RequireMutableGoal(t: Target) returns (ok: bool)
      requires Valid()
      ensures ok <==> IsMutable(Contents(), t)
      ensures ok <==> && t.expected == t.goal && t.goal in goals && t.session == Some(goals[t.goal].session)
                      && goals[t.goal].status !in {Complete, Blocked, GoalCancelled, Superseded, UsageLimited}
    {
      MutableIff(Contents(), t);
      if t.expected != t.goal || t.session.None? || t.goal !in goals {
        return false;
      }
      var goal := goals[t.goal];
      if goal.session != t.session.value || !IsCurrent(goal.status) {
        return false;
      }
      var current := GetCurrentGoal(t.session.value);
      ok := current == Some(t.goal);
    }

    /** One criterion's audit row, checked evidence by evidence. */
    method CheckRow(goal: nat, criterion: nat, row: AuditRow) returns (ok: bool)
      ensures ok <==> RowAccepted(Contents(), goal, criterion, row)
      ensures EvidenceIdsOk(Contents()) ==> (ok <==> Settles(Contents(), goal, criterion, row))
    {
      if EvidenceIdsOk(Contents()) {
        RowAcceptedIff(Contents(), goal, criterion, row);
      }
      if !IsCompletionResult(row.result) {
        return false;
      }
      var needsEvidence := row.result in {Satisfied, SatisfiedWithCaveat};
      if needsEvidence && row.evidenceIds == [] {
        return false;
      }
      if row.result == NotApplicableAccepted && row.notesBlank {
        return false;
      }
      var verified := false;
      for i := 0 to |row.evidenceIds|
        invariant forall k :: 0 <= k < i ==> EvidenceMatches(Contents(), goal, criterion, row.evidenceIds[k])
        invariant verified <==> HasVerified(Contents(), row.evidenceIds[..i])
      {
        ghost var seen := row.evidenceIds[..i];
        assert row.evidenceIds[..i + 1] == seen + [row.evidenceIds[i]];
        var e := FindEvidence(evidence, row.evidenceIds[i]);
        if e.None? || e.value.goal != goal || e.value.criterion != Some(criterion) {
          assert !EvidenceMatches(Contents(), goal, criterion, row.evidenceIds[i]);
          return false;
        }
        VerifiedSoFar(Contents(), seen, row.evidenceIds[i]);
        verified := verified || e.value.verified;
      }
      assert row.evidenceIds[..|row.evidenceIds|] == row.evidenceIds;
      ok := !needsEvidence || verified;
    }

    /** The last row per criterion, collected by overwriting. */
    method RowsByCriterion(rows: seq<AuditRow>) returns (r: map<nat, AuditRow>)
      ensures forall c :: c in r <==> LastRow(rows, c).Some?
      ensures forall c :: c in r ==> r[c] == LastRow(rows, c).value
      ensures forall c :: c in r <==> exists k: nat :: Decides(rows, c, k)
      ensures forall c, k: nat :: Decides(rows, c, k) ==> r[c] == rows[k]
    {
      forall c
        ensures LastRow(rows, c).Some? <==> exists k: nat :: Decides(rows, c, k)
        ensures forall k: nat :: Decides(rows, c, k) ==> LastRow(rows, c) == Some(rows[k])
      {
        LastRowIs(rows, c);
      }
      r := map[];
      for i := 0 to |rows|
        invariant forall c :: c in r <==> LastRow(rows[..i], c).Some?
        invariant forall c :: c in r ==> r[c] == LastRow(rows[..i], c).value
      {
        assert rows[..i + 1][..i] == rows[..i];
        r := r[rows[i].criterion := rows[i]];
      }
      assert rows[..|rows|] == rows;
    }

    method ValidateCompletionAudit(goal: nat, rows: seq<AuditRow>) returns (ok: bool)
      ensures ok <==> AuditAccepted(Contents(), goal, rows)
      ensures EvidenceIdsOk(Contents()) ==> (ok <==> AllSettled(Contents(), goal, rows))
    {
      if EvidenceIdsOk(Contents()) {
        AuditAcceptedIff(Contents(), goal, rows);
      }
      var byCriterion := RowsByCriterion(rows);
      var todo := criteria.Keys;
      while todo != {}
        invariant todo <= criteria.Keys
        invariant forall c :: c in criteria && c !in todo && criteria[c].goal == goal && criteria[c].required ==>
                    LastRow(rows, c).Some? && RowAccepted(Contents(), goal, c, LastRow(rows, c).value)
        decreases |todo|
      {
        var c :| c in todo;
        todo := todo - {c};
        if criteria[c].goal == goal && criteria[c].required {
          if c !in byCriterion {
            return false;
          }
          var accepted := CheckRow(goal, c, byCriterion[c]);
          if !accepted {
            return false;
          }
        }
      }
      ok := true;
    }

    // ---- writing -------------------------------------------------------------------------------

    method CleanCriteria(texts: seq<Text>) returns (cleaned: seq<Text>)
      ensures cleaned == Cleaned(texts)
    {
      cleaned := [];
      for i := 0 to |texts|
        invariant cleaned == Cleaned(texts[..i])
      {
        assert texts[..i + 1][..i] == texts[..i];
        if texts[i] != BlankText {
          cleaned := cleaned + [texts[i]];
        }
      }
      assert texts[..|texts|] == texts;
    }

    method RejectExecution(texts: seq<Text>) returns (ok: bool)
      ensures ok <==> forall k :: 0 <= k < |texts| ==> texts[k] != ExecutionText
    {
      for i := 0 to |texts|
        invariant forall k :: 0 <= k < i ==> texts[k] != ExecutionText
      {
        if texts[i] == ExecutionText {
          return false;
        }
      }
      ok := true;
    }

    method ReplaceGoal(req: GoalRequest, now: int) returns (r: GoalResult<nat>)
      requires Valid()
      modifies this
      ensures Valid() && Contents() == Apply(old(Contents()), Replace(req, now))
      ensures match r
        case Rejected(error) => error == InvalidRequest && !Acceptable(req) && Contents() == old(Contents())
        case Accepted(id) =>
          && Acceptable(req) && Starts(old(Contents()), Contents(), req, now, id)
          && IsOnlyCurrent(goals, req.session.value, id)
    {
      StepKeepsLedger(Contents(), Replace(req, now));
      StepKeepsIds(Contents(), Replace(req, now));
      ReplaceStarts(Contents(), req, now);
      if req.session.None? || req.objective != ResearchText || req.liveTier {
        return Rejected(InvalidRequest);
      }
      var cleaned := CleanCriteria(req.criteria);
      var fine := RejectExecution(cleaned);
      if cleaned == [] || !fine || !PositiveBudget(req.tokenBudget) || !PositiveBudget(req.turnBudget)
         || !PositiveBudget(req.timeBudget) {
        return Rejected(InvalidRequest);
      }
      OnlyCurrent(Contents(), req, now);
      r := Accepted(nextId);
      StartGoal(req, |cleaned|, now);
    }

    method StartGoal(req: GoalRequest, count: nat, now: int)
      requires ValidRequest(req) && count == |Cleaned(req.criteria)|
      modifies this
      ensures Contents() == Goals.ReplaceGoal(old(Contents()), req, now).value.0
    {
      var id, session := nextId, req.session.value;
      goals := Supersede(goals, session, now);
      goals := goals[id := Goal(session, Active, req.tokenBudget, req.turnBudget, req.timeBudget, 0, 0, 0, false, now)];
      claims := claims[id + 1 := Claim(id, session)];
      InsertCriteria(id, session, id + 2, count);
      nextId := id + 2 + count;
    }

    method InsertCriteria(goal: nat, session: SessionId, first: nat, count: nat)
      modifies this`criteria
      ensures criteria == AddCriteria(old(criteria), goal, session, first, count)
    {
      for i := 0 to count
        invariant criteria == AddCriteria(old(criteria), goal, session, first, i)
      {
        criteria := criteria[first + i := Criterion(goal, session, true, Pending)];
      }
    }

    method AppendEvidence(t: Target, input: EvidenceInput) returns (r: GoalResult<nat>)
      requires Valid()
      modifies this
      ensures Valid() && Contents() == Apply(old(Contents()), Append(t, input))
      ensures match r
        case Rejected(error) =>
          AppendRefusal(old(Contents()), t, input) == Some(error) && Contents() == old(Contents())
        case Accepted(id) =>
          && AppendRefusal(old(Contents()), t, input) == None && t.session.Some?
          && Appends(old(Contents()), Contents(), t, input, id) && FindEvidence(evidence, id).Some?
    {
      StepKeepsLedger(Contents(), Append(t, input));
      StepKeepsIds(Contents(), Append(t, input));
      AppendWrites(Contents(), t, input);
      var mutable := RequireMutableGoal(t);
      if !mutable {
        return Rejected(StaleGoal);
      }
      if input.blank {
        return Rejected(InvalidRequest);
      }
      if input.criterion.Some?
        && (input.criterion.value !in criteria || criteria[input.criterion.value].goal != t.goal) {
        return Rejected(UnknownCriterion);
      }
      if input.claim.Some? && (input.claim.value !in claims || claims[input.claim.value].goal != t.goal) {
        return Rejected(UnknownClaim);
      }
      r := Accepted(nextId);
      InsertEvidence(t, input);
    }

    static method VerificationStatus(input: EvidenceInput) returns (verified: bool)
      ensures verified <==> IsTraced(input)
    {
      if input.artifact.Some? && input.artifact.value.isFile && DigestMatches(input.artifact.value) {
        return true;
      }
      if input.runExists {
        return true;
      }
      verified := false;
    }

    method InsertEvidence(t: Target, input: EvidenceInput)
      requires Goals.AppendEvidence(Contents(), t, input).Accepted?
      modifies this
      ensures Contents() == Goals.AppendEvidence(old(Contents()), t, input).value.0
      ensures FindEvidence(evidence, old(nextId)).Some?
    {
      var verified := VerificationStatus(input);
      evidence := evidence + [Evidence(nextId, t.goal, t.session.value, input.criterion, verified)];
      EvidenceIsFound(evidence, |evidence| - 1);
      nextId := nextId + 1;
      if input.criterion.Some? {
        criteria := CoverCriterion(criteria, input.criterion.value);
      }
    }

    method UpdateStatus(t: Target, status: GoalStatus, rows: seq<AuditRow>, now: int) returns (r: GoalResult<Goal>)
      requires Valid()
      modifies this
      ensures Valid() && Contents() == Apply(old(Contents()), SetStatus(t, status, rows, now))
      ensures match r
        case Rejected(error) =>
          && Contents() == old(Contents())
          && if !IsMutable(old(Contents()), t) then error == StaleGoal
             else error == AuditRejected && status == Complete && !AllSettled(old(Contents()), t.goal, rows)
        case Accepted(goal) =>
          && IsMutable(old(Contents()), t) && (status == Complete ==> AllSettled(old(Contents()), t.goal, rows))
          && Updates(old(Contents()), Contents(), t, status, rows, now) && goal == goals[t.goal]
    {
      StepKeepsLedger(Contents(), SetStatus(t, status, rows, now));
      StepKeepsIds(Contents(), SetStatus(t, status, rows, now));
      StatusUpdates(Contents(), t, status, rows, now);
      var mutable := RequireMutableGoal(t);
      if !mutable {
        return Rejected(StaleGoal);
      }
      if status == Complete {
        var accepted := ValidateCompletionAudit(t.goal, rows);
        if !accepted {
          return Rejected(AuditRejected);
        }
      }
      WriteStatus(t, status, rows, now);
      r := Accepted(goals[t.goal]);
    }

    method WriteStatus(t: Target, status: GoalStatus, rows: seq<AuditRow>, now: int)
      requires Goals.UpdateStatus(Contents(), t, status, rows, now).Accepted?
      modifies this
      ensures Contents() == Goals.UpdateStatus(old(Contents()), t, status, rows, now).value
    {
      var goal, session := goals[t.goal], t.session.value;
      goals := goals[t.goal :=
        goal.(status := status, updatedAt := now, completed := goal.completed || IsFinished(status))];
      if rows != [] {
        audits := audits + [Audit(t.goal, session, status, rows)];
      }
      if rows != [] && status == Complete {
        WriteResults(t.goal, session, rows);
      }
    }

    method WriteResults(goal: nat, session: SessionId, rows: seq<AuditRow>)
      modifies this`criteria
      ensures criteria == ApplyAudit(old(criteria), goal, session, rows)
    {
      for i := 0 to |rows|
        invariant criteria == ApplyAudit(old(criteria), goal, session, rows[..i])
      {
        assert rows[..i + 1][..i] == rows[..i];
        var c := rows[i].criterion;
        if c in criteria && criteria[c].goal == goal && criteria[c].session == session {
          criteria := criteria[c := criteria[c].(status := rows[i].result)];
        }
      }
      assert rows[..|rows|] == rows;
    }

    method AccountUsage(t: Target, usage: Usage, now: int) returns (r: GoalResult<Goal>)
      requires Valid()
      modifies this
      ensures Valid() && Contents() == Apply(old(Contents()), Spend(t, usage, now))
      ensures match r
        case Rejected(error) =>
          && Contents() == old(Contents())
          && if !IsUsage(usage) then error == InvalidRequest else error == StaleGoal && !IsMutable(old(Contents()), t)
        case Accepted(goal) =>
          && IsUsage(usage) && IsMutable(old(Contents()), t) && Spends(old(Contents()), Contents(), t, usage, now)
          && t.goal in goals && goal == goals[t.goal] && IsCurrent(goal.status)
    {
      StepKeepsLedger(Contents(), Spend(t, usage, now));
      StepKeepsIds(Contents(), Spend(t, usage, now));
      UsageSpends(Contents(), t, usage, now);
      if usage.tokens < 0 || usage.turns < 0 || usage.time < 0 {
        return Rejected(InvalidRequest);
      }
      var mutable := RequireMutableGoal(t);
      if !mutable {
        return Rejected(StaleGoal);
      }
      r := AddUsage(t, usage, now);
    }

    method AddUsage(t: Target, usage: Usage, now: int) returns (r: GoalResult<Goal>)
      requires Goals.AccountUsage(Contents(), t, usage, now).Accepted?
      modifies this
      ensures Contents() == Goals.AccountUsage(old(Contents()), t, usage, now).value
      ensures r.Accepted? && t.goal in goals && r.value == goals[t.goal] && IsCurrent(r.value.status)
    {
      var goal := goals[t.goal];
      var tokens, time, turns := goal.tokensUsed + usage.tokens, goal.timeUsed + usage.time,
        goal.turnsUsed + usage.turns;
      var crosses := (goal.tokenBudget.Some? && tokens >= goal.tokenBudget.value)
                     || (goal.timeBudget.Some? && time >= goal.timeBudget.value)
                     || (goal.turnBudget.Some? && turns >= goal.turnBudget.value);
      var next := if crosses then BudgetLimited else goal.status;
      goals := goals[t.goal :=
        goal.(tokensUsed := tokens, timeUsed := time, turnsUsed := turns, status := next, updatedAt := now)];
      r := Accepted(goals[t.goal]);
    }

    /** Delete everything a session owns; the result counts its goals. */
    method DeleteSessionGoals(session: Option<SessionId>) returns (r: GoalResult<nat>)
      requires Valid()
      modifies this
      ensures Valid()
      ensures r.Accepted? <==> session.Some?
      ensures Contents() == if session.Some? then Apply(old(Contents()), Delete(session.value)) else old(Contents())
      ensures r.Accepted? ==> Removes(old(Contents()), Contents(), session.value)
      ensures r.Accepted? ==> r.value + |goals| == |old(goals)|
    {
      if session.None? {
        return Rejected(InvalidRequest);
      }
      var count := DeleteRows(session.value);
      r := Accepted(count);
      DeleteKeepsLedger(old(Contents()), session.value);
      StepKeepsIds(old(Contents()), Delete(session.value));
      DeleteRemoves(old(Contents()), session.value);
    }

    method DeleteRows(session: SessionId) returns (count: nat)
      modifies this
      ensures Contents() == DeleteSession(old(Contents()), session)
      ensures count + |goals| == |old(goals)|
    {
      var doomed := set id | id in goals && goals[id].session == session;
      audits := KeepAudits(audits, session);
      evidence := KeepEvidence(evidence, session);
      criteria := map id | id in criteria && criteria[id].session != session :: criteria[id];
      claims := map id | id in claims && claims[id].session != session :: claims[id];
      goals := map id | id in goals && goals[id].session != session :: goals[id];
      CountKept(old(goals), goals, doomed);
      count := |doomed|;
    }
  }

  lemma CountKept(was: map<nat, Goal>, kept: map<nat, Goal>, doomed: set<nat>)
    requires doomed <= was.Keys && kept.Keys == was.Keys - doomed
    ensures |doomed| + |kept| == |was|
  {
    assert |kept.Keys| == |was.Keys| - |doomed|;
  }

  /** The session's one current goal. */
  ghost predicate IsOnlyCurrent(goals: map<nat, Goal>, session: SessionId, goal: nat) {
    forall id :: (id in goals && goals[id].session == session && IsCurrent(goals[id].status)) <==> id == goal
  }

  lemma OnlyCurrent(l: Ledger, req: GoalRequest, now: int)
    requires ValidRequest(req)
    ensures IsOnlyCurrent(ReplaceGoal(l, req, now).value.0.goals, req.session.value, l.nextId)
  {
  }

  lemma VerifiedSoFar(l: Ledger, ids: seq<nat>, id: nat)
    ensures HasVerified(l, ids + [id]) <==>
              HasVerified(l, ids) || (FindEvidence(l.evidence, id).Some? && FindEvidence(l.evidence, id).value.verified)
  {
    var more := ids + [id];
    if HasVerified(l, ids) {
      var k :| 0 <= k < |ids| && FindEvidence(l.evidence, ids[k]).Some?
        && FindEvidence(l.evidence, ids[k]).value.verified;
      assert more[k] == ids[k];
    }
    if HasVerified(l, more) {
      var k :| 0 <= k < |more| && FindEvidence(l.evidence, more[k]).Some?
        && FindEvidence(l.evidence, more[k]).value.verified;
      assert k < |ids| ==> more[k] == ids[k];
    }
    assert more[|ids|] == id;
  }

  lemma {:induction false} EvidenceIsFound(rows: seq<Evidence>, k: nat)
    requires k < |rows|
    ensures FindEvidence(rows, rows[k].id).Some?
  {
    if k > 0 {
      EvidenceIsFound(rows[1..], k - 1);
    }
  }
}

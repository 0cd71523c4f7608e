/** The research-goal ledger: goals, claims, criteria, evidence and audits. */
module Goals {
  import opened Domain

  datatype GoalStatus =
    | Active
    | Paused
    | WaitingUser
    | NeedsRefresh
    | InsufficientEvidence
    | ComplianceBlocked
    | Blocked
    | BudgetLimited
    | UsageLimited
    | Complete
    | GoalCancelled
    | Superseded

  predicate IsCurrent(status: GoalStatus) {
    status in {Active, Paused, WaitingUser, NeedsRefresh, InsufficientEvidence, ComplianceBlocked, BudgetLimited}
  }

  /** Statuses that stamp a completion time. */
  predicate IsFinished(status: GoalStatus) {
    status in {Complete, Blocked, GoalCancelled, Superseded, UsageLimited}
  }

  datatype CriterionStatus =
    | Pending
    | Covered
    | Satisfied
    | SatisfiedWithCaveat
    | NotApplicableAccepted
    | Other(text: string)

  predicate IsCompletionResult(status: CriterionStatus) {
    status in {Satisfied, SatisfiedWithCaveat, NotApplicableAccepted}
  }

  const OPEN_TEXTS: set<string> := {"", "open", "unsatisfied", "missing", "stale", "too_weak"}

  predicate IsOpenStatus(status: CriterionStatus) {
    status == Pending || (status.Other? && status.text in OPEN_TEXTS)
  }

  /** Sessions are normalised texts; a blank one is None. */
  type SessionId = nat

  datatype Goal = Goal(
    session: SessionId,
    status: GoalStatus,
    tokenBudget: Option<int>,
    turnBudget: Option<int>,
    timeBudget: Option<int>,
    tokensUsed: int,
    turnsUsed: int,
    timeUsed: int,
    completed: bool,
    updatedAt: int)

  datatype Criterion = Criterion(goal: nat, session: SessionId, required: bool, status: CriterionStatus)

  datatype Claim = Claim(goal: nat, session: SessionId)

  datatype Evidence = Evidence(id: nat, goal: nat, session: SessionId, criterion: Option<nat>, verified: bool)

  datatype AuditRow = AuditRow(criterion: nat, result: CriterionStatus, evidenceIds: seq<nat>, notesBlank: bool)

  datatype Audit = Audit(goal: nat, session: SessionId, result: GoalStatus, rows: seq<AuditRow>)

  /** Goals, claims and criteria by id; evidence and audits in the order written;
      every id below `nextId` may be taken. */
  datatype Ledger = Ledger(
    goals: map<nat, Goal>,
    claims: map<nat, Claim>,
    criteria: map<nat, Criterion>,
    evidence: seq<Evidence>,
    audits: seq<Audit>,
    nextId: nat)

  datatype GoalError =
    | InvalidRequest
    | StaleGoal
    | UnknownCriterion
    | UnknownClaim
    | AuditRejected

  datatype GoalResult<+T> = Accepted(value: T) | Rejected(error: GoalError)

  // ---- creating a goal -------------------------------------------------------------------------

  /** A text after stripping: empty, fine, or asking for live execution. */
  datatype Text = BlankText | ResearchText | ExecutionText

  datatype GoalRequest = GoalRequest(
    session: Option<SessionId>,
    objective: Text,
    liveTier: bool,
    criteria: seq<Text>,
    tokenBudget: Option<int>,
    turnBudget: Option<int>,
    timeBudget: Option<int>)

  function Cleaned(texts: seq<Text>): seq<Text> {
    if texts == [] then []
    else
      var earlier, last := Cleaned(texts[..|texts| - 1]), texts[|texts| - 1];
      if last == BlankText then earlier else earlier + [last]
  }

  predicate PositiveBudget(budget: Option<int>) {
    budget.Some? ==> budget.value > 0
  }

  predicate ValidRequest(req: GoalRequest) {
    && req.session.Some?
    && req.objective == ResearchText && !req.liveTier
    && Cleaned(req.criteria) != []
    && (forall k :: 0 <= k < |Cleaned(req.criteria)| ==> Cleaned(req.criteria)[k] != ExecutionText)
    && PositiveBudget(req.tokenBudget) && PositiveBudget(req.turnBudget) && PositiveBudget(req.timeBudget)
  }

  /** End every current goal of the session. */
  function Supersede(goals: map<nat, Goal>, session: SessionId, now: int): map<nat, Goal> {
    map id | id in goals ::
      if goals[id].session == session && IsCurrent(goals[id].status) then
        goals[id].(status := Superseded, updatedAt := now, completed := true)
      else goals[id]
  }

  function AddCriteria(criteria: map<nat, Criterion>, goal: nat, session: SessionId, first: nat, count: nat)
    : map<nat, Criterion>
  {
    if count == 0 then criteria
    else AddCriteria(criteria, goal, session, first, count - 1)
         [first + count - 1 := Criterion(goal, session, true, Pending)]
  }

  function ReplaceGoal(l: Ledger, req: GoalRequest, now: int): GoalResult<(Ledger, nat)> {
    if !ValidRequest(req) then Rejected(InvalidRequest)
    else
      var id, session, count := l.nextId, req.session.value, |Cleaned(req.criteria)|;
      var goal := Goal(session, Active, req.tokenBudget, req.turnBudget, req.timeBudget, 0, 0, 0, false, now);
      Accepted((l.(goals := Supersede(l.goals, session, now)[id := goal],
                   claims := l.claims[id + 1 := Claim(id, session)],
                   criteria := AddCriteria(l.criteria, id, session, id + 2, count),
                   nextId := id + 2 + count),
                id))
  }

  // ---- changing a goal -----------------------------------------------------------------------------

  /** A caller's view of the goal it means to change. */
  datatype Target = Target(session: Option<SessionId>, goal: nat, expected: nat)

  /** No current goal of the session was touched later. */
  predicate IsNewest(goals: map<nat, Goal>, id: nat)
    requires id in goals
  {
    forall other ::
      (other in goals && goals[other].session == goals[id].session && IsCurrent(goals[other].status)) ==>
        goals[other].updatedAt <= goals[id].updatedAt
  }

  predicate IsMutable(l: Ledger, t: Target) {
    && t.expected == t.goal
    && t.session.Some? && t.goal in l.goals
    && l.goals[t.goal].session == t.session.value
    && IsCurrent(l.goals[t.goal].status)
    && IsNewest(l.goals, t.goal)
  }

  /** What an artifact path leads to: whether a file is there, its digest if it can be
      read, and the digest the caller names for it. */
  datatype Artifact = Artifact(isFile: bool, digest: Option<string>, expected: Option<string>)

  datatype EvidenceInput = EvidenceInput(
    blank: bool,
    criterion: Option<nat>,
    claim: Option<nat>,
    artifact: Option<Artifact>,
    runExists: bool)

  predicate DigestMatches(a: Artifact) {
    a.expected.Some? && a.digest == a.expected
  }

  /** Evidence is verified by an artifact that matches its digest, or by a run. */
  predicate IsTraced(input: EvidenceInput) {
    || (input.artifact.Some? && input.artifact.value.isFile && DigestMatches(input.artifact.value))
    || input.runExists
  }

  /** The status update that evidence for a criterion triggers. */
  function CoverCriterion(criteria: map<nat, Criterion>, id: nat): map<nat, Criterion>
    requires id in criteria
  {
    var c := criteria[id];
    if c.status == Pending || (c.status.Other? && c.status.text in {"open", "unsatisfied"}) then
      criteria[id := c.(status := Covered)]
    else criteria
  }

  function AppendEvidence(l: Ledger, t: Target, input: EvidenceInput): GoalResult<(Ledger, nat)> {
    if !IsMutable(l, t) then Rejected(StaleGoal)
    else if input.blank then Rejected(InvalidRequest)
    else if input.criterion.Some?
      && !(input.criterion.value in l.criteria && l.criteria[input.criterion.value].goal == t.goal) then
      Rejected(UnknownCriterion)
    else if input.claim.Some? && !(input.claim.value in l.claims && l.claims[input.claim.value].goal == t.goal) then
      Rejected(UnknownClaim)
    else
      var row := Evidence(l.nextId, t.goal, t.session.value, input.criterion, IsTraced(input));
      Accepted((l.(evidence := l.evidence + [row],
                   criteria := if input.criterion.Some? then CoverCriterion(l.criteria, input.criterion.value)
                     else l.criteria,
                   nextId := l.nextId + 1),
                row.id))
  }

  // ---- completing a goal ------------------------------------------------------------------------------

  /** The row that counts for a criterion: the last one that names it. */
  function LastRow(rows: seq<AuditRow>, criterion: nat): Option<AuditRow> {
    if rows == [] then None
    else if rows[|rows| - 1].criterion == criterion then Some(rows[|rows| - 1])
    else LastRow(rows[..|rows| - 1], criterion)
  }

  /** The evidence row with this id, if any. */
  function FindEvidence(evidence: seq<Evidence>, id: nat): (r: Option<Evidence>)
    ensures r.Some? ==> r.value in evidence && r.value.id == id
  {
    if evidence == [] then None
    else if evidence[0].id == id then Some(evidence[0])
    else FindEvidence(evidence[1..], id)
  }

  predicate EvidenceMatches(l: Ledger, goal: nat, criterion: nat, id: nat) {
    var e := FindEvidence(l.evidence, id);
    e.Some? && e.value.goal == goal && e.value.criterion == Some(criterion)
  }

  predicate HasVerified(l: Ledger, ids: seq<nat>) {
    exists k :: 0 <= k < |ids| && FindEvidence(l.evidence, ids[k]).Some?
      && FindEvidence(l.evidence, ids[k]).value.verified
  }

  /** An audit row that settles a criterion. */
  predicate RowAccepted(l: Ledger, goal: nat, criterion: nat, row: AuditRow) {
    && IsCompletionResult(row.result)
    && (row.result == NotApplicableAccepted ==> !row.notesBlank)
    && (forall k :: 0 <= k < |row.evidenceIds| ==> EvidenceMatches(l, goal, criterion, row.evidenceIds[k]))
    && (row.result in {Satisfied, SatisfiedWithCaveat} ==> row.evidenceIds != [] && HasVerified(l, row.evidenceIds))
  }

  predicate AuditAccepted(l: Ledger, goal: nat, rows: seq<AuditRow>) {
    forall c :: c in l.criteria && l.criteria[c].goal == goal && l.criteria[c].required ==>
      LastRow(rows, c).Some? && RowAccepted(l, goal, c, LastRow(rows, c).value)
  }

  /** Write the rows' results one after the other. */
  function ApplyAudit(criteria: map<nat, Criterion>, goal: nat, session: SessionId, rows: seq<AuditRow>)
    : map<nat, Criterion>
  {
    if rows == [] then criteria
    else
      var done := ApplyAudit(criteria, goal, session, rows[..|rows| - 1]);
      var row := rows[|rows| - 1];
      if row.criterion in done && done[row.criterion].goal == goal && done[row.criterion].session == session then
        done[row.criterion := done[row.criterion].(status := row.result)]
      else done
  }

  function UpdateStatus(l: Ledger, t: Target, status: GoalStatus, rows: seq<AuditRow>, now: int): GoalResult<Ledger> {
    if !IsMutable(l, t) then Rejected(StaleGoal)
    else if status == Complete && !AuditAccepted(l, t.goal, rows) then Rejected(AuditRejected)
    else
      var goal, session := l.goals[t.goal], t.session.value;
      Accepted(l.(goals := l.goals[t.goal := goal.(status := status, updatedAt := now,
                                                   completed := goal.completed || IsFinished(status))],
                  audits := if rows == [] then l.audits else l.audits + [Audit(t.goal, session, status, rows)],
                  criteria := if status == Complete then ApplyAudit(l.criteria, t.goal, session, rows) else l.criteria))
  }

  // ---- usage and deletion -----------------------------------------------------------------------------

  datatype Usage = Usage(tokens: int, turns: int, time: int)

  predicate Reaches(budget: Option<int>, used: int) {
    budget.Some? && used >= budget.value
  }

  function AccountUsage(l: Ledger, t: Target, usage: Usage, now: int): GoalResult<Ledger> {
    if usage.tokens < 0 || usage.turns < 0 || usage.time < 0 then Rejected(InvalidRequest)
    else if !IsMutable(l, t) then Rejected(StaleGoal)
    else
      var g := l.goals[t.goal];
      var g' := g.(tokensUsed := g.tokensUsed + usage.tokens, turnsUsed := g.turnsUsed + usage.turns,
                   timeUsed := g.timeUsed + usage.time, updatedAt := now);
      var crossed := Reaches(g.tokenBudget, g'.tokensUsed) || Reaches(g.turnBudget, g'.turnsUsed)
                     || Reaches(g.timeBudget, g'.timeUsed);
      Accepted(l.(goals := l.goals[t.goal := if crossed then g'.(status := BudgetLimited) else g']))
  }

  function KeepEvidence(rows: seq<Evidence>, session: SessionId): (kept: seq<Evidence>)
    ensures forall e :: e in kept <==> e in rows && e.session != session
  {
    if rows == [] then []
    else
      var earlier, last := KeepEvidence(rows[..|rows| - 1], session), rows[|rows| - 1];
      assert forall e :: e in rows <==> e in rows[..|rows| - 1] || e == last;
      if last.session == session then earlier else earlier + [last]
  }

  function KeepAudits(rows: seq<Audit>, session: SessionId): (kept: seq<Audit>)
    ensures forall a :: a in kept <==> a in rows && a.session != session
  {
    if rows == [] then []
    else
      var earlier, last := KeepAudits(rows[..|rows| - 1], session), rows[|rows| - 1];
      assert forall a :: a in rows <==> a in rows[..|rows| - 1] || a == last;
      if last.session == session then earlier else earlier + [last]
  }

  function DeleteSession(l: Ledger, session: SessionId): Ledger {
    l.(goals := map id | id in l.goals && l.goals[id].session != session :: l.goals[id],
       claims := map id | id in l.claims && l.claims[id].session != session :: l.claims[id],
       criteria := map id | id in l.criteria && l.criteria[id].session != session :: l.criteria[id],
       evidence := KeepEvidence(l.evidence, session),
       audits := KeepAudits(l.audits, session))
  }

  // ---- reading ---------------------------------------------------------------------------------------

  /** The goal's evidence, oldest first. */
  function EvidenceOf(rows: seq<Evidence>, goal: nat): (r: seq<Evidence>)
    ensures forall e :: e in r <==> e in rows && e.goal == goal
  {
    if rows == [] then []
    else
      var earlier, last := EvidenceOf(rows[..|rows| - 1], goal), rows[|rows| - 1];
      assert forall e :: e in rows <==> e in rows[..|rows| - 1] || e == last;
      if last.goal == goal then earlier + [last] else earlier
  }

  /** The most recent rows, at most `limit` of them. */
  function ListEvidence(l: Ledger, goal: nat, limit: Option<int>): GoalResult<seq<Evidence>> {
    var all := EvidenceOf(l.evidence, goal);
    if limit.None? then Accepted(all)
    else if limit.value <= 0 then Rejected(InvalidRequest)
    else if limit.value >= |all| then Accepted(all)
    else Accepted(all[|all| - limit.value..])
  }

  /** What the prompt builder sees of a goal. */
  datatype Snapshot = Snapshot(
    goal: Goal,
    criteria: map<nat, Criterion>,
    evidence: seq<Evidence>,
    evidenceCount: nat)

  function GoalSnapshot(l: Ledger, goal: nat, limit: Option<int>): GoalResult<Option<Snapshot>> {
    if goal !in l.goals then Accepted(None)
    else
      match ListEvidence(l, goal, limit)
      case Rejected(e) => Rejected(e)
      case Accepted(window) =>
        Accepted(Some(Snapshot(l.goals[goal],
                               map c | c in l.criteria && l.criteria[c].goal == goal :: l.criteria[c],
                               window,
                               |EvidenceOf(l.evidence, goal)|)))
  }

  predicate IsCovered(snapshot: Snapshot, criterion: nat)
    requires criterion in snapshot.criteria
  {
    || !IsOpenStatus(snapshot.criteria[criterion].status)
    || exists k :: 0 <= k < |snapshot.evidence| && snapshot.evidence[k].criterion == Some(criterion)
  }

  function CoveredSet(snapshot: Snapshot): set<nat> {
    set c | c in snapshot.criteria && IsCovered(snapshot, c)
  }

  /** Covered criteria, then evidence rows. */
  function Progress(snapshot: Snapshot): (nat, nat) {
    (|CoveredSet(snapshot)|,
     if snapshot.evidenceCount != 0 then snapshot.evidenceCount else |snapshot.evidence|)
  }

  predicate Less(p: (nat, nat), q: (nat, nat)) {
    p.0 < q.0 || (p.0 == q.0 && p.1 < q.1)
  }
}

/** What each call of the goal store does to the ledger, and what every row of a
    reachable ledger goes back to. */
module GoalCalls {
  import opened Domain
  import opened Goals
  import opened GoalRuns

  // ---- replacing ------------------------------------------------------------------------------

  /** A session, a research objective below the live tier, criteria that are not all blank
      and none of which asks for execution, and budgets above zero. */
  ghost predicate Acceptable(req: GoalRequest) {
    && req.session.Some? && req.objective == ResearchText && !req.liveTier
    && (exists k :: 0 <= k < |req.criteria| && req.criteria[k] != BlankText)
    && (forall k :: 0 <= k < |req.criteria| ==> req.criteria[k] != ExecutionText)
    && (req.tokenBudget.Some? ==> req.tokenBudget.value > 0)
    && (req.turnBudget.Some? ==> req.turnBudget.value > 0)
    && (req.timeBudget.Some? ==> req.timeBudget.value > 0)
  }

  ghost function Stated(texts: seq<Text>): set<nat> {
    set k: nat | k < |texts| && texts[k] != BlankText
  }

  lemma CleanedPush(texts: seq<Text>, last: Text)
    ensures Cleaned(texts + [last]) == if last == BlankText then Cleaned(texts) else Cleaned(texts) + [last]
    ensures |Stated(texts + [last])| == |Stated(texts)| + (if last == BlankText then 0 else 1)
  {
    var all := texts + [last];
    assert all[..|texts|] == texts && all[|texts|] == last;
    assert forall k :: 0 <= k < |texts| ==> all[k] == texts[k];
    assert |texts| !in Stated(texts);
    assert Stated(all) == Stated(texts) + (if last == BlankText then {} else {|texts|});
  }

  /** Cleaning keeps the texts that are not blank, each as often as it stands there. */
  lemma {:induction false} CleanedIs(texts: seq<Text>)
    ensures forall t :: t in Cleaned(texts) <==> t in texts && t != BlankText
    ensures |Cleaned(texts)| == |Stated(texts)|
  {
    if texts == [] {
      assert Stated(texts) == {};
    } else {
      var before, last := texts[..|texts| - 1], texts[|texts| - 1];
      assert texts == before + [last];
      CleanedIs(before);
      CleanedPush(before, last);
      assert forall t :: t in texts <==> t in before || t == last;
    }
  }

  lemma AcceptableIff(req: GoalRequest)
    ensures ValidRequest(req) <==> Acceptable(req)
  {
    CleanedIs(req.criteria);
    var cleaned := Cleaned(req.criteria);
    if cleaned != [] {
      assert cleaned[0] in cleaned && cleaned[0] in req.criteria;
    }
    if k :| 0 <= k < |req.criteria| && req.criteria[k] != BlankText {
      assert req.criteria[k] in cleaned;
    }
    if k :| 0 <= k < |req.criteria| && req.criteria[k] == ExecutionText {
      assert ExecutionText in cleaned;
    }
    if k :| 0 <= k < |cleaned| && cleaned[k] == ExecutionText {
      assert ExecutionText in req.criteria;
    }
  }

  /** The new goal is active with the requested budgets and nothing used, one claim and one
      pending criterion for each text; the session's current goals are superseded; nothing
      else changes. */
  ghost predicate Starts(l: Ledger, l': Ledger, req: GoalRequest, now: int, id: nat)
    requires req.session.Some?
  {
    var session, count := req.session.value, |Stated(req.criteria)|;
    && id == l.nextId && l'.nextId == id + 2 + count
    && l'.goals.Keys == l.goals.Keys + {id}
    && l'.goals[id] == Goal(session, Active, req.tokenBudget, req.turnBudget, req.timeBudget, 0, 0, 0, false, now)
    && (forall g :: g in l.goals && g != id ==>
          l'.goals[g] == if l.goals[g].session == session && IsCurrent(l.goals[g].status)
                         then l.goals[g].(status := Superseded, updatedAt := now, completed := true) else l.goals[g])
    && l'.claims == l.claims[id + 1 := Claim(id, session)]
    && (forall c :: c in l'.criteria <==> c in l.criteria || id + 2 <= c < id + 2 + count)
    && (forall c :: c in l'.criteria ==>
          l'.criteria[c] == if id + 2 <= c < id + 2 + count then Criterion(id, session, true, Pending)
                            else l.criteria[c])
    && l'.evidence == l.evidence && l'.audits == l.audits
  }

  lemma ReplaceStarts(l: Ledger, req: GoalRequest, now: int)
    ensures ReplaceGoal(l, req, now).Accepted? <==> Acceptable(req)
    ensures Acceptable(req) ==>
              Starts(l, ReplaceGoal(l, req, now).value.0, req, now, ReplaceGoal(l, req, now).value.1)
  {
    AcceptableIff(req);
    CleanedIs(req.criteria);
    if Acceptable(req) {
      AddCriteriaFacts(l.criteria, l.nextId, req.session.value, l.nextId + 2, |Cleaned(req.criteria)|);
    }
  }

  // ---- which goals may be changed ---------------------------------------------------------------

  /** The caller means the goal it names, and the goal is the session's own and has not ended;
      that it is also the latest goes without saying, as there is only one. */
  lemma MutableIff(l: Ledger, t: Target)
    requires LedgerOk(l)
    ensures IsMutable(l, t)
            <==> && t.expected == t.goal && t.goal in l.goals && t.session == Some(l.goals[t.goal].session)
                 && l.goals[t.goal].status !in {Complete, Blocked, GoalCancelled, Superseded, UsageLimited}
  {
    if t.goal in l.goals {
      CurrentIs(l.goals[t.goal].status);
    }
  }

  // ---- appending evidence -----------------------------------------------------------------------

  /** Why an append is refused, the first reason that holds; none if it is accepted. */
  function AppendRefusal(l: Ledger, t: Target, input: EvidenceInput): Option<GoalError> {
    if !IsMutable(l, t) then Some(StaleGoal)
    else if input.blank then Some(InvalidRequest)
    else
      match (input.criterion, input.claim)
      case (Some(c), _) =>
        if c !in l.criteria || l.criteria[c].goal != t.goal then Some(UnknownCriterion)
        else ClaimRefusal(l, t.goal, input.claim)
      case (None, claim) => ClaimRefusal(l, t.goal, claim)
  }

  function ClaimRefusal(l: Ledger, goal: nat, claim: Option<nat>): Option<GoalError> {
    if claim.Some? && !(claim.value in l.claims && l.claims[claim.value].goal == goal) then Some(UnknownClaim) else None
  }

  /** One row is added behind the others: for the target's goal and session, with the
      input's criterion, verified if and only if a matching artifact or a run backs it.  The
      criterion it names is covered if it was open; nothing else changes. */
  ghost predicate Appends(l: Ledger, l': Ledger, t: Target, input: EvidenceInput, id: nat)
    requires t.session.Some?
  {
    && id == l.nextId && l'.nextId == id + 1
    && |l'.evidence| == |l.evidence| + 1 && l'.evidence[..|l.evidence|] == l.evidence
    && WrittenAs(l'.evidence[|l.evidence|], t, input) && l'.evidence[|l.evidence|].id == id
    && l'.goals == l.goals && l'.claims == l.claims && l'.audits == l.audits
    && l'.criteria.Keys == l.criteria.Keys
    && forall c :: c in l.criteria ==>
         l'.criteria[c] == if input.criterion == Some(c) && WasOpen(l.criteria[c].status)
                           then l.criteria[c].(status := Covered) else l.criteria[c]
  }

  predicate WasOpen(status: CriterionStatus) {
    status == Pending || status == Other("open") || status == Other("unsatisfied")
  }

  /** The row is what this input is written down as. */
  predicate WrittenAs(e: Evidence, t: Target, input: EvidenceInput) {
    && e.goal == t.goal && Some(e.session) == t.session && e.criterion == input.criterion
    && (e.verified <==>
          || input.runExists
          || (input.artifact.Some? && input.artifact.value.isFile && input.artifact.value.digest.Some?
              && input.artifact.value.digest == input.artifact.value.expected))
  }

  lemma AppendWrites(l: Ledger, t: Target, input: EvidenceInput)
    ensures
      match AppendEvidence(l, t, input)
      case Rejected(error) => AppendRefusal(l, t, input) == Some(error)
      case Accepted((l', id)) => AppendRefusal(l, t, input) == None && t.session.Some? && Appends(l, l', t, input, id)
  {
  }

  // ---- evidence in runs ---------------------------------------------------------------------------

  /** Step `j` was an accepted append, and wrote this row. */
  ghost predicate Wrote(ledgers: seq<Ledger>, steps: seq<GoalStep>, j: nat, e: Evidence)
    requires j < |steps| < |ledgers|
  {
    && steps[j].Append? && AppendRefusal(ledgers[j], steps[j].target, steps[j].input).None?
    && WrittenAs(e, steps[j].target, steps[j].input) && e.id == ledgers[j].nextId
    && ledgers[j + 1].evidence == ledgers[j].evidence + [e]
  }

  /** A step adds no row but the one it writes. */
  lemma StepWrites(ledgers: seq<Ledger>, steps: seq<GoalStep>, j: nat, e: Evidence)
    requires IsGoalRun(ledgers, steps) && j < |steps|
    requires e in ledgers[j + 1].evidence && e !in ledgers[j].evidence
    ensures Wrote(ledgers, steps, j, e)
  {
    var l, l' := ledgers[j], ledgers[j + 1];
    assert l' == Apply(l, steps[j]);
    if steps[j].Append? {
      AppendWrites(l, steps[j].target, steps[j].input);
      assert l'.evidence == l'.evidence[..|l.evidence|] + [l'.evidence[|l.evidence|]];
    }
  }

  /** Every evidence row of a reachable ledger was written by an accepted append, for the
      goal, session and criterion it named, as verified if and only if its input was. */
  lemma {:induction false} EvidenceTheorem(ledgers: seq<Ledger>, steps: seq<GoalStep>, i: nat, e: Evidence)
    returns (j: nat)
    requires IsGoalRun(ledgers, steps) && i < |ledgers| && e in ledgers[i].evidence
    ensures j < i && Wrote(ledgers, steps, j, e)
  {
    if e in ledgers[i - 1].evidence {
      j := EvidenceTheorem(ledgers, steps, i - 1, e);
    } else {
      j := i - 1;
      StepWrites(ledgers, steps, j, e);
    }
  }

  /** Every criterion of a complete goal was waived with notes, or some earlier append backed
      it by a matching artifact or a run. */
  lemma CompletionIsTraced(ledgers: seq<Ledger>, steps: seq<GoalStep>, i: nat, c: nat)
    requires IsGoalRun(ledgers, steps) && i < |ledgers|
    requires c in ledgers[i].criteria && ledgers[i].criteria[c].goal in ledgers[i].goals
    requires ledgers[i].goals[ledgers[i].criteria[c].goal].status == Complete
    ensures
      || HasWaiver(ledgers[i].audits, ledgers[i].criteria[c].goal, c)
      || exists j ::
           && 0 <= j < i && steps[j].Append? && AppendRefusal(ledgers[j], steps[j].target, steps[j].input).None?
           && steps[j].target.goal == ledgers[i].criteria[c].goal && steps[j].input.criterion == Some(c)
           && IsTraced(steps[j].input)
  {
    CompletionTheorem(ledgers, steps, i, c);
    var goal := ledgers[i].criteria[c].goal;
    if e :| e in ledgers[i].evidence && e.goal == goal && e.criterion == Some(c) && e.verified {
      var j := EvidenceTheorem(ledgers, steps, i, e);
      assert steps[j].Append? && IsTraced(steps[j].input);
    }
  }

  ghost predicate Ordered(rows: seq<Evidence>) {
    forall j, k :: 0 <= j < k < |rows| ==> rows[j].id < rows[k].id
  }

  ghost predicate IdsUnder(rows: seq<Evidence>, bound: nat) {
    forall k :: 0 <= k < |rows| ==> rows[k].id < bound
  }

  /** Ids of evidence rise from row to row, and stay below the next free one. */
  ghost predicate EvidenceIdsOk(l: Ledger) {
    IdsUnder(l.evidence, l.nextId) && Ordered(l.evidence)
  }

  lemma OrderedPush(rows: seq<Evidence>, e: Evidence)
    requires Ordered(rows) && forall k :: 0 <= k < |rows| ==> rows[k].id < e.id
    ensures Ordered(rows + [e])
  {
  }

  lemma {:induction false} KeptIds(rows: seq<Evidence>, session: SessionId, bound: nat)
    requires Ordered(rows) && IdsUnder(rows, bound)
    ensures Ordered(KeepEvidence(rows, session)) && IdsUnder(KeepEvidence(rows, session), bound)
  {
    if rows != [] {
      var before, last := rows[..|rows| - 1], rows[|rows| - 1];
      KeptIds(before, session, bound);
      var kept := KeepEvidence(before, session);
      forall k | 0 <= k < |kept|
        ensures kept[k].id < last.id
      {
        assert kept[k] in before;
      }
      OrderedPush(kept, last);
    }
  }

  lemma StepKeepsIds(l: Ledger, step: GoalStep)
    requires EvidenceIdsOk(l)
    ensures EvidenceIdsOk(Apply(l, step))
  {
    match step
    case Append(t, input) => AppendKeepsIds(l, t, input);
    case Delete(session) => KeptIds(l.evidence, session, l.nextId);
    case _ => OtherKeepsEvidence(l, step);
  }

  lemma OtherKeepsEvidence(l: Ledger, step: GoalStep)
    requires !step.Append? && !step.Delete?
    ensures Apply(l, step).evidence == l.evidence && Apply(l, step).nextId >= l.nextId
  {
  }

  lemma AppendKeepsIds(l: Ledger, t: Target, input: EvidenceInput)
    requires EvidenceIdsOk(l)
    ensures EvidenceIdsOk(Apply(l, Append(t, input)))
  {
    AppendWrites(l, t, input);
    if AppendEvidence(l, t, input).Accepted? {
      var l' := AppendEvidence(l, t, input).value.0;
      OrderedPush(l.evidence, l'.evidence[|l.evidence|]);
      assert l'.evidence == l'.evidence[..|l.evidence|] + [l'.evidence[|l.evidence|]];
    }
  }

  lemma {:induction false} EvidenceIdsAreUnique(ledgers: seq<Ledger>, steps: seq<GoalStep>, i: nat)
    requires IsGoalRun(ledgers, steps) && i < |ledgers|
    ensures EvidenceIdsOk(ledgers[i])
  {
    if i > 0 {
      EvidenceIdsAreUnique(ledgers, steps, i - 1);
      StepKeepsIds(ledgers[i - 1], steps[i - 1]);
    }
  }

  // ---- what settles a criterion ---------------------------------------------------------------------

  /** The row with this id: found if there is one, as ids are unique. */
  lemma {:induction false} FindIs(rows: seq<Evidence>, id: nat, k: nat)
    requires Ordered(rows) && k < |rows| && rows[k].id == id
    ensures FindEvidence(rows, id) == Some(rows[k])
  {
    if k > 0 {
      FindIs(rows[1..], id, k - 1);
    }
  }

  /** Some evidence row has the id, and is of this goal and criterion. */
  ghost predicate Backs(rows: seq<Evidence>, goal: nat, c: nat, id: nat) {
    exists e :: e in rows && e.id == id && e.goal == goal && e.criterion == Some(c)
  }

  ghost predicate BacksVerified(rows: seq<Evidence>, id: nat) {
    exists e :: e in rows && e.id == id && e.verified
  }

  /** Every evidence id of the row is of the goal and criterion; and the row either says not
      applicable, with notes, or satisfied, with a verified one among them. */
  ghost predicate Settles(l: Ledger, goal: nat, c: nat, row: AuditRow) {
    && (forall k :: 0 <= k < |row.evidenceIds| ==> Backs(l.evidence, goal, c, row.evidenceIds[k]))
    && match row.result
       case NotApplicableAccepted => !row.notesBlank
       case Satisfied => exists k :: 0 <= k < |row.evidenceIds| && BacksVerified(l.evidence, row.evidenceIds[k])
       case SatisfiedWithCaveat =>
         exists k :: 0 <= k < |row.evidenceIds| && BacksVerified(l.evidence, row.evidenceIds[k])
       case _ => false
  }

  lemma BacksIff(l: Ledger, goal: nat, c: nat, id: nat)
    requires EvidenceIdsOk(l)
    ensures EvidenceMatches(l, goal, c, id) <==> Backs(l.evidence, goal, c, id)
    ensures FindEvidence(l.evidence, id).Some? && FindEvidence(l.evidence, id).value.verified
            <==> BacksVerified(l.evidence, id)
  {
    forall e | e in l.evidence && e.id == id
      ensures FindEvidence(l.evidence, id) == Some(e)
    {
      var k :| 0 <= k < |l.evidence| && l.evidence[k] == e;
      FindIs(l.evidence, id, k);
    }
  }

  lemma RowAcceptedIff(l: Ledger, goal: nat, c: nat, row: AuditRow)
    requires EvidenceIdsOk(l)
    ensures RowAccepted(l, goal, c, row) <==> Settles(l, goal, c, row)
  {
    forall k | 0 <= k < |row.evidenceIds|
      ensures EvidenceMatches(l, goal, c, row.evidenceIds[k]) <==> Backs(l.evidence, goal, c, row.evidenceIds[k])
      ensures FindEvidence(l.evidence, row.evidenceIds[k]).Some?
              && FindEvidence(l.evidence, row.evidenceIds[k]).value.verified
              <==> BacksVerified(l.evidence, row.evidenceIds[k])
    {
      BacksIff(l, goal, c, row.evidenceIds[k]);
    }
  }

  /** Row `k` is the last of the rows that name the criterion. */
  predicate Decides(rows: seq<AuditRow>, c: nat, k: nat) {
    k < |rows| && rows[k].criterion == c && forall j :: k < j < |rows| ==> rows[j].criterion != c
  }

  lemma DecidesPush(rows: seq<AuditRow>, last: AuditRow, c: nat, k: nat)
    ensures Decides(rows + [last], c, k)
            <==> if last.criterion == c then k == |rows| else Decides(rows, c, k)
  {
    var all := rows + [last];
    assert all[|rows|] == last;
    assert forall j :: 0 <= j < |rows| ==> all[j] == rows[j];
  }

  lemma {:induction false} LastRowIs(rows: seq<AuditRow>, c: nat)
    ensures LastRow(rows, c).None? <==> forall k :: 0 <= k < |rows| ==> rows[k].criterion != c
    ensures forall k: nat :: Decides(rows, c, k) ==> LastRow(rows, c) == Some(rows[k])
    ensures LastRow(rows, c).Some? ==> exists k: nat :: Decides(rows, c, k)
  {
    if rows != [] {
      var before, last := rows[..|rows| - 1], rows[|rows| - 1];
      LastRowIs(before, c);
      assert rows == before + [last];
      forall k: nat
        ensures Decides(rows, c, k) <==> if last.criterion == c then k == |before| else Decides(before, c, k)
      {
        DecidesPush(before, last, c, k);
      }
      assert last.criterion == c ==> Decides(rows, c, |before|);
    }
  }

  /** Each required criterion of the goal has a deciding row, which settles it. */
  ghost predicate AllSettled(l: Ledger, goal: nat, rows: seq<AuditRow>) {
    forall c :: c in l.criteria && l.criteria[c].goal == goal && l.criteria[c].required ==>
      exists k: nat :: Decides(rows, c, k) && Settles(l, goal, c, rows[k])
  }

  lemma AuditAcceptedIff(l: Ledger, goal: nat, rows: seq<AuditRow>)
    requires EvidenceIdsOk(l)
    ensures AuditAccepted(l, goal, rows) <==> AllSettled(l, goal, rows)
  {
    forall c | c in l.criteria && l.criteria[c].goal == goal && l.criteria[c].required
      ensures (LastRow(rows, c).Some? && RowAccepted(l, goal, c, LastRow(rows, c).value))
              <==> exists k: nat :: Decides(rows, c, k) && Settles(l, goal, c, rows[k])
    {
      CriterionSettledIff(l, goal, rows, c);
    }
  }

  lemma CriterionSettledIff(l: Ledger, goal: nat, rows: seq<AuditRow>, c: nat)
    requires EvidenceIdsOk(l)
    ensures (LastRow(rows, c).Some? && RowAccepted(l, goal, c, LastRow(rows, c).value))
            <==> exists k: nat :: Decides(rows, c, k) && Settles(l, goal, c, rows[k])
  {
    LastRowIs(rows, c);
    if k: nat :| Decides(rows, c, k) {
      RowAcceptedIff(l, goal, c, rows[k]);
      forall j: nat | Decides(rows, c, j) ensures j == k {}
    }
  }

  // ---- status ---------------------------------------------------------------------------------------

  /** The goal takes the status, and a completion time with an end status if it has none; an
      audit that is not empty is filed; with completion each criterion that a row decides
      takes that row's result; nothing else changes. */
  ghost predicate Updates(l: Ledger, l': Ledger, t: Target, status: GoalStatus, rows: seq<AuditRow>, now: int)
    requires t.session.Some? && t.goal in l.goals
  {
    var goal := l.goals[t.goal];
    && l'.goals == l.goals[t.goal := goal.(status := status, updatedAt := now,
                                           completed := goal.completed || IsFinished(status))]
    && l'.audits == (if rows == [] then l.audits else l.audits + [Audit(t.goal, t.session.value, status, rows)])
    && l'.evidence == l.evidence && l'.claims == l.claims && l'.nextId == l.nextId
    && l'.criteria.Keys == l.criteria.Keys
    && (forall c :: c in l.criteria ==> l'.criteria[c] == l.criteria[c].(status := l'.criteria[c].status))
    && (forall c, k: nat :: c in l.criteria && Decides(rows, c, k) ==>
          l'.criteria[c].status
          == if status == Complete && l.criteria[c].goal == t.goal && Some(l.criteria[c].session) == t.session
             then rows[k].result else l.criteria[c].status)
    && (forall c :: c in l.criteria && (forall k :: 0 <= k < |rows| ==> rows[k].criterion != c) ==>
          l'.criteria[c] == l.criteria[c])
  }

  lemma StatusUpdates(l: Ledger, t: Target, status: GoalStatus, rows: seq<AuditRow>, now: int)
    requires EvidenceIdsOk(l)
    ensures
      match UpdateStatus(l, t, status, rows, now)
      case Rejected(error) =>
        if !IsMutable(l, t) then error == StaleGoal
        else error == AuditRejected && status == Complete && !AllSettled(l, t.goal, rows)
      case Accepted(l') =>
        && IsMutable(l, t) && (status == Complete ==> AllSettled(l, t.goal, rows))
        && Updates(l, l', t, status, rows, now)
  {
    AuditAcceptedIff(l, t.goal, rows);
    if t.session.Some? {
      ApplyAuditFacts(l.criteria, t.goal, t.session.value, rows);
    }
    forall c | c in l.criteria
      ensures forall k: nat :: Decides(rows, c, k) ==> LastRow(rows, c) == Some(rows[k])
      ensures (forall k :: 0 <= k < |rows| ==> rows[k].criterion != c) ==> LastRow(rows, c).None?
    {
      LastRowIs(rows, c);
    }
  }

  // ---- usage ------------------------------------------------------------------------------------------

  /** The usage is added to the goal, which is limited if and only if one of its budgets is
      used up; nothing else changes. */
  ghost predicate Spends(l: Ledger, l': Ledger, t: Target, usage: Usage, now: int)
    requires t.goal in l.goals
  {
    var g := l.goals[t.goal];
    && l' == l.(goals := l'.goals) && l'.goals.Keys == l.goals.Keys
    && (forall id :: id in l.goals && id != t.goal ==> l'.goals[id] == l.goals[id])
    && var g' := l'.goals[t.goal];
       && g' == g.(tokensUsed := g.tokensUsed + usage.tokens, turnsUsed := g.turnsUsed + usage.turns,
                   timeUsed := g.timeUsed + usage.time, status := g'.status, updatedAt := now)
       && var usedUp := || (g.tokenBudget.Some? && g.tokenBudget.value <= g'.tokensUsed)
                        || (g.turnBudget.Some? && g.turnBudget.value <= g'.turnsUsed)
                        || (g.timeBudget.Some? && g.timeBudget.value <= g'.timeUsed);
          g'.status == if usedUp then BudgetLimited else g.status
  }

  predicate IsUsage(usage: Usage) { usage.tokens >= 0 && usage.turns >= 0 && usage.time >= 0 }

  lemma UsageSpends(l: Ledger, t: Target, usage: Usage, now: int)
    ensures
      match AccountUsage(l, t, usage, now)
      case Rejected(error) =>
        if !IsUsage(usage) then error == InvalidRequest else error == StaleGoal && !IsMutable(l, t)
      case Accepted(l') => IsUsage(usage) && IsMutable(l, t) && Spends(l, l', t, usage, now)
  {
  }

  /** What the first `i` steps of a run accounted to the goal. */
  ghost function Accounted(ledgers: seq<Ledger>, steps: seq<GoalStep>, i: nat, goal: nat): Usage
    requires IsGoalRun(ledgers, steps) && i <= |steps|
  {
    if i == 0 then Usage(0, 0, 0)
    else
      var before, step := Accounted(ledgers, steps, i - 1, goal), steps[i - 1];
      if step.Spend? && step.target.goal == goal && IsUsage(step.usage) && IsMutable(ledgers[i - 1], step.target) then
        Usage(before.tokens + step.usage.tokens, before.turns + step.usage.turns, before.time + step.usage.time)
      else before
  }

  /** What a goal shows as used. */
  function UsedBy(l: Ledger, goal: nat): Usage {
    if goal in l.goals then
      Usage(l.goals[goal].tokensUsed, l.goals[goal].turnsUsed, l.goals[goal].timeUsed)
    else Usage(0, 0, 0)
  }

  /** A goal shows exactly what was accounted to it, from the moment it is created. */
  lemma {:induction false} UsageTheorem(ledgers: seq<Ledger>, steps: seq<GoalStep>, i: nat, goal: nat)
    requires IsGoalRun(ledgers, steps) && i < |ledgers|
    ensures goal in ledgers[i].goals || goal >= ledgers[i].nextId ==>
              UsedBy(ledgers[i], goal) == Accounted(ledgers, steps, i, goal)
  {
    if i > 0 {
      LedgerTheorem(ledgers, steps, i - 1);
      if goal in ledgers[i].goals || goal >= ledgers[i].nextId {
        StepAccounts(ledgers[i - 1], steps[i - 1], goal);
        UsageTheorem(ledgers, steps, i - 1, goal);
      }
    }
  }

  lemma StepAccounts(l: Ledger, step: GoalStep, goal: nat)
    requires LedgerOk(l)
    requires goal in Apply(l, step).goals || goal >= Apply(l, step).nextId
    ensures goal in l.goals || goal >= l.nextId
    ensures
      var now, was := UsedBy(Apply(l, step), goal), UsedBy(l, goal);
      if step.Spend? && step.target.goal == goal && IsUsage(step.usage) && IsMutable(l, step.target)
      then now == Usage(was.tokens + step.usage.tokens, was.turns + step.usage.turns, was.time + step.usage.time)
      else now == was
  {
    match step
    case Replace(req, now) => ReplaceStarts(l, req, now);
    case Spend(t, usage, now) => UsageSpends(l, t, usage, now);
    case _ =>
  }

  // ---- deleting ------------------------------------------------------------------------------------------

  /** Everything of the session is gone, and everything else is there, in its order. */
  ghost predicate Removes(l: Ledger, l': Ledger, session: SessionId) {
    && (forall id :: id in l'.goals <==> id in l.goals && l.goals[id].session != session)
    && (forall id :: id in l'.goals ==> l'.goals[id] == l.goals[id])
    && (forall id :: id in l'.claims <==> id in l.claims && l.claims[id].session != session)
    && (forall id :: id in l'.claims ==> l'.claims[id] == l.claims[id])
    && (forall id :: id in l'.criteria <==> id in l.criteria && l.criteria[id].session != session)
    && (forall id :: id in l'.criteria ==> l'.criteria[id] == l.criteria[id])
    && (forall e :: e in l'.evidence <==> e in l.evidence && e.session != session) && Ordered(l'.evidence)
    && (forall a :: a in l'.audits <==> a in l.audits && a.session != session)
    && l'.nextId == l.nextId
  }

  lemma DeleteRemoves(l: Ledger, session: SessionId)
    requires EvidenceIdsOk(l)
    ensures Removes(l, DeleteSession(l, session), session)
  {
    KeptIds(l.evidence, session, l.nextId);
  }

  // ---- reading -------------------------------------------------------------------------------------------

  /** The goal's rows are listed in the order of their ids. */
  lemma {:induction false} EvidenceOfOrdered(rows: seq<Evidence>, goal: nat)
    requires Ordered(rows)
    ensures Ordered(EvidenceOf(rows, goal))
  {
    if rows != [] {
      var before, last := rows[..|rows| - 1], rows[|rows| - 1];
      EvidenceOfOrdered(before, goal);
      var earlier := EvidenceOf(before, goal);
      forall k | 0 <= k < |earlier|
        ensures earlier[k].id < last.id
      {
        assert earlier[k] in before;
      }
      OrderedPush(earlier, last);
    }
  }

  /** The window is refused if it is not positive; otherwise it shows the goal's most recent
      rows, as many as it allows, oldest first. */
  lemma WindowIs(l: Ledger, goal: nat, limit: Option<int>)
    requires EvidenceIdsOk(l)
    ensures Ordered(EvidenceOf(l.evidence, goal))
    ensures
      var all := EvidenceOf(l.evidence, goal);
      match ListEvidence(l, goal, limit)
      case Rejected(error) => limit.Some? && limit.value <= 0
      case Accepted(window) =>
        && (limit.Some? ==> limit.value > 0)
        && |window| == (if limit.Some? && limit.value < |all| then limit.value else |all|)
        && window == all[|all| - |window|..]
  {
    EvidenceOfOrdered(l.evidence, goal);
  }
}

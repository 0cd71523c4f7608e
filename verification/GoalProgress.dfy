/** The progress a snapshot reports never falls back, and every evidence row raises it. */
module GoalProgress {
  import opened Domain
  import opened Goals
  import opened GoalRuns

  /** The goal's criteria that count as covered, read off the whole ledger. */
  ghost function CoveredIn(l: Ledger, goal: nat): set<nat>
    requires goal in l.goals
  {
    set c | c in l.criteria && l.criteria[c].goal == goal
            && (l.goals[goal].status == Complete || HasEvidence(l.evidence, c))
  }

  predicate ValidWindow(limit: Option<int>) {
    limit.Some? ==> limit.value > 0
  }

  /** The snapshot's progress does not depend on how much evidence it shows. */
  lemma ProgressMeans(l: Ledger, goal: nat, limit: Option<int>)
    requires LedgerOk(l) && goal in l.goals && ValidWindow(limit)
    ensures
      var snapshot := GoalSnapshot(l, goal, limit);
      && snapshot.Accepted? && snapshot.value.Some?
      && CoveredSet(snapshot.value.value) == CoveredIn(l, goal)
      && Progress(snapshot.value.value) == (|CoveredIn(l, goal)|, |EvidenceOf(l.evidence, goal)|)
  {
    var snapshot := GoalSnapshot(l, goal, limit).value.value;
    forall c | c in snapshot.criteria
      ensures c in CoveredSet(snapshot) <==> c in CoveredIn(l, goal)
    {
      SnapshotCoverage(l, goal, limit, c);
    }
    assert CoveredSet(snapshot) == CoveredIn(l, goal);
  }

  lemma {:induction false} FewerElements(small: set<nat>, large: set<nat>)
    requires small <= large
    ensures |small| <= |large|
  {
    if c :| c in small {
      FewerElements(small - {c}, large - {c});
    }
  }

  /** Deleting another session leaves the goal's evidence rows in place. */
  lemma {:induction false} KeptEvidence(rows: seq<Evidence>, session: SessionId, goal: nat)
    requires forall k :: 0 <= k < |rows| && rows[k].goal == goal ==> rows[k].session != session
    ensures EvidenceOf(KeepEvidence(rows, session), goal) == EvidenceOf(rows, goal)
  {
    if rows != [] {
      var earlier, last := rows[..|rows| - 1], rows[|rows| - 1];
      KeptEvidence(earlier, session, goal);
      var kept := KeepEvidence(earlier, session);
      assert (kept + [last])[..|kept|] == kept;
    }
  }

  /** Does this step write an evidence row for the goal? */
  predicate AddsEvidence(l: Ledger, step: GoalStep, goal: nat) {
    step.Append? && step.target.goal == goal && AppendEvidence(l, step.target, step.input).Accepted?
  }

  lemma StepKeepsEvidence(l: Ledger, step: GoalStep, goal: nat)
    requires LedgerOk(l) && goal in l.goals && goal in Apply(l, step).goals
    ensures |EvidenceOf(Apply(l, step).evidence, goal)|
         == |EvidenceOf(l.evidence, goal)| + if AddsEvidence(l, step, goal) then 1 else 0
  {
    var l' := Apply(l, step);
    match step
    case Append(t, input) =>
      if l'.evidence != l.evidence {
        assert l'.evidence[..|l.evidence|] == l.evidence;
      }
    case Delete(session) =>
      forall k | 0 <= k < |l.evidence| && l.evidence[k].goal == goal
        ensures l.evidence[k].session != session
      {
        assert EvidenceOk(l, l.evidence[k]);
      }
      KeptEvidence(l.evidence, session, goal);
    case _ =>
  }

  lemma StillEvidence(l: Ledger, step: GoalStep, goal: nat, c: nat)
    requires LedgerOk(l) && goal in l.goals && goal in Apply(l, step).goals
    requires c in l.criteria && l.criteria[c].goal == goal && HasEvidence(l.evidence, c)
    ensures HasEvidence(Apply(l, step).evidence, c)
  {
    var e :| e in l.evidence && e.criterion == Some(c);
    assert EvidenceOk(l, e);
    assert e in Apply(l, step).evidence;
  }

  lemma StillCriterion(l: Ledger, step: GoalStep, goal: nat, c: nat)
    requires LedgerOk(l) && goal in l.goals && goal in Apply(l, step).goals
    requires c in l.criteria && l.criteria[c].goal == goal
    ensures c in Apply(l, step).criteria && Apply(l, step).criteria[c].goal == goal
  {
    assert CriterionOk(l, c);
    match step
    case Replace(req, now) => StillAfterReplace(l, req, now, c);
    case SetStatus(t, status, rows, now) =>
      if t.session.Some? {
        ApplyAuditFacts(l.criteria, t.goal, t.session.value, rows);
      }
    case _ =>
  }

  lemma StillAfterReplace(l: Ledger, req: GoalRequest, now: int, c: nat)
    requires IdsBelow(l) && c in l.criteria
    ensures
      var l' := Apply(l, Replace(req, now));
      c in l'.criteria && l'.criteria[c] == l.criteria[c]
  {
    if ValidRequest(req) {
      AddCriteriaFacts(l.criteria, l.nextId, req.session.value, l.nextId + 2, |Cleaned(req.criteria)|);
    }
  }

  lemma StepKeepsCovered(l: Ledger, step: GoalStep, goal: nat)
    requires LedgerOk(l) && goal in l.goals && goal in Apply(l, step).goals
    ensures CoveredIn(l, goal) <= CoveredIn(Apply(l, step), goal)
  {
    var l' := Apply(l, step);
    assert l.goals[goal].status == Complete ==> l'.goals[goal].status == Complete by {
      if l.goals[goal].status == Complete {
        StepKeepsEnded(l, step, goal);
      }
    }
    forall c | c in CoveredIn(l, goal)
      ensures c in CoveredIn(l', goal)
    {
      StillCriterion(l, step, goal, c);
      if l.goals[goal].status != Complete {
        StillEvidence(l, step, goal, c);
      }
    }
  }

  /** What a caller compares: the progress shown through some window. */
  function Shown(l: Ledger, goal: nat, limit: Option<int>): (nat, nat) {
    var snapshot := GoalSnapshot(l, goal, limit);
    if snapshot.Accepted? && snapshot.value.Some? then Progress(snapshot.value.value) else (0, 0)
  }

  /** Seen through any two windows, a step never lowers a goal's progress, and an
      evidence row for the goal raises it. */
  lemma StepKeepsProgress(l: Ledger, step: GoalStep, goal: nat, before: Option<int>, after: Option<int>)
    requires LedgerOk(l) && goal in l.goals && goal in Apply(l, step).goals
    requires ValidWindow(before) && ValidWindow(after)
    ensures !Less(Shown(Apply(l, step), goal, after), Shown(l, goal, before))
    ensures AddsEvidence(l, step, goal) ==> Less(Shown(l, goal, before), Shown(Apply(l, step), goal, after))
  {
    StepKeepsLedger(l, step);
    ProgressMeans(l, goal, before);
    ProgressMeans(Apply(l, step), goal, after);
    StepKeepsEvidence(l, step, goal);
    StepKeepsCovered(l, step, goal);
    FewerElements(CoveredIn(l, goal), CoveredIn(Apply(l, step), goal));
  }

  lemma {:induction false} IdsOnlyGrow(ledgers: seq<Ledger>, steps: seq<GoalStep>, i: nat, k: nat)
    requires IsGoalRun(ledgers, steps) && i <= k < |ledgers|
    ensures ledgers[i].nextId <= ledgers[k].nextId
  {
    if i < k {
      IdsOnlyGrow(ledgers, steps, i, k - 1);
    }
  }

  lemma GoalWasThere(ledgers: seq<Ledger>, steps: seq<GoalStep>, i: nat, j: nat, k: nat, goal: nat)
    requires IsGoalRun(ledgers, steps) && i <= j <= k < |ledgers|
    requires goal in ledgers[i].goals && goal in ledgers[k].goals
    ensures goal in ledgers[j].goals
  {
    LedgerTheorem(ledgers, steps, i);
    IdsOnlyGrow(ledgers, steps, i, j);
    if goal !in ledgers[j].goals {
      GoalsDoNotReturn(ledgers, steps, j, k, goal);
    }
  }

  lemma WindowIsIrrelevant(ledgers: seq<Ledger>, steps: seq<GoalStep>, i: nat, goal: nat, before: Option<int>,
      after: Option<int>)
    requires IsGoalRun(ledgers, steps) && i < |ledgers| && goal in ledgers[i].goals
    requires ValidWindow(before) && ValidWindow(after)
    ensures Shown(ledgers[i], goal, before) == Shown(ledgers[i], goal, after)
  {
    LedgerTheorem(ledgers, steps, i);
    ProgressMeans(ledgers[i], goal, before);
    ProgressMeans(ledgers[i], goal, after);
  }

  lemma RunStepProgress(ledgers: seq<Ledger>, steps: seq<GoalStep>, i: nat, goal: nat, window: Option<int>)
    requires IsGoalRun(ledgers, steps) && i < |steps| && ValidWindow(window)
    requires goal in ledgers[i].goals && goal in ledgers[i + 1].goals
    ensures !Less(Shown(ledgers[i + 1], goal, window), Shown(ledgers[i], goal, window))
    ensures AddsEvidence(ledgers[i], steps[i], goal) ==>
              Less(Shown(ledgers[i], goal, window), Shown(ledgers[i + 1], goal, window))
  {
    LedgerTheorem(ledgers, steps, i);
    StepKeepsProgress(ledgers[i], steps[i], goal, window, window);
  }

  /** Levels that never fall, and rise where something was added. */
  ghost predicate Rising(levels: seq<(nat, nat)>, added: seq<bool>, i: nat, k: nat)
    requires i <= k <= |added| < |levels|
  {
    forall j :: i <= j < k ==> !Less(levels[j + 1], levels[j]) && (added[j] ==> Less(levels[j], levels[j + 1]))
  }

  lemma {:induction false} RisesAlong(levels: seq<(nat, nat)>, added: seq<bool>, i: nat, k: nat)
    requires i <= k <= |added| < |levels| && Rising(levels, added, i, k)
    ensures !Less(levels[k], levels[i])
    ensures (exists j :: i <= j < k && added[j]) ==> Less(levels[i], levels[k])
  {
    if i < k {
      RisesAlong(levels, added, i, k - 1);
    }
  }

  ghost function Levels(ledgers: seq<Ledger>, goal: nat, window: Option<int>): seq<(nat, nat)> {
    seq(|ledgers|, j requires 0 <= j < |ledgers| => Shown(ledgers[j], goal, window))
  }

  ghost function Additions(ledgers: seq<Ledger>, steps: seq<GoalStep>, goal: nat): seq<bool>
    requires |steps| <= |ledgers|
  {
    seq(|steps|, j requires 0 <= j < |steps| => AddsEvidence(ledgers[j], steps[j], goal))
  }

  lemma LevelsRise(ledgers: seq<Ledger>, steps: seq<GoalStep>, i: nat, k: nat, goal: nat, window: Option<int>)
    requires IsGoalRun(ledgers, steps) && i <= k < |ledgers| && ValidWindow(window)
    requires goal in ledgers[i].goals && goal in ledgers[k].goals
    ensures Rising(Levels(ledgers, goal, window), Additions(ledgers, steps, goal), i, k)
  {
    forall j | i <= j < k
      ensures !Less(Shown(ledgers[j + 1], goal, window), Shown(ledgers[j], goal, window))
      ensures AddsEvidence(ledgers[j], steps[j], goal) ==>
                Less(Shown(ledgers[j], goal, window), Shown(ledgers[j + 1], goal, window))
    {
      GoalWasThere(ledgers, steps, i, j, k, goal);
      GoalWasThere(ledgers, steps, i, j + 1, k, goal);
      RunStepProgress(ledgers, steps, j, goal, window);
    }
  }

  /** Between any two states of a run, progress on a goal never falls; it has risen if
      any evidence for the goal was accepted in between. */
  lemma ProgressTheorem(
    ledgers: seq<Ledger>, steps: seq<GoalStep>, i: nat, k: nat, goal: nat, before: Option<int>, after: Option<int>)
    requires IsGoalRun(ledgers, steps) && i <= k < |ledgers|
    requires goal in ledgers[i].goals && goal in ledgers[k].goals
    requires ValidWindow(before) && ValidWindow(after)
    ensures !Less(Shown(ledgers[k], goal, after), Shown(ledgers[i], goal, before))
    ensures (exists j :: i <= j < k && AddsEvidence(ledgers[j], steps[j], goal)) ==>
              Less(Shown(ledgers[i], goal, before), Shown(ledgers[k], goal, after))
  {
    WindowIsIrrelevant(ledgers, steps, i, goal, before, after);
    LevelsRise(ledgers, steps, i, k, goal, after);
    var levels, added := Levels(ledgers, goal, after), Additions(ledgers, steps, goal);
    RisesAlong(levels, added, i, k);
    if j :| i <= j < k && AddsEvidence(ledgers[j], steps[j], goal) {
      assert added[j];
    }
  }
}

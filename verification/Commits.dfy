/** Executions inside runs: all or nothing, once per request. */
module Commits {
  import opened Domain
  import opened Tables
  import opened Risk
  import opened Executor
  import opened Runs
  import opened Growth
  import opened Book
  import opened Execution

  /** No order of a run waits under a signal that does not exist yet. */
  lemma NextSignalIsNew(cfg: Config, states: seq<Store>, steps: seq<Step>, i: nat)
    requires IsRun(cfg, states, steps) && IsOpening(states[0]) && i < |states|
    ensures NoneWaiting(states[i], Some(|states[i].signals|))
  {
    OpeningHasBook(states[0]);
    RunKeepsBook(cfg, states, steps, i);
  }

  /** The older orders untouched, a new order with the broker, and no new order
      created, rejected, approved or on its way. */
  ghost predicate Committed(s: Store, s': Store) {
    && |s.orders| < |s'.orders| && s'.orders[..|s.orders|] == s.orders
    && s'.orders[|s.orders|].status in {Submitted, Filled}
    && forall k :: |s.orders| <= k < |s'.orders| ==>
         s'.orders[k].status !in {Created, RiskRejected, RiskApproved, Submitting}
  }

  lemma NewRowsAreDone(broker: Broker, s: Store, s': Store)
    requires |s.orders| < |s'.orders| && s'.orders[..|s.orders|] == s.orders
    requires s'.orders[|s.orders|].status in {Submitted, Filled}
    requires forall k :: |s.orders| < k < |s'.orders| ==> Done(broker, s'.orders[k].status)
    ensures Committed(s, s')
  {
  }

  lemma ExecutionCommits(broker: Broker, risk: RiskConfig, s: Store, req: Request)
    requires NoneWaiting(s, Some(|s.signals|)) && Execute(broker, risk, s, req).Ok?
    ensures
      var (s', done) := Execute(broker, risk, s, req).value;
      if done.reused then s' == s && Reuses(s, req, done) else Committed(s, s') && Places(s, s', req, done)
  {
    var (s', done) := Execute(broker, risk, s, req).value;
    if done.reused {
      ReuseIsNoop(broker, risk, s, req);
    } else {
      ExecutionTheorem(broker, risk, s, req);
      NewRowsAreDone(broker, s, s');
    }
  }

  /** In every run, an execution is all or nothing: it leaves the store as it was, or
      commits with its order in the broker's hands and exactly the orders asked for. */
  lemma CommitTheorem(cfg: Config, states: seq<Store>, steps: seq<Step>, i: nat)
    requires IsRun(cfg, states, steps) && IsOpening(states[0]) && i < |steps| && steps[i].StepExecute?
    ensures
      var outcome := Execute(steps[i].broker, cfg.risk, states[i], steps[i].req);
      if outcome.Raised? || outcome.value.1.reused then states[i + 1] == states[i]
      else
        && Committed(states[i], states[i + 1])
        && Places(states[i], states[i + 1], steps[i].req, outcome.value.1)
  {
    var s, broker, req := states[i], steps[i].broker, steps[i].req;
    assert Enabled(cfg, s, steps[i]) && states[i + 1] == Runs.Apply(cfg, s, steps[i]);
    NextSignalIsNew(cfg, states, steps, i);
    if Execute(broker, cfg.risk, s, req).Ok? {
      ExecutionCommits(broker, cfg.risk, s, req);
    }
  }

  lemma {:induction false} TraceIsFound(s: Store, trace: nat, strategy: nat, y: Symbol, from: nat, k: nat)
    requires from <= k < |s.orders| && OrderOfTrace(s, s.orders[k], trace, strategy, y)
    ensures TraceIndex(s, trace, strategy, y, from) <= k
    decreases k - from
  {
    if from < k {
      TraceIsFound(s, trace, strategy, y, from + 1, k);
    }
  }

  /** A committed request that is sent again, at any later time, to either broker and
      whatever else it then asks for, finds its order and changes nothing. */
  lemma RetryIsNoop(cfg: Config, states: seq<Store>, steps: seq<Step>, i: nat, k: nat, broker: Broker, again: Request)
    requires IsRun(cfg, states, steps) && IsOpening(states[0])
    requires i < |steps| && i < k < |states| && steps[i].StepExecute?
    requires Execute(steps[i].broker, cfg.risk, states[i], steps[i].req).Ok?
    requires again.trace == steps[i].req.trace && again.strategy == steps[i].req.strategy
    requires again.proposal.symbol == steps[i].req.proposal.symbol
    ensures
      var retried := Execute(broker, cfg.risk, states[k], again);
      && retried.Ok? && retried.value.0 == states[k] && retried.value.1.reused
      && Reuses(states[k], again, retried.value.1)
  {
    TraceIsThere(cfg, states, steps, i);
    RunGrows(cfg, states, steps, i + 1, k);
    GrownTraceIsThere(states[i + 1], states[k], again.trace, again.strategy, again.proposal.symbol);
    KnownTraceIsReused(broker, cfg.risk, states[k], again);
  }

  lemma TraceIsThere(cfg: Config, states: seq<Store>, steps: seq<Step>, i: nat)
    requires IsRun(cfg, states, steps) && IsOpening(states[0]) && i < |steps| && steps[i].StepExecute?
    requires Execute(steps[i].broker, cfg.risk, states[i], steps[i].req).Ok?
    ensures
      var s', req := states[i + 1], steps[i].req;
      TraceIndex(s', req.trace, req.strategy, req.proposal.symbol, 0) < |s'.orders|
  {
    assert Enabled(cfg, states[i], steps[i]) && states[i + 1] == Runs.Apply(cfg, states[i], steps[i]);
    NextSignalIsNew(cfg, states, steps, i);
    TraceStays(steps[i].broker, cfg.risk, states[i], steps[i].req);
  }

  /** An order keeps its signal and a signal its trace. */
  lemma GrownTraceIsThere(s: Store, s': Store, trace: nat, strategy: nat, y: Symbol)
    requires Grows(s, s') && TraceIndex(s, trace, strategy, y, 0) < |s.orders|
    ensures TraceIndex(s', trace, strategy, y, 0) < |s'.orders|
  {
    var k := TraceIndex(s, trace, strategy, y, 0);
    assert SameRequest(s.orders[k], s'.orders[k]);
    TraceIsFound(s', trace, strategy, y, 0, k);
  }

  lemma KnownTraceIsReused(broker: Broker, risk: RiskConfig, s: Store, req: Request)
    requires TraceIndex(s, req.trace, req.strategy, req.proposal.symbol, 0) < |s.orders|
    ensures
      var r := Execute(broker, risk, s, req);
      r.Ok? && r.value.0 == s && r.value.1.reused && Reuses(s, req, r.value.1)
  {
  }

  /** After a commit the request's own order carries its trace. */
  lemma TraceStays(broker: Broker, risk: RiskConfig, s: Store, req: Request)
    requires NoneWaiting(s, Some(|s.signals|)) && Execute(broker, risk, s, req).Ok?
    ensures
      var s' := Execute(broker, risk, s, req).value.0;
      TraceIndex(s', req.trace, req.strategy, req.proposal.symbol, 0) < |s'.orders|
  {
    var y := req.proposal.symbol;
    if TraceIndex(s, req.trace, req.strategy, y, 0) < |s.orders| {
      KnownTraceIsReused(broker, risk, s, req);
    } else {
      ExecutionTheorem(broker, risk, s, req);
      var (s', done) := Execute(broker, risk, s, req).value;
      TraceIsFound(s', req.trace, req.strategy, y, 0, done.orderId);
    }
  }
}

/** Runs from an opening store that mix the brokers: one broker's step on an order of
    the other, and a push that goes round the risk gate. */
module MixedExamples {
  import opened Domain
  import opened Tables
  import opened Pricing
  import opened OrderService
  import opened Risk
  import opened LocalSim
  import opened Longbridge
  import opened Runs
  import opened Cash
  import opened Gate
  import opened Examples

  const BOTH := Config(SimConfig(0.0, 0.0), RULES, LbConfig(Paper, true, false))
  const SENT := Priced(Buy, Limit, 1.0, 10.0)
  const NEXT := Priced(Buy, Limit, 1.0, 9.5)
  const ID := ExternalId("A")

  lemma Continued(states: seq<Store>, steps: seq<Step>, step: Step) returns (more: seq<Store>, path: seq<Step>)
    requires IsRun(BOTH, states, steps) && Enabled(BOTH, states[|steps|], step)
    ensures |path| == |steps| + 1 && IsRun(BOTH, more, path) && more[..|states|] == states
    ensures more[|path|] == Apply(BOTH, states[|steps|], step) && path[|steps|] == step
  {
    more, path := states + [Apply(BOTH, states[|steps|], step)], steps + [step];
    forall i | 0 <= i < |path|
      ensures Enabled(BOTH, more[i], path[i]) && more[i + 1] == Apply(BOTH, more[i], path[i])
    {
      assert i < |steps| ==> Enabled(BOTH, states[i], steps[i]) && states[i + 1] == Apply(BOTH, states[i], steps[i]);
    }
  }

  /** The order after the external broker took it. */
  function Sent(): Order {
    NewOrder(SENT, 0).(status := Submitted, brokerOrderId := Some(ID))
  }

  lemma SendShows(s: Store)
    requires s.orders == [NewOrder(SENT, 0).(status := RiskApproved)]
    ensures
      var step := StepLbSubmit(0, Answered("A"));
      Enabled(BOTH, s, step) && Shows(s, Apply(BOTH, s, step)) && Apply(BOTH, s, step).orders == [Sent()]
  {
    assert !BrokerIdTaken(s.orders, ID);
  }

  /** A buy with the external broker, and nothing frozen for it. */
  lemma SentRun() returns (states: seq<Store>, steps: seq<Step>)
    ensures IsRun(BOTH, states, steps) && |steps| == 3 && states[0] == Funded(10.0)
    ensures Shows(Funded(10.0), states[3]) && states[3].orders == [Sent()]
  {
    states, steps := ApprovedBuyRun(BOTH, 10.0, Limit, 1.0, 10.0);
    SendShows(states[2]);
    states, steps := Continued(states, steps, StepLbSubmit(0, Answered("A")));
  }

  lemma ForeignFill(s: Store)
    requires Shows(Funded(10.0), s) && s.orders == [Sent()]
    ensures
      var step := StepSimQuote(At(10.0), [0]);
      && Enabled(BOTH, s, step) && 0 in Apply(BOTH, s, step).accounts
      && Apply(BOTH, s, step).accounts[0].cashFrozen == -10.0
  {
    OneRowQuote(BOTH.sim, s, 0, At(10.0));
    SentFrozen(s);
  }

  lemma SentFrozen(s: Store)
    requires Shows(Funded(10.0), s) && s.orders == [Sent()]
    ensures
      var r := Match(BOTH.sim, s, 0, At(10.0));
      r.Ok? && 0 in r.value.accounts && r.value.accounts[0].cashFrozen == -10.0
  {
    SentCost();
    MatchFrozen(BOTH.sim, s, 0, At(10.0));
  }

  lemma SentCost()
    ensures FillPrice(Sent(), At(10.0)) == Some(10.0) && CostAt(BOTH.sim, 1.0, 10.0) == 10.0
  {
  }

  /** A filled buy takes its reservation out of the frozen cash, frozen or not. */
  lemma MatchFrozen(cfg: SimConfig, s: Store, id: nat, quote: Quote)
    requires id < |s.orders| && s.orders[id].status == Submitted && s.orders[id].accountId in s.accounts
    requires s.orders[id].side == Buy && FillPrice(s.orders[id], quote).Some?
    ensures
      var o, r := s.orders[id], Match(cfg, s, id, quote);
      && r.Ok? && o.accountId in r.value.accounts
      && r.value.accounts[o.accountId].cashFrozen == s.accounts[o.accountId].cashFrozen
           - CostAt(cfg, o.quantity, Or(o.limitPrice, FillPrice(o, quote).value))
  {
    FillShape(cfg, s, id, FillPrice(s.orders[id], quote).value);
    SettleCash(cfg, s, id, FillPrice(s.orders[id], quote).value, s.orders[id].accountId);
  }

  /** A paper quote fills the order that the external broker holds: 10 are unfrozen that
      never were frozen. */
  lemma PaperFillsForeignOrder() returns (states: seq<Store>, steps: seq<Step>)
    ensures IsRun(BOTH, states, steps) && IsOpening(states[0]) && |steps| == 4
    ensures 0 in states[4].accounts && states[4].accounts[0].cashFrozen == -10.0
  {
    states, steps := SentRun();
    ForeignFill(states[3]);
    states, steps := Continued(states, steps, StepSimQuote(At(10.0), [0]));
  }

  // ---- round the gate --------------------------------------------------------------------------------

  /** A cancellation that the gateway did not answer: the order no longer counts as open. */
  lemma LostCancelShows(s: Store)
    requires s.orders == [Sent()]
    ensures
      var step := StepLbCancel(0, Unreachable);
      && Enabled(BOTH, s, step) && Shows(s, Apply(BOTH, s, step))
      && Apply(BOTH, s, step).orders == [Sent().(status := Reconciling)]
  {
  }

  lemma NextPasses(s: Store)
    requires Shows(Funded(10.0), s) && s.orders == [Sent().(status := Reconciling)] + [NewOrder(NEXT, 0)]
    ensures Check(RULES, s, 1, LATER) == Approved
  {
    assert EstimatedValue(s.orders[1], LATER.quote) == 9.5;
    CountIsSmall(s.orders, 1, 0, DayStart(10));
    assert Abs(9.5 - 10.0) / 10.0 == 0.05;
    assert CheckActivity(RULES, s, 1, LATER, 9.5) == Approved;
  }

  lemma RevivalShows(s: Store)
    requires s.orders == [Sent().(status := Reconciling)] + [NewOrder(NEXT, 0).(status := RiskApproved)]
    ensures
      var step := StepPush(Some(ID), Some(Submitted));
      Enabled(BOTH, s, step) && !OneWorkingBuy(Apply(BOTH, s, step).orders)
  {
    assert s.orders[0].brokerOrderId == Some(ID);
    assert BrokerIdTaken(s.orders, ID);
    assert BrokerIdIndex(s.orders, ID) == 0;
    var now := Apply(BOTH, s, StepPush(Some(ID), Some(Submitted))).orders;
    assert now[0] == Sent() && now[1] == NewOrder(NEXT, 0).(status := RiskApproved);
    assert Similar(now[0], now[1]);
  }

  /** A buy whose cancellation got lost, a second buy approved meanwhile, and a push that
      reports the first one as submitted: the account works two buys of one symbol. */
  lemma PushRevivesSecondBuy() returns (states: seq<Store>, steps: seq<Step>)
    ensures IsRun(BOTH, states, steps) && IsOpening(states[0]) && |steps| == 7
    ensures !OneWorkingBuy(states[7].orders)
  {
    states, steps := ReconcilingRun();
    CreateShows(BOTH, states[4], NEXT);
    states, steps := Continued(states, steps, StepCreate(NEXT, 0));
    NextPasses(states[5]);
    CheckShows(BOTH, states[5], 1, LATER);
    states, steps := Continued(states, steps, StepRisk(1, LATER));
    RevivalShows(states[6]);
    states, steps := Continued(states, steps, StepPush(Some(ID), Some(Submitted)));
  }

  lemma ReconcilingRun() returns (states: seq<Store>, steps: seq<Step>)
    ensures IsRun(BOTH, states, steps) && |steps| == 4 && states[0] == Funded(10.0)
    ensures Shows(Funded(10.0), states[4]) && states[4].orders == [Sent().(status := Reconciling)]
  {
    states, steps := SentRun();
    LostCancelShows(states[3]);
    states, steps := Continued(states, steps, StepLbCancel(0, Unreachable));
  }
}

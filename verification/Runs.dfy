/** Runs of the trading kernel: any sequence of service, broker and push calls,
    each in its own transaction. */
module Runs {
  import opened Domain
  import opened Tables
  import opened Pricing
  import opened OrderService
  import opened Risk
  import opened LocalSim
  import opened Longbridge
  import opened Executor

  datatype Config = Config(sim: SimConfig, risk: RiskConfig, lb: LbConfig)

  datatype Step =
    | StepCreate(intent: Intent, now: int)
    | StepRisk(id: nat, ctx: Context)
    | StepBracket(id: nat)
    | StepSimSubmit(id: nat, quote: Quote)
    | StepSimCancel(id: nat)
    | StepSimQuote(quote: Quote, rows: seq<nat>)
    | StepLbSubmit(id: nat, reply: Reply)
    | StepLbCancel(id: nat, reply: Reply)
    | StepPush(brokerId: Option<BrokerId>, target: Option<OrderStatus>)
    | StepExecute(broker: Broker, req: Request)

  /** The step concerns only the paper broker. */
  predicate IsLocal(cfg: Config, step: Step) {
    match step
    case StepLbSubmit(_, _) => false
    case StepLbCancel(_, _) => false
    case StepPush(_, _) => false
    case StepExecute(broker, _) => broker == UseSim(cfg.sim)
    case _ => true
  }

  /** Types and foreign keys that hold of any call the program can make. */
  predicate Enabled(cfg: Config, s: Store, step: Step) {
    match step
    case StepCreate(intent, _) =>
      ValidIntent(intent) && (intent.signal.Some? ==> intent.signal.value < |s.signals|)
    case StepRisk(id, ctx) => id < |s.orders| && (ctx.quote.Some? ==> ValidQuote(ctx.quote.value))
    case StepBracket(id) => id < |s.orders| && IsBracket(s.orders[id])
    case StepSimSubmit(id, quote) => id < |s.orders| && ValidQuote(quote)
    case StepSimCancel(id) => id < |s.orders|
    case StepSimQuote(quote, rows) => ValidQuote(quote) && RestingRows(s.orders, quote.symbol, rows)
    case StepLbSubmit(id, _) => id < |s.orders|
    case StepLbCancel(id, _) => id < |s.orders|
    case StepPush(_, _) => true
    case StepExecute(broker, _) => broker == UseSim(cfg.sim) || broker == UseLongbridge(cfg.lb)
  }

  /** The call's own outcome: a new store, or a raise. */
  function Call(cfg: Config, s: Store, step: Step): Result<Store>
    requires Enabled(cfg, s, step)
  {
    match step
    case StepCreate(intent, now) => Ok(CreateOrder(s, intent, now).0)
    case StepRisk(id, ctx) => RunRiskCheck(cfg.risk, s, id, ctx)
    case StepBracket(id) => Transition(s, id, RiskApproved, BracketAutoApproved)
    case StepSimSubmit(id, quote) => var (s', _) :- Submit(cfg.sim, s, id, quote); Ok(s')
    case StepSimCancel(id) => var (s', _) :- Cancel(cfg.sim, s, id); Ok(s')
    case StepSimQuote(quote, rows) => MatchRows(cfg.sim, s, quote, rows)
    case StepLbSubmit(id, reply) => var (s', _) :- LbSubmit(cfg.lb, s, id, reply); Ok(s')
    case StepLbCancel(id, reply) => var (s', _) :- LbCancel(s, id, reply); Ok(s')
    case StepPush(brokerId, target) => Push(s, brokerId, target)
    case StepExecute(broker, req) => var (s', _) :- Execute(broker, cfg.risk, s, req); Ok(s')
  }

  /** The committed store: a raise is rolled back. */
  function Apply(cfg: Config, s: Store, step: Step): Store
    requires Enabled(cfg, s, step)
  {
    match Call(cfg, s, step)
    case Ok(s') => s'
    case Raised(_) => s
  }

  /** `states` are the committed stores before and after each step. */
  ghost predicate IsRun(cfg: Config, states: seq<Store>, steps: seq<Step>) {
    && |states| == |steps| + 1
    && forall i :: 0 <= i < |steps| ==>
         Enabled(cfg, states[i], steps[i]) && states[i + 1] == Apply(cfg, states[i], steps[i])
  }

  ghost predicate IsLocalRun(cfg: Config, states: seq<Store>, steps: seq<Step>) {
    IsRun(cfg, states, steps) && forall i :: 0 <= i < |steps| ==> IsLocal(cfg, steps[i])
  }

  /** Accounts funded with cash only, and nothing traded yet. */
  ghost predicate IsOpening(s: Store) {
    && s.positions == [] && s.orders == [] && s.fills == [] && s.cashLedger == []
    && s.audit == [] && s.outbox == []
    && forall a :: a in s.accounts ==>
         && s.accounts[a].cashAvailable >= 0.0 && s.accounts[a].cashFrozen == 0.0
         && s.accounts[a].equity == s.accounts[a].cashAvailable
         && s.accounts[a].realizedPnl == 0.0 && s.accounts[a].unrealizedPnl == 0.0
  }
}

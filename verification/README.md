# Synapse Yield: a verified model of its trading kernel, agent loop and goal ledger

The project models three parts of Synapse Yield and proves what they promise.

**The trading kernel.** A store of accounts, positions, orders, fills, cash ledger, audit log,
outbox and signals, and the operations on it: the order service with its transition table, the
risk engine, the paper broker (reserve, match, settle, cancel), the external broker with its
gateway replies and pushes, and the executor that wraps an approved trade in one transaction.
`Tables` holds the rows; `OrderService`, `Risk`, `LocalSim`, `Longbridge` and `Executor` give each
operation as a function from store to store; `Session` (module `Sessions`) is the same code as a
class that updates its tables step by step: the working methods are proved equal to their
functions, and the calls on top of them keep the invariant of the book and state what a caller may
rely on (`Promises`). `Runs` defines runs: any sequence of calls, each committed or rolled back.
Money and quantities are `real`. Invariants are stated as gaps (a balance less the sum that should
explain it) that every operation keeps. `Book` and `Growth` hold what is true of logs and orders,
`Triggers` of when orders trade, `Records` of fills and ledger entries, `Cash`, `CashRuns` and
`Solvency` of cash, `Shares`, `ShareRuns`, `Basis`, `Coverage`, `RowOrder` and `Brackets` of shares
and cost, `Mixed` of runs on which both brokers are at work, `Switches` of the safety switches of the
external one, `Gate` of the risk gate, `Execution`, `Commits` and `Acceptance` of the executor.
`Examples` and `MixedExamples` build runs from an opening store on which a property fails that holds
under the theorems' conditions.

**Transcript maintenance.** `Transcript`, `AgentLoop` and `ToolTurn` give the repair of tool calls
and results, the token-budget compression, pruning, folding and tool batching as functions on
message lists; `LoopMachine` is the in-place code, proved to compute them; `Repair`, `Compaction`
and `LoopRuns` prove when every transcript of a run that the model is shown is well formed.

**The research-goal ledger.** `Goals` gives the store's operations as functions on a ledger,
`GoalMachine` the class with its loops, `GoalCalls` what each call does to the ledger and where its
rows come from, `GoalRuns` and `GoalProgress` the invariants and theorems over all runs.

## Results about the code

Properties one might expect that the code has only under a condition. Each has the exact condition,
and an input that fails it.

- A protective child is submitted at a quote equal to its own trigger price, so the paper broker
  fills it at once. A committed paper buy keeps its purchase if and only if it asks for no child;
  with two children it sells off as much again (`Coverage.PaperBuyTheorem`;
  `Acceptance.BracketedBuyCommits` is one with both).
- Two children at the same price share an idempotency key, so the second one raises and the whole
  execution is rolled back. `Acceptance.PaperCommitTheorem` and `Acceptance.ExternalCommitTheorem`
  say exactly when an execution commits, for either broker (`Examples.SamePriceRaises`).
- Equity equals opening cash plus realised and unrealised profit exactly as long as no step has sold
  more shares than were held while some were; what such a sale erases makes equity exceed it
  (`Coverage.EquityHoldsIff`, `Examples.UncoveredSaleErases`). Before a quote the condition is read
  off its rows, before an execution off the request and the position: a buy falls short exactly if it
  asks for both children while fewer shares are held than it buys, and some are
  (`Coverage.StepLosesIff`, `Coverage.ExecutionLosesIff`).
- A market buy that carries a limit price reserves by the limit and pays the ask; the account stays
  solvent exactly when it could afford the ask (`Solvency.FilledBuyIsSolventIff`,
  `Examples.PricedMarketBuyOverdraws`). A sale leaves the account solvent exactly when its cash covers
  what the commission takes beyond the gross, whether it fills on submission
  (`Solvency.FilledSaleIsSolventIff`, `Examples.SmallSaleOverdraws`) or rests and is filled by a later
  quote (`Solvency.RestingSaleIsSolventIff`, `Examples.RestingSaleOverdraws`). A whole quote leaves an
  account solvent exactly when its cash and what every order that trades adds to it are not negative
  (`Solvency.QuoteIsSolventIff`), and `Solvency.SolventIff` says when the state of any local run is.
- Orders, cash and available shares after a quote never depend on the row order of its query. Shares
  held do not if and only if nothing is bought at the quote or the shares held cover all that is sold
  (`RowOrder.SharesAgreeIff`); without bracket orders they are always covered. Realised profit does
  depend on it: a buy and a sale of one position commute exactly when the buy costs per share what the
  held shares cost (`RowOrder.ProfitDependsOnRowOrder`). `Examples.SharesDependOnRowOrder` ends in a
  store where both differ.
- With both brokers at work on one store, the paper broker's quotes and cancellations reach orders
  that the external broker holds, and unfreeze cash that was never frozen. Frozen cash is what the
  resting paper buys reserve exactly as long as no step of one broker reaches a buy of the other
  (`Mixed.FrozenIsHeldIff`, `MixedExamples.PaperFillsForeignOrder`).
- The risk gate lets an account work one buy per symbol; an order in RECONCILING does not count, and a
  push can bring it back beside a second one. There is at most one working buy exactly as long as no
  push does that (`Gate.OneWorkingBuyIff`, `MixedExamples.PushRevivesSecondBuy`).
- The loop repairs call and result pairs only after compression and trusts the model's call ids. Every
  transcript it may show the model is well formed if and only if every turn's calls carry ids that are
  new to the transcript (`LoopRuns.LoopTheorem`, `LoopRuns.RepeatedIdBreaks`); a turn that a
  cancellation cuts short leaves calls unanswered, but the model is not shown another transcript
  (`LoopRuns.TurnKeepsHealthyIff`, `LoopRuns.CancelledTurnBreaks`).

## Model

| member | source | states |
|---|---|---|
| `Book.ReplayMeansChain` | synapse_yield/harness/order_service.py:140-162 | Replaying the audit log succeeds only on an unbroken chain of allowed transitions that starts at creation and ends at the replayed status. |
| `Book.AuditReplaysToLiveState` | synapse_yield/harness/order_service.py:61-162 | In every state of every run, with either broker, pushes and executions, the audit rows of an order (idempotency hits aside) are such a chain and end at its live status. |
| `Book.OutboxMatchesEndStates` | synapse_yield/broker/longbridge/adapter.py:253-334 | In every state, the outbox holds exactly one ORDER_FILLED event for an order that is FILLED and none otherwise; likewise ORDER_CANCELLED. |
| `Book.BrokeredOrdersWereApproved` | synapse_yield/domain/state_machine.py:6-65 | Every order that is SUBMITTED, PARTIALLY_FILLED, FILLED, CANCEL_PENDING or CANCELLED has a broker id and an audited step to RISK_APPROVED, although the table alone admits a way round. |
| `Book.EndStatesAreFinal` | synapse_yield/domain/state_machine.py:6-78 | FILLED, CANCELLED and RISK_REJECTED are never left, whatever pushes arrive late or twice. |
| `Book.DuplicatePushIsNoop` | synapse_yield/broker/longbridge/adapter.py:253-334 | Delivering any push a second time leaves the store exactly as the first delivery left it, also when it was rolled back. |
| `Book.RunKeepsBook` | synapse_yield/broker/longbridge/adapter.py:50-334 | The invariant behind the theorems above holds in every state of every run: each order's log, outbox events, approval and broker id agree with its row, broker ids are unique and signals known. |
| `Book.MovesInto` | synapse_yield/domain/state_machine.py:6-65 | The transition table read by the status entered: which statuses each one may be entered from. |
| `Growth.RunGrows` | synapse_yield/harness/order_service.py:140-273 | Between any two states of a run, audit log, outbox, fills, cash ledger and signals keep their rows as a prefix, no order disappears and none changes what it asks for. |
| `Cash.FillConservesCash` | synapse_yield/broker/local_sim.py:284-359 | A fill unfreezes exactly what its order reserved and moves exactly what the ledger row and the fill record. |
| `Cash.AcceptConservesCash` | synapse_yield/broker/local_sim.py:165-198 | Reserving and accepting freezes exactly what the now resting order reserves. |
| `Cash.CancelConservesCash` | synapse_yield/broker/local_sim.py:119-163 | A cancel gives back exactly what the resting order reserved. |
| `Cash.SubmitAtRest` | synapse_yield/broker/local_sim.py:35-92 | Between calls, a submission never raises, leaves every row in order and keeps all cash gaps. |
| `Cash.CancelAtRest` | synapse_yield/broker/local_sim.py:119-163 | A cancellation never hits the missing-quote error and keeps all cash gaps. |
| `Cash.MatchRowsAtRest` | synapse_yield/broker/local_sim.py:94-117 | A quote never raises, fills exactly the rows given that its prices reach, at the ask or the bid, changes no other row and keeps all cash gaps. |
| `Pricing.FillPriceIff` | synapse_yield/broker/local_sim.py:253-282 | A market order always trades; a stop sale if and only if the bid is at its limit or below, any other sale if and only if the bid is at its limit or above, a buy if and only if the ask is at its limit or below; buys at the ask, sales at the bid, and so within the limit. |
| `Triggers.QuoteTrades` | synapse_yield/broker/local_sim.py:94-117 | A quote that goes through fills exactly the resting orders of its symbol that its prices reach, at the ask or the bid, and touches no other order. |
| `Triggers.FillableConcat` | synapse_yield/broker/local_sim.py:109-117 | The ids a quote answers with come in the order of its rows. |
| `Triggers.FillableIff` | synapse_yield/broker/local_sim.py:109-117 | The ids a quote answers with are the rows that its prices reach, each once. |
| `Triggers.SubmitTrades` | synapse_yield/broker/local_sim.py:35-92 | The exact row an approved order becomes: FAILED if the symbols differ or it cannot be covered, FILLED at the ask or the bid if the prices reach it, else SUBMITTED under its broker id. |
| `Triggers.NoneLeftResting` | synapse_yield/broker/local_sim.py:94-117 | In every run, with either broker, a committed quote leaves no order resting that it reaches. |
| `Triggers.RestingTradesIff` | synapse_yield/broker/local_sim.py:94-117 | In every local run a resting order is filled in the next step if and only if that step is a quote of its symbol whose prices reach it. |
| `Records.RecordsTheorem` | synapse_yield/broker/local_sim.py:284-380 | In every state of every run, each order with an execution price is FILLED, wholly and within its limit, and has exactly one fill and one ledger entry: its quantity, its price, the commission (the larger of rate and minimum, none at rate zero) and the cash that moved; there is no other fill or entry. |
| `Records.FillRecorded` | synapse_yield/broker/local_sim.py:297-380 | A fill adds one such record, with the available cash it leaves as the entry's balance. |
| `Records.FillMarks` | synapse_yield/broker/local_sim.py:311-354 | After a fill the position is marked at its price; a buy adds its shares and its cost to quantity and basis, a sale takes its shares off, down to zero at zero cost. |
| `Records.FilledIffRecorded` | synapse_yield/broker/local_sim.py:284-307 | In every local run an order is FILLED if and only if it has a fill. |
| `CashRuns.CashTheorem` | synapse_yield/broker/local_sim.py:165-442 | In every state of every local run, brackets included, frozen cash is the sum of what resting buys reserve, and available plus frozen cash is the opening cash plus the ledger, and plus the flows of the filled orders. |
| `Mixed.MixedCashTheorem` | synapse_yield/broker/local_sim.py:94-163 | On every run, whatever both brokers do, frozen cash is what the resting paper buys reserve plus what steps of one broker on orders of the other left behind. |
| `Mixed.FrozenIsHeldIff` | synapse_yield/broker/local_sim.py:103-108 | On every run frozen cash is what the resting paper buys reserve, in every state so far, if and only if no step of one broker has reached a buy of the account with the other. |
| `MixedExamples.PaperFillsForeignOrder` | synapse_yield/broker/local_sim.py:103-108 | A run from an opening store on which a paper quote fills the external broker's order and frozen cash becomes -10. |
| `CashRuns.BrokerNeverRaises` | synapse_yield/broker/local_sim.py:422-442 | In every reachable state no submission, cancellation or quote raises; every resting order has a limit price. |
| `CashRuns.ReleaseUndoesReserve` | synapse_yield/broker/local_sim.py:165-251 | Releasing after reserving restores all accounts and every position. |
| `CashRuns.CancelUndoesSubmit` | synapse_yield/broker/local_sim.py:35-163 | Cancelling an order that came to rest restores all accounts and every position to what they were before submission. |
| `Pricing.AveragingKeepsBasis` | synapse_yield/broker/local_sim.py:452-464 | Averaging loses no cost: the new quantity at the new average is the old basis plus the fill. |
| `Pricing.CostMonotone` | synapse_yield/broker/local_sim.py:444-450 | A dearer fill never costs less, commission and its minimum included. |
| `Shares.SettleWealth` | synapse_yield/broker/local_sim.py:284-359 | A fill changes cash plus basis less realised profit by exactly the basis of shares it sold without holding. |
| `ShareRuns.EquityTheorem` | synapse_yield/broker/local_sim.py:284-508 | On every bracket-free run from cash K, cash plus basis less realised profit is K in every state, and equity is K plus realised plus unrealised profit. |
| `ShareRuns.ShareTheorem` | synapse_yield/broker/local_sim.py:192-340 | On every bracket-free run, shares held are shares bought less shares sold, are available plus what resting sells lock, and 0 <= available <= held: the clamp at zero never discards shares. |
| `RowOrder.CashAgrees` | synapse_yield/broker/local_sim.py:94-117 | In every store at rest, brackets included, any two orders of the quote query's rows end with the same orders and the same available and frozen cash. |
| `RowOrder.AvailableAgrees` | synapse_yield/broker/local_sim.py:94-117 | Likewise with the same shares available for sale, and the same positions in other symbols. |
| `RowOrder.SharesAgreeIff` | synapse_yield/broker/local_sim.py:326-342 | Every order of the rows leaves an account the same shares if and only if nothing of its orders is bought at the quote or its shares cover all that is sold at it. |
| `RowOrder.PlainSharesAgree` | synapse_yield/broker/local_sim.py:94-117 | Without bracket orders any two orders of the rows leave the same shares in every account and symbol. |
| `Examples.SharesDependOnRowOrder` | synapse_yield/broker/local_sim.py:94-117 | A run from an opening store to a quote that leaves one share or half a share, and different realised profits, by the row order of a resting stop sale and a resting buy. |
| `RowOrder.ProfitDependsOnRowOrder` | synapse_yield/broker/local_sim.py:94-117 | A quote that trades a buy and a sale of one position leaves the same realised profit for both row orders if and only if the buy costs per share the held average cost. |
| `ShareRuns.SaleConservesIffCovered` | synapse_yield/broker/local_sim.py:326-342 | A sale conserves cash plus basis less profit if and only if it is covered or the average cost is zero, and takes its whole quantity off if and only if it is covered. |
| `Basis.BasisTheorem` | synapse_yield/broker/local_sim.py:284-508 | On every local run, brackets included, cash plus basis less realised profit is the opening cash plus the basis that uncovered sales erased, and equity is opening cash plus profit plus the same. |
| `Basis.StockTheorem` | synapse_yield/broker/local_sim.py:189-343 | On every local run, brackets included, available shares plus what resting sells lock are shares bought less shares sold by ordinary sells; shares held are all bought less all sold plus what sales could not take off; neither is ever negative. |
| `Coverage.EquityHoldsIff` | synapse_yield/broker/local_sim.py:326-359 | On every local run equity is at least opening cash plus realised and unrealised profit, and equal to it if and only if no step so far sold more shares than were held while some were; the condition is on the steps and the stores they meet. |
| `Coverage.QuoteLosesIff` | synapse_yield/broker/local_sim.py:94-117 | A quote erases basis if and only if some row's sale exceeds what the rows before it leave held, and they leave some; it never adds basis. |
| `Coverage.ExecutionLosesIff` | synapse_yield/harness/trade_executor.py:102-217 | A committed paper execution erases basis if and only if the request falls short: a sale of more than is held, or a buy with both children of more than is held, while some is held. |
| `Coverage.StepLosesIff` | synapse_yield/broker/local_sim.py:326-342 | The same for every step of a local run: a condition on the step and the store decides whether it erases basis. |
| `Examples.UncoveredSaleErases` | synapse_yield/broker/local_sim.py:326-342 | A run from an opening store to a stop sale of one share with half a share held at 10, which erases basis worth 5. |
| `Solvency.SolvencyTheorem` | synapse_yield/broker/local_sim.py:180-318 | On every local run in which market buys carry no limit price and sales cover their commission, available and frozen cash are never negative. |
| `Solvency.FilledBuyIsSolventIff` | synapse_yield/broker/local_sim.py:276-318 | A filled buy leaves available cash non-negative if and only if the cost at the ask, not the reservation, was affordable. |
| `Solvency.FilledSaleIsSolventIff` | synapse_yield/broker/local_sim.py:320-342 | A sale that fills on submission leaves available cash non-negative if and only if the cash covers what the commission takes beyond the gross. |
| `Solvency.RestingSaleIsSolventIff` | synapse_yield/broker/local_sim.py:94-117 | A resting sale that a later quote fills leaves available cash non-negative if and only if the cash covers what the commission takes beyond the gross. |
| `Solvency.QuoteIsSolventIff` | synapse_yield/broker/local_sim.py:94-117 | A quote leaves an account's available cash non-negative if and only if the cash before, plus the proceeds at the bid of every sale that trades, plus what the reservation of every buy that trades exceeds its cost at the ask by, is non-negative. |
| `Solvency.SolventIff` | synapse_yield/broker/local_sim.py:165-359 | In every state of every local run, available cash is non-negative if and only if the opening cash and the flows of the filled orders cover what the resting buys reserve. |
| `Examples.PricedMarketBuyOverdraws` | synapse_yield/broker/local_sim.py:276-318 | A run from an opening store (create, risk check, submit) that ends with a priced market buy overdrawing the account. |
| `Examples.SmallSaleOverdraws` | synapse_yield/broker/local_sim.py:444-450 | A run from an opening store on which a sale under the minimum commission overdraws the account. |
| `Examples.RestingSaleOverdraws` | synapse_yield/broker/local_sim.py:94-117 | A seven-step run from an opening store on which a resting sale is filled by a later quote and overdraws the account. |
| `Gate.OneWorkingBuyTheorem` | synapse_yield/risk/engine.py:182-212 | In every state of every local run an account has at most one buy per symbol in RISK_APPROVED, SUBMITTING, SUBMITTED or PARTIALLY_FILLED. |
| `Gate.OneWorkingBuyIff` | synapse_yield/risk/engine.py:182-212 | On every run, with either broker, an account works at most one buy per symbol in every state so far if and only if no push has set a buy to work beside a similar one. |
| `MixedExamples.PushRevivesSecondBuy` | synapse_yield/broker/longbridge/adapter.py:253-334 | A run from an opening store on which a cancellation gets lost, a second buy is approved and a push revives the first. |
| `Gate.ApprovalIsReservable` | synapse_yield/risk/engine.py:247-260 | Without commission, an order approved against a quote can always be reserved against that quote: the risk estimate and the reservation agree. |
| `Gate.EstimateCoversFill` | synapse_yield/risk/engine.py:247-260 | The value the risk engine judges an order without a limit by is what its fill would be worth at that quote; for a buy with a limit it is no less. |
| `Execution.FlatQuoteFills` | synapse_yield/harness/trade_executor.py:243-249 | An order quoted at its own limit trades there, whatever its type and side. |
| `Execution.KeyClashRaises` | synapse_yield/harness/trade_executor.py:219-249 | A protective child whose idempotency key is taken raises. |
| `Execution.ExecutionTheorem` | synapse_yield/harness/trade_executor.py:102-217 | A committed execution, with either broker, leaves older orders alone and adds exactly: the order the request asks for (account, symbol, side, type, quantity, limit), FILLED (paper) or SUBMITTED (external); for a buy a LIMIT_IF_TOUCHED sale of as much at the take-profit price and a STOP_LIMIT sale of as much at the stop-loss price, each if that price is named and not zero; none of them half way; two children at one price never commit. |
| `Commits.CommitTheorem` | synapse_yield/harness/trade_executor.py:66-98 | In every run an execution either leaves the store as it was or commits exactly those orders, with none of them CREATED, RISK_REJECTED, RISK_APPROVED or SUBMITTING. |
| `Commits.RetryIsNoop` | synapse_yield/harness/trade_executor.py:113-127 | A request that was committed once finds its order when sent again in any later state of the run, to either broker and whatever it then asks for, and changes nothing. |
| `Execution.ReusedIff` | synapse_yield/harness/trade_executor.py:280-291 | A request is taken as sent before if and only if some order goes back to a signal with its trace, strategy and symbol. |
| `Switches.SwitchTheorem` | synapse_yield/broker/longbridge/adapter.py:345-354 | While submission is disabled, the mode is unknown, or the mode is live without its own switch, no order of any run gets an external broker id, whatever the gateway answers. |
| `Switches.ExecuteSendsNone` | synapse_yield/broker/longbridge/adapter.py:345-354 | Under the same switches an execution through the external broker never commits a new order. |
| `Acceptance.PaperCommitTheorem` | synapse_yield/harness/trade_executor.py:102-249 | In every state of every run, a new request commits with the paper broker if and only if it is a valid buy or sell, passes every risk rule, can be covered at its limit, and, for a buy, no price named for a child is negative and the two are not the same unless zero. |
| `Acceptance.ExternalCommitTheorem` | synapse_yield/harness/trade_executor.py:102-249 | In every state of every run, a new request commits with the external broker if and only if it is valid, passes every risk rule, submission is allowed, the gateway answers the main order with a new id, and, for a buy, no price named for a child is negative, the two are not the same unless zero, and the children get new ids where the gateway answers. |
| `Examples.SamePriceRaises` | synapse_yield/harness/trade_executor.py:219-249 | The request that commits with children at 12 and 8 raises with both at 12. |
| `Acceptance.ChildOkIff` | synapse_yield/harness/trade_executor.py:219-249 | A protective child goes through if and only if its price is positive and its idempotency key is free. |
| `Acceptance.BracketedBuyCommits` | synapse_yield/harness/trade_executor.py:102-217 | A concrete buy with both children commits from an opening store. |
| `Brackets.BracketSale` | synapse_yield/broker/local_sim.py:189-343 | A bracket sale at its trigger price takes its quantity off, down to zero, and leaves the available quantity alone. |
| `Brackets.BuyLeaves` | synapse_yield/harness/trade_executor.py:157-187 | A committed paper buy leaves the purchase less one such quantity for each child asked for, down to zero, while all of the purchase stays available for sale. |
| `Coverage.PaperBuyTheorem` | synapse_yield/harness/trade_executor.py:157-187 | In every state of every local run, a committed paper buy keeps its purchase if and only if it asked for no child; one child leaves what was held, two sell off as much again. |
| `Sessions.Session.TransitionOrder` | synapse_yield/harness/order_service.py:140-162 | The in-place transition: allowed moves are written and audited, others raise with nothing changed. |
| `Sessions.Session.CreateOrderFromIntent` | synapse_yield/harness/order_service.py:22-71 | Answers with the first order that has the intent's idempotency key and leaves the orders alone, or adds one order behind the others that asks for what the intent does, created now and not begun; either is audited and the book is kept. |
| `Sessions.Session.CountSimilar` | synapse_yield/risk/engine.py:119-228 | One pass computes the daily count and decides both duplicate rules. |
| `Risk.CheckMeans` | synapse_yield/risk/engine.py:19-245 | The cascade answers with a reason if and only if the order breaks that rule and none of the rules before it; approval means that no rule is broken. The rules are stated one by one and not by the cascade's tests: a price outside the band around the last price, a share of equity as a product, orders of the day as a set. |
| `Risk.ValueIs` | synapse_yield/risk/engine.py:247-260 | The value an order is judged by: at its limit; without one, a buy at the ask and a sale at the bid, the last price standing in; zero without a quote. |
| `Sessions.Session.CheckRisk` | synapse_yield/risk/engine.py:19-245 | The early-return checks, with the counting loop, find that verdict. |
| `Sessions.Session.RunRiskCheck` | synapse_yield/harness/order_service.py:74-137 | Raises, changing nothing, exactly when the order is not CREATED; otherwise approves and announces it if it breaks no rule, rejects it if it does, audits the step, touches nothing else and keeps the book. |
| `Sessions.Session.ReserveResources` | synapse_yield/broker/local_sim.py:165-209 | Freezes cash or shares as specified; a refusal changes nothing. |
| `Sessions.Session.ReleaseResources` | synapse_yield/broker/local_sim.py:218-251 | Recomputes and gives back the reservation as specified, or raises. |
| `Sessions.Session.Totals` | synapse_yield/broker/local_sim.py:496-508 | The loop returns the sums of market value and unrealised profit over the account's positions. |
| `Sessions.Session.ApplyFill` | synapse_yield/broker/local_sim.py:284-420 | The field-by-field settlement ends in the specified cash, position, totals, fill, ledger row, status, audit and events. |
| `Sessions.Session.SubmitOrder` | synapse_yield/broker/local_sim.py:35-92 | Never raises; an approved order fails if it cannot be covered, is filled if the prices reach it and rests otherwise, with its broker id, audit trail and events; no other order is touched, any other call changes nothing, the book is kept, and cash is conserved where only the paper broker was at work. |
| `Sessions.Session.ProcessQuote` | synapse_yield/broker/local_sim.py:94-117 | Answers with the rows that the prices reach, in order; fills exactly the resting orders of the symbol that they reach, at the ask or the bid; keeps the book; where only the paper broker was at work it never raises and conserves cash. |
| `Sessions.Session.CancelOrder` | synapse_yield/broker/local_sim.py:119-163 | A resting order ends CANCELLED with its audit trail and event, and any other call changes nothing; the book is kept; where only the paper broker was at work it never raises and conserves cash. |
| `Sessions.Session.SubmitExternal` | synapse_yield/broker/longbridge/adapter.py:50-160 | Raises only on a broker id that is taken; with the safety switches on, an approved order ends SUBMITTED under the gateway's id, RECONCILING or FAILED by the reply, with its audit trail; with them off only the refusal is audited; no other order is touched, the book is kept. |
| `Sessions.Session.CancelExternal` | synapse_yield/broker/longbridge/adapter.py:164-228 | Never raises; an order with the broker ends CANCEL_PENDING, or RECONCILING when the gateway did not answer, with its audit trail; any other call changes nothing, the book is kept. |
| `Sessions.Session.OnPush` | synapse_yield/broker/longbridge/adapter.py:253-334 | A push takes effect exactly as the life cycle allows, on the order it names alone; one that tells nothing new changes nothing; one that raises leaves every table as it was; orders at their end stay as they are and the book is kept. |
| `Promises.PushTheorem` | synapse_yield/broker/longbridge/adapter.py:253-334 | In every run a push that names an order and a new status succeeds if and only if the life cycle allows the move; then that order alone takes the status, with one audit row and the FILLED or CANCELLED event if it is one; any other push changes nothing. |
| `Promises.CancelRaisesIff` | synapse_yield/broker/local_sim.py:218-243 | A paper cancellation raises if and only if the order rests and its account is unknown, it is a buy without a limit price, or an ordinary sale without a position. |
| `Sessions.Session.Execute` | synapse_yield/harness/trade_executor.py:66-98 | Either every table is as before, or exactly the order asked for and its protective children are added, none of them half way and the older ones untouched; the book is kept both ways. |
| `Repair.FixTheorem` | synapse_yield/agent/src/agent/loop.py:238-292 | For every message list: each result left answers some call, every call id has a result, everything but tool results is kept in order, and repairing twice is repairing once. |
| `Repair.FixNothing` | synapse_yield/agent/src/agent/loop.py:238-292 | A list whose results are all called for and whose calls are all answered is left alone. |
| `Repair.KeptPlacement` | synapse_yield/agent/src/agent/loop.py:254-292 | Every kept message stands in the repaired list at its number plus the stubs of the messages before it, and nothing else is there. |
| `Repair.StubPlacement` | synapse_yield/agent/src/agent/loop.py:273-292 | The stub of a call, with its id and name and the fixed text, stands directly behind the call's message and the stubs of that message's earlier calls, before the next kept message. |
| `Compaction.RepairedSuffix` | synapse_yield/agent/src/agent/loop.py:1557-1563 | Repairing any suffix of a well-formed transcript behind plain messages drops exactly the leading results, adds no stub and leaves a well-formed list. |
| `AgentLoop.BudgetCut` | synapse_yield/agent/src/agent/loop.py:1489-1501 | The backward walk finds the longest suffix within the token budget: every longer one exceeds it, every shorter one fits. |
| `AgentLoop.CompactTheorem` | synapse_yield/agent/src/agent/loop.py:1455-1563 | Compression keeps a transcript well formed and never lengthens it: it leaves the system message, the summary and, less its leading results, the longest tail within the budget; if everything is within it, the second half; and with at most two messages after the first the list stays as it is. |
| `AgentLoop.CompactRepairs` | synapse_yield/agent/src/agent/loop.py:1485-1563 | For every list, well formed or cut short: either it is too short to compress and stays, or every result left answers a call, every call has a result, and the conversation is the system message, the summary and that of the tail. |
| `AgentLoop.EditsShorten` | synapse_yield/agent/src/agent/loop.py:200-235 | Pruning and folding change nothing but texts, and make none longer. |
| `AgentLoop.PruningClearsIff` | synapse_yield/agent/src/agent/loop.py:200-212 | A message is cleared if and only if it is a tool result longer than 100 characters with at least three tool results after it; nothing else changes. |
| `AgentLoop.FoldingFoldsIff` | synapse_yield/agent/src/agent/loop.py:215-235 | A message is folded if and only if it is longer than 2400 characters and neither the first nor one of the last six: the first 900 characters, the number of characters gone in decimal digits, the last 500. |
| `AgentLoop.EditsKeepHealthy` | synapse_yield/agent/src/agent/loop.py:200-235 | Changing texts only keeps a transcript well formed. |
| `ToolTurn.TurnIsAnswered` | synapse_yield/agent/src/agent/loop.py:1053-1091 | Every call of a turn, with or without an id, answered at once or executed, gets exactly one result: results and calls carry the same ids equally often. |
| `ToolTurn.TurnAnswers` | synapse_yield/agent/src/agent/loop.py:1053-1091 | The answer to every call stands at a stated place and says: for `compact` that it is being done, for a tool that succeeded and is not repeatable that it is skipped, for any other the first 10000 characters of its result. |
| `ToolTurn.BatchesAre` | synapse_yield/agent/src/agent/loop.py:1115-1130 | Only tools registered as read-only run in parallel, every other call runs alone, and no two parallel batches are adjacent. |
| `LoopRuns.OnlyRepeatableAgain` | synapse_yield/agent/src/agent/loop.py:1071-1080 | In every run a tool that succeeded in one turn runs in a later turn only if the registry has it as repeatable. |
| `LoopRuns.TurnKeepsHealthyIff` | synapse_yield/agent/src/agent/loop.py:1053-1091 | A turn keeps a transcript well formed if and only if its calls all carry ids that are new to it and no cancellation leaves one of them out. |
| `LoopRuns.LoopTheorem` | synapse_yield/agent/src/agent/loop.py:608-645 | However messages, tool turns, pruning, folding, compression and cancellation interleave, every transcript that the model may be shown is well formed (each turn's calls have exactly one result each before the conversation goes on, no result stands without its call) if and only if every turn's calls carried ids that were new to the transcript. |
| `LoopRuns.RepeatedIdBreaks` | synapse_yield/agent/src/agent/loop.py:1053-1091 | A two-turn run of a model that uses a call id twice and is shown a transcript that is not well formed. |
| `LoopRuns.CancelledTurnBreaks` | synapse_yield/agent/src/agent/loop.py:1057-1059 | A turn cancelled before its tools run leaves its call unanswered. |
| `LoopMachine.Loop.FixToolPairs` | synapse_yield/agent/src/agent/loop.py:248-292 | Popping in place and inserting stubs back to front computes the repair. |
| `LoopMachine.Loop.FindTail` | synapse_yield/agent/src/agent/loop.py:1489-1516 | The walk, the skip over results and the forced split find the start of that tail: past the results at the budget cut, or the middle, or zero. |
| `LoopMachine.Loop.AutoCompact` | synapse_yield/agent/src/agent/loop.py:1485-1563 | Clearing and rebuilding the list in place computes the compression, so a well-formed list ends as the system message, the summary and that tail, or as it was. |
| `LoopMachine.Loop.Microcompact` | synapse_yield/agent/src/agent/loop.py:200-212 | Clears exactly the long results that have at least three results after them. |
| `LoopMachine.Loop.ContextCollapse` | synapse_yield/agent/src/agent/loop.py:215-235 | Folds exactly the long texts between the first message and the six most recent ones. |
| `LoopMachine.Loop.SplitBatches` | synapse_yield/agent/src/agent/loop.py:1115-1130 | Batches join back to the call list, parallel ones hold only read-only calls, every other call is alone, and no two parallel batches are adjacent. |
| `LoopMachine.Loop.ExecuteBatch` | synapse_yield/agent/src/agent/loop.py:1177-1189 | Results are appended in call order, and exactly the successful names are remembered. |
| `LoopMachine.Loop.BatchExecute` | synapse_yield/agent/src/agent/loop.py:1093-1140 | Exactly the batches started before a cancellation run, in order; all of them if there is none. |
| `LoopMachine.Loop.ProcessToolCalls` | synapse_yield/agent/src/agent/loop.py:1031-1091 | A turn cancelled before it begins changes nothing; otherwise it appends the immediate answers and the results of a prefix of the other calls, and remembers the successes; without cancellation every call gets its result. |
| `GoalRuns.ApplyAuditFacts` | synapse_yield/agent/src/goal/store.py:748-758 | After an audit is written row by row, a criterion shows the result of the last row that names it. |
| `GoalRuns.AcceptedRowSettles` | synapse_yield/agent/src/goal/store.py:894-925 | An accepted audit row is a waiver or rests on a verified evidence row of that goal and criterion. |
| `GoalRuns.LedgerTheorem` | synapse_yield/agent/src/goal/store.py:256-838 | The ledger invariant holds in every state of every run of the store. |
| `GoalRuns.OneCurrentGoal` | synapse_yield/agent/src/goal/store.py:315-348 | In every reachable state a session has at most one current goal, with no unique index, and a completion time is set exactly when a goal is complete, blocked, cancelled, superseded or usage limited. |
| `GoalRuns.EndedGoalsAreFinal` | synapse_yield/agent/src/goal/store.py:820-838 | A goal that is no longer current is there unchanged, with all its criteria, in every later state until its session is deleted. |
| `GoalRuns.CompletionTheorem` | synapse_yield/agent/src/goal/store.py:696-758 | Every criterion of a COMPLETE goal shows a completion result and has a completion audit that waives it with notes or a verified evidence row of that goal and criterion. |
| `GoalRuns.CompletionLasts` | synapse_yield/agent/src/goal/store.py:547-571 | Until the session is deleted, a completed goal stays complete, its criteria stay settled as they were, and the waiver or the verified evidence stays in the ledger. |
| `GoalCalls.EvidenceTheorem` | synapse_yield/agent/src/goal/store.py:597-693 | Every evidence row of a reachable ledger was written by an accepted append, with that call's goal, session and criterion, and as verified if and only if a matching artifact or a run backed it. |
| `GoalCalls.CompletionIsTraced` | synapse_yield/agent/src/goal/store.py:841-925 | Every criterion of a COMPLETE goal was waived with notes, or an earlier accepted append for that goal and criterion was backed by a matching artifact or a run. |
| `GoalCalls.EvidenceIdsAreUnique` | synapse_yield/agent/src/goal/store.py:597-693 | In every reachable ledger evidence ids rise from row to row and stay below the next free id. |
| `GoalCalls.AuditAcceptedIff` | synapse_yield/agent/src/goal/store.py:894-925 | An audit is accepted if and only if, for each required criterion, the last row that names it cites only evidence of that goal and criterion and either waives it with notes or calls it satisfied with a verified one. |
| `GoalCalls.UsageTheorem` | synapse_yield/agent/src/goal/store.py:766-818 | In every reachable ledger a goal shows as used exactly the sum of the usage accepted for it. |
| `GoalCalls.WindowIs` | synapse_yield/agent/src/goal/store.py:508-535 | A window that is not positive is refused; any other shows the goal's most recent rows, as many as it allows, oldest first. |
| `GoalRuns.SnapshotCoverage` | synapse_yield/agent/src/goal/context.py:66-72 | Whatever the evidence window, a criterion shows as covered if and only if some evidence row of the whole ledger names it or the goal is complete. |
| `GoalProgress.ProgressMeans` | synapse_yield/agent/src/goal/context.py:75-79 | Progress read through any window is the number of covered criteria and of evidence rows of the whole ledger. |
| `GoalProgress.StepKeepsProgress` | synapse_yield/agent/src/goal/store.py:582-688 | Through any two windows, no step lowers a goal's progress and every accepted evidence row raises it. |
| `GoalProgress.ProgressTheorem` | synapse_yield/agent/src/goal/context.py:75-79 | Between any two states of a run a goal's progress never falls, and has risen if evidence for it was accepted in between. |
| `GoalMachine.GoalStore.GetCurrentGoal` | synapse_yield/agent/src/goal/store.py:459-473 | Finds the session's latest touched current goal, or there is none. |
| `GoalCalls.MutableIff` | synapse_yield/agent/src/goal/store.py:820-838 | In a valid ledger a goal may be changed if and only if the caller names it as expected, it is the session's own and it has not ended; that it is the latest current one follows. |
| `GoalMachine.GoalStore.RequireMutableGoal` | synapse_yield/agent/src/goal/store.py:820-838 | Accepts exactly the session's current goal under a matching expected id. |
| `GoalMachine.GoalStore.CheckRow` | synapse_yield/agent/src/goal/store.py:902-925 | The evidence loop accepts a row if and only if it settles its criterion: it cites only evidence of that goal and criterion and either waives it with notes or is satisfied with a verified one. |
| `GoalMachine.GoalStore.RowsByCriterion` | synapse_yield/agent/src/goal/store.py:900-900 | Collecting rows by overwriting keeps, for each criterion, the last row that names it. |
| `GoalMachine.GoalStore.ValidateCompletionAudit` | synapse_yield/agent/src/goal/store.py:894-925 | Accepts if and only if every required criterion of the goal has a deciding row that settles it. |
| `GoalMachine.GoalStore.ReplaceGoal` | synapse_yield/agent/src/goal/store.py:256-382 | Rejects exactly the unacceptable requests with nothing changed; otherwise adds the active goal with its budgets, one claim and a pending criterion for each text that is not blank, supersedes the session's current goals and nothing else; it is the only current one and the ledger stays valid. |
| `GoalMachine.GoalStore.AppendEvidence` | synapse_yield/agent/src/goal/store.py:597-693 | An accepted append adds exactly one row behind the others, with the target's goal and session, the input's criterion, and verified if and only if a matching artifact or a run backs it; it changes at most that criterion, to covered; a rejection names the first failing check and changes nothing. |
| `GoalMachine.GoalStore.UpdateStatus` | synapse_yield/agent/src/goal/store.py:696-763 | Accepted if and only if the target is mutable and, for completion, the audit settles every required criterion; then the goal takes the status, the audit is filed, each criterion takes the result of its deciding row on completion, and nothing else changes; a rejection changes nothing. |
| `GoalMachine.GoalStore.AccountUsage` | synapse_yield/agent/src/goal/store.py:766-818 | Accepted if and only if the deltas are not negative and the target is mutable; then the sums are added, the goal is BUDGET_LIMITED if and only if a budget is used up and keeps its status otherwise, and nothing else changes; a rejection changes nothing. |
| `GoalMachine.GoalStore.DeleteSessionGoals` | synapse_yield/agent/src/goal/store.py:547-571 | Removes exactly the session's rows from every table, evidence keeping its order, keeps the ledger valid and answers with the number of goals removed. |

## Left out

- Decimal precision and Numeric(20,6) column rounding: amounts are exact reals.
- Generated ids, idempotency hashes and UUIDs: ids are table positions or counters, and two idempotency keys are equal exactly when the fields they hash are. Prices and quantities in a key compare as numbers; the source hashes their texts, so that 12 and 12.0 make different keys.
- Broker event rows, audit and risk snapshots, trace ids in audit rows, time in force, trigger prices and raw requests: stored, never read back by the modelled code.
- The external broker's status texts: a push carries the internal status its text maps to, or none, and the theorems hold for every one of them.
- The external broker's own state after a local rollback, account and position queries, quotes and subscriptions.
- The daily-order day boundary: time is a number of seconds and a day starts at a multiple of 86400.
- Goal texts, `update_goal`, recaps and evidence provenance: a text is blank, fine or asks for execution. Whether an artifact path leads to a file, the file's digest, the normalised digest named for it and whether a run directory exists are inputs.
- Evidence order among rows with equal creation time: evidence is listed in the order written.
- Upper-case variants of criterion statuses in `criterion_is_covered`: only the texts the store compares are distinguished.
- Prompts, model calls, summary text, token thresholds that trigger compression, transcript files, heartbeats and tool timeouts.
- Message contents that are not text, and the reason text of a skipped call.
- LoopMachine.Loop.ExecuteBatch: worker threads are not modelled; a call's outcome is a function of the call, collected in call order.
- Solvency.SolvencyTheorem: states a sufficient condition on the caller's steps; the exact ones are `Solvency.FilledBuyIsSolventIff`, `Solvency.FilledSaleIsSolventIff`, `Solvency.QuoteIsSolventIff` and, for a state of a run, `Solvency.SolventIff`.
- Governance rules, tool classification, market data loaders, web app, command line and front end.

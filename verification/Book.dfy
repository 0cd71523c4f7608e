/** What the audit log, the outbox and the broker ids say about every order, in
    every run that mixes the two brokers, pushes and the executor. */
module Book {
  import opened Domain
  import opened Tables
  import opened Pricing
  import opened OrderService
  import opened Risk
  import opened LocalSim
  import opened Longbridge
  import opened Executor
  import opened Runs
  import opened Growth

  // ---- replaying the audit log -------------------------------------------------

  datatype ReplayState = Absent | At(status: OrderStatus) | Broken

  /** A row that tells a status of this order; idempotency hits repeat one. */
  predicate Tells(row: AuditRow, id: nat) {
    row.orderId == id && row.event != IdempotencyHit && row.next.Some?
  }

  function ReplayRow(state: ReplayState, row: AuditRow, id: nat): ReplayState {
    if !Tells(row, id) then state
    else match state
      case Absent => if row.previous == None && row.next.value == Created then At(Created) else Broken
      case At(status) =>
        if row.previous == Some(status) && row.next.value in Transitions(status) then At(row.next.value)
        else Broken
      case Broken => Broken
  }

  function Replay(rows: seq<AuditRow>, id: nat): ReplayState {
    if rows == [] then Absent
    else ReplayRow(Replay(rows[..|rows| - 1], id), rows[|rows| - 1], id)
  }

  /** The rows that tell a status of this order, in log order. */
  function Story(rows: seq<AuditRow>, id: nat): seq<AuditRow> {
    if rows == [] then []
    else
      var last := rows[|rows| - 1];
      Story(rows[..|rows| - 1], id) + (if Tells(last, id) then [last] else [])
  }

  /** The story starts with the creation, every row takes off where the one
      before it landed, and every move is in the table. */
  predicate IsChain(story: seq<AuditRow>) {
    && (forall k :: 0 <= k < |story| ==> story[k].next.Some?)
    && (|story| > 0 ==> story[0].previous == None && story[0].next == Some(Created))
    && (forall k :: 0 < k < |story| ==>
          && story[k].previous == story[k - 1].next
          && story[k].next.value in Transitions(story[k - 1].next.value))
  }

  /** The life cycle, by the status that is entered: from which ones it may be. */
  lemma MovesInto(from: OrderStatus, to: OrderStatus)
    ensures to in Transitions(from)
            <==> match to
                 case Created => false
                 case RiskRejected => from == Created
                 case RiskApproved => from == Created
                 case Submitting => from == RiskApproved
                 case Submitted => from == Submitting || from == Reconciling
                 case PartiallyFilled => from == Submitted || from == CancelPending || from == Reconciling
                 case Filled => from in {Submitted, PartiallyFilled, CancelPending, Reconciling}
                 case CancelPending => from == Submitted || from == PartiallyFilled
                 case Cancelled => from in {Submitted, PartiallyFilled, CancelPending, Reconciling}
                 case Failed => from in {Created, RiskApproved, Submitting, Submitted, Reconciling}
                 case Reconciling => from in {Submitting, Submitted, PartiallyFilled, CancelPending, Failed}
  {
  }

  lemma ChainExtend(story: seq<AuditRow>, row: AuditRow)
    requires row.next.Some?
    ensures IsChain(story + [row]) <==>
      && IsChain(story)
      && (if story == [] then row.previous == None && row.next == Some(Created)
          else
            && row.previous == story[|story| - 1].next
            && row.next.value in Transitions(story[|story| - 1].next.value))
  {
    var longer := story + [row];
    assert forall k :: 0 <= k < |story| ==> longer[k] == story[k];
    assert longer[|story|] == row;
    if IsChain(longer) && story != [] {
      assert longer[|story|].previous == longer[|story| - 1].next;
    }
  }

  /** Replaying succeeds exactly on chains, and ends where the last row lands. */
  lemma {:induction false} ReplayMeansChain(rows: seq<AuditRow>, id: nat)
    ensures Replay(rows, id) != Broken <==> IsChain(Story(rows, id))
    ensures Replay(rows, id) == Absent <==> Story(rows, id) == []
    ensures Replay(rows, id).At? ==>
      var story := Story(rows, id);
      story != [] && story[|story| - 1].next == Some(Replay(rows, id).status)
  {
    if rows != [] {
      var before, last := rows[..|rows| - 1], rows[|rows| - 1];
      ReplayMeansChain(before, id);
      if Tells(last, id) {
        ChainExtend(Story(before, id), last);
      } else {
        assert Story(rows, id) == Story(before, id);
      }
    }
  }

  // ---- one order seen through all tables -----------------------------------------

  datatype OrderView = OrderView(
    row: Option<Order>,
    replay: ReplayState,
    approved: bool,
    fills: nat,
    cancels: nat)

  /** Some audit row moved this order to risk approved. */
  predicate WasApproved(rows: seq<AuditRow>, id: nat) {
    rows != [] &&
    (|| WasApproved(rows[..|rows| - 1], id)
     || (rows[|rows| - 1].orderId == id && rows[|rows| - 1].next == Some(RiskApproved)
         && rows[|rows| - 1].event != IdempotencyHit))
  }

  ghost function View(s: Store, id: nat): OrderView {
    OrderView(if id < |s.orders| then Some(s.orders[id]) else None,
              Replay(s.audit, id),
              WasApproved(s.audit, id),
              multiset(s.outbox)[OrderFilled(id)],
              multiset(s.outbox)[OrderCancelled(id)])
  }

  predicate Brokered(status: OrderStatus) {
    status in {Submitted, PartiallyFilled, Filled, CancelPending, Cancelled}
  }

  /** The promise about one order. */
  ghost predicate ViewOk(id: nat, v: OrderView) {
    match v.row
    case None => v.replay == Absent && !v.approved && v.fills == 0 && v.cancels == 0
    case Some(o) =>
      && v.replay == At(o.status)
      && v.fills == (if o.status == Filled then 1 else 0)
      && v.cancels == (if o.status == Cancelled then 1 else 0)
      && (Brokered(o.status) ==> o.brokerOrderId.Some?)
      && (o.brokerOrderId.Some? ==> v.approved)
      && (o.status in {RiskApproved, Submitting} ==> v.approved)
      && (o.brokerOrderId.Some? && o.brokerOrderId.value.LocalSimId? ==> o.brokerOrderId.value.order == id)
  }

  ghost predicate BookOk(s: Store) {
    && (forall id: nat :: ViewOk(id, View(s, id)))
    && UniqueBrokerIds(s.orders)
    && SignalsKnown(s)
  }

  ghost predicate UniqueBrokerIds(orders: seq<Order>) {
    forall i, j :: 0 <= i < j < |orders| && orders[i].brokerOrderId.Some? ==>
      orders[i].brokerOrderId != orders[j].brokerOrderId
  }

  ghost predicate SignalsKnown(s: Store) {
    forall k :: 0 <= k < |s.orders| && s.orders[k].signal.Some? ==> s.orders[k].signal.value < |s.signals|
  }

  // ---- how the primitives change a view -------------------------------------------

  lemma ViewLog(s: Store, event: AuditEvent, id: nat,
                previous: Option<OrderStatus>, next: Option<OrderStatus>, j: nat)
    ensures
      var row := AuditRow(event, id, previous, next);
      var v := View(s, j);
      View(Log(s, event, id, previous, next), j) ==
        v.(replay := ReplayRow(v.replay, row, j),
           approved := v.approved || (id == j && next == Some(RiskApproved) && event != IdempotencyHit))
  {
    var row := AuditRow(event, id, previous, next);
    assert (s.audit + [row])[..|s.audit|] == s.audit;
  }

  lemma ViewEnqueue(s: Store, event: OutboxEvent, j: nat)
    ensures
      var v := View(s, j);
      View(Enqueue(s, event), j) ==
        v.(fills := v.fills + (if event == OrderFilled(j) then 1 else 0),
           cancels := v.cancels + (if event == OrderCancelled(j) then 1 else 0))
  {
    assert multiset(s.outbox + [event]) == multiset(s.outbox) + multiset{event};
  }

  lemma ViewTransition(s: Store, id: nat, target: OrderStatus, event: AuditEvent, j: nat)
    requires id < |s.orders| && Transition(s, id, target, event).Ok?
    requires event != IdempotencyHit
    requires View(s, id).replay == At(s.orders[id].status)
    ensures
      var v := View(s, j);
      View(Transition(s, id, target, event).value, j) ==
        if j != id then v
        else v.(row := Some(s.orders[id].(status := target)),
                replay := At(target),
                approved := v.approved || target == RiskApproved)
  {
    var o := s.orders[id];
    ViewLog(SetOrder(s, id, o.(status := target)), event, id, Some(o.status), Some(target), j);
  }

  lemma ViewRecord(s: Store, event: AuditEvent, id: nat, j: nat)
    ensures View(Record(s, event, id), j) == View(s, j)
  {
    ViewLog(s, event, id, None, None, j);
  }

  /** `s'` differs from `s` only in what concerns order `id`. */
  ghost predicate OnlyOrder(s: Store, s': Store, id: nat) {
    && |s'.orders| == |s.orders| && id < |s.orders|
    && s'.signals == s.signals
    && s'.orders[id].signal == s.orders[id].signal
    && forall j: nat :: j != id ==> View(s', j) == View(s, j)
  }

  lemma OnlyOrderKeepsBook(s: Store, s': Store, id: nat)
    requires BookOk(s) && OnlyOrder(s, s', id) && ViewOk(id, View(s', id))
    requires s'.orders[id].brokerOrderId in {s.orders[id].brokerOrderId, Some(LocalSimId(id))}
          || (s'.orders[id].brokerOrderId.Some? && !BrokerIdTaken(s.orders, s'.orders[id].brokerOrderId.value))
    ensures BookOk(s')
  {
    forall k | 0 <= k < |s.orders| && k != id
      ensures s'.orders[k] == s.orders[k]
    {
      assert View(s', k) == View(s, k);
    }
    forall i, j | 0 <= i < j < |s'.orders| && s'.orders[i].brokerOrderId.Some?
      ensures s'.orders[i].brokerOrderId != s'.orders[j].brokerOrderId
    {
      assert ViewOk(i, View(s', i)) && ViewOk(j, View(s', j));
    }
  }

  // ---- order service and risk ------------------------------------------------------

  lemma CreateKeepsBook(s: Store, intent: Intent, now: int)
    requires BookOk(s)
    requires intent.signal.Some? ==> intent.signal.value < |s.signals|
    ensures BookOk(CreateOrder(s, intent, now).0)
  {
    var (s', i) := CreateOrder(s, intent, now);
    forall j: nat
      ensures ViewOk(j, View(s', j))
    {
      assert ViewOk(j, View(s, j));
      if i < |s.orders| {
        var status := Some(s.orders[i].status);
        ViewLog(s, IdempotencyHit, i, status, status, j);
      } else {
        var added := s.(orders := s.orders + [NewOrder(intent, now)]);
        assert j != i ==> View(added, j) == View(s, j);
        ViewLog(added, OrderCreated, i, None, Some(Created), j);
      }
    }
  }

  /** A lone transition keeps the book when the target carries no event and needs
      no broker id that is not there. */
  lemma TransitionKeepsBook(s: Store, id: nat, target: OrderStatus, event: AuditEvent)
    requires BookOk(s) && id < |s.orders| && Transition(s, id, target, event).Ok?
    requires event != IdempotencyHit && target !in {Filled, Cancelled}
    requires Brokered(target) ==> s.orders[id].brokerOrderId.Some?
    ensures BookOk(Transition(s, id, target, event).value)
    ensures OnlyOrder(s, Transition(s, id, target, event).value, id)
  {
    var s' := Transition(s, id, target, event).value;
    assert ViewOk(id, View(s, id));
    forall j: nat {
      ViewTransition(s, id, target, event, j);
    }
    OnlyOrderKeepsBook(s, s', id);
  }

  /** A transition to an end state together with its one outbox event. */
  lemma NotifiedTransitionKeepsBook(s: Store, id: nat, target: OrderStatus, event: AuditEvent)
    requires BookOk(s) && id < |s.orders| && Transition(s, id, target, event).Ok?
    requires event != IdempotencyHit && target in {Filled, Cancelled} && s.orders[id].brokerOrderId.Some?
    ensures
      var notice := if target == Filled then OrderFilled(id) else OrderCancelled(id);
      var s' := Enqueue(Transition(s, id, target, event).value, notice);
      BookOk(s') && OnlyOrder(s, s', id)
  {
    var notice := if target == Filled then OrderFilled(id) else OrderCancelled(id);
    var moved := Transition(s, id, target, event).value;
    assert ViewOk(id, View(s, id));
    ViewTransition(s, id, target, event, id);
    ViewEnqueue(moved, notice, id);
    forall j: nat | j != id
      ensures View(Enqueue(moved, notice), j) == View(s, j)
    {
      ViewTransition(s, id, target, event, j);
      ViewEnqueue(moved, notice, j);
    }
    OnlyOrderKeepsBook(s, Enqueue(moved, notice), id);
  }

  lemma RecordKeepsBook(s: Store, event: AuditEvent, id: nat)
    requires BookOk(s)
    ensures BookOk(Record(s, event, id))
  {
    forall j: nat { ViewRecord(s, event, id, j); }
  }

  lemma NoticeKeepsBook(s: Store, event: OutboxEvent)
    requires BookOk(s) && !event.OrderFilled? && !event.OrderCancelled?
    ensures BookOk(Enqueue(s, event))
    ensures forall j: nat :: View(Enqueue(s, event), j) == View(s, j)
  {
    forall j: nat
      ensures View(Enqueue(s, event), j) == View(s, j)
    {
      ViewEnqueue(s, event, j);
    }
  }

  lemma RiskKeepsBook(cfg: RiskConfig, s: Store, id: nat, ctx: Context)
    requires BookOk(s) && id < |s.orders| && (ctx.quote.Some? ==> ValidQuote(ctx.quote.value))
    requires RunRiskCheck(cfg, s, id, ctx).Ok?
    ensures BookOk(RunRiskCheck(cfg, s, id, ctx).value)
  {
    var target := if Check(cfg, s, id, ctx) == Approved then RiskApproved else RiskRejected;
    TransitionKeepsBook(s, id, target, RiskCheckCompleted);
    NoticeKeepsBook(Transition(s, id, target, RiskCheckCompleted).value, OrderReadyToSubmit(id));
  }

  // ---- the paper broker ----------------------------------------------------------------

  lemma SettleKeepsBook(cfg: SimConfig, s: Store, id: nat, price: real)
    requires BookOk(s) && id < |s.orders| && s.orders[id].accountId in s.accounts
    ensures BookOk(Settle(cfg, s, id, price)) && OnlyOrder(s, Settle(cfg, s, id, price), id)
  {
    var s' := Settle(cfg, s, id, price);
    assert ViewOk(id, View(s, id));
    OnlyOrderKeepsBook(s, s', id);
  }

  lemma FillKeepsBook(cfg: SimConfig, s: Store, id: nat, price: real)
    requires BookOk(s) && id < |s.orders| && s.orders[id].status == Submitted
    requires ApplyFill(cfg, s, id, price).Ok?
    ensures BookOk(ApplyFill(cfg, s, id, price).value)
    ensures OnlyOrder(s, ApplyFill(cfg, s, id, price).value, id)
  {
    var o := s.orders[id];
    var settled := Settle(cfg, s, id, price);
    SettleKeepsBook(cfg, s, id, price);
    assert ViewOk(id, View(s, id));
    NotifiedTransitionKeepsBook(settled, id, Filled, SimFilled);
    var moved := Transition(settled, id, Filled, SimFilled).value;
    var notified := Enqueue(moved, OrderFilled(id));
    var logged := Record(notified, SimLedgerUpdated, id);
    RecordKeepsBook(notified, SimLedgerUpdated, id);
    var event := PositionUpdated(o.accountId, o.symbol);
    NoticeKeepsBook(logged, event);
    var s' := ApplyFill(cfg, s, id, price).value;
    assert s' == Enqueue(logged, event);
    forall j: nat | j != id
      ensures View(s', j) == View(s, j)
    {
      ViewRecord(notified, SimLedgerUpdated, id, j);
      assert View(notified, j) == View(settled, j) == View(s, j);
    }
  }

  lemma MatchKeepsBook(cfg: SimConfig, s: Store, id: nat, quote: Quote)
    requires BookOk(s) && id < |s.orders| && s.orders[id].status == Submitted
    requires Match(cfg, s, id, quote).Ok?
    ensures BookOk(Match(cfg, s, id, quote).value)
    ensures OnlyOrder(s, Match(cfg, s, id, quote).value, id)
  {
    var price := FillPrice(s.orders[id], quote);
    if price.Some? {
      FillKeepsBook(cfg, s, id, price.value);
    }
  }

  lemma ReserveKeepsBook(cfg: SimConfig, s: Store, id: nat, quote: Quote)
    requires BookOk(s) && id < |s.orders| && Reserve(cfg, s, id, quote).Reserved?
    ensures
      var s' := Reserve(cfg, s, id, quote).store;
      s'.orders == s.orders && BookOk(s')
  {
    var s' := Reserve(cfg, s, id, quote).store;
    var moved := s'.(audit := s.audit);
    assert s' == Record(moved, SimResourcesReserved, id);
    assert forall j: nat :: View(moved, j) == View(s, j);
    RecordKeepsBook(moved, SimResourcesReserved, id);
  }

  /** The broker's confirmation: its id is stored, then the order is submitted. */
  lemma ConfirmKeepsBook(s: Store, id: nat, brokerId: BrokerId, event: AuditEvent)
    requires BookOk(s) && id < |s.orders| && s.orders[id].status == Submitting
    requires event != IdempotencyHit
    requires brokerId == LocalSimId(id) || (brokerId.ExternalId? && !BrokerIdTaken(s.orders, brokerId))
    ensures
      var named := SetOrder(s, id, s.orders[id].(brokerOrderId := Some(brokerId)));
      && Transition(named, id, Submitted, event).Ok?
      && BookOk(Transition(named, id, Submitted, event).value)
  {
    var named := SetOrder(s, id, s.orders[id].(brokerOrderId := Some(brokerId)));
    assert ViewOk(id, View(s, id));
    OnlyOrderKeepsBook(s, named, id);
    TransitionKeepsBook(named, id, Submitted, event);
  }

  lemma AcceptKeepsBook(s: Store, id: nat)
    requires BookOk(s) && id < |s.orders| && s.orders[id].status == RiskApproved
    ensures Accept(s, id).Ok?
    ensures
      var s' := Accept(s, id).value;
      && BookOk(s') && |s'.orders| == |s.orders|
      && s'.orders[id] == s.orders[id].(status := Submitted, brokerOrderId := Some(LocalSimId(id)))
  {
    TransitionKeepsBook(s, id, Submitting, SimSubmitting);
    var submitting := Transition(s, id, Submitting, SimSubmitting).value;
    ConfirmKeepsBook(submitting, id, LocalSimId(id), SimSubmitted);
  }

  lemma SubmitKeepsBook(cfg: SimConfig, s: Store, id: nat, quote: Quote)
    requires BookOk(s) && id < |s.orders| && Submit(cfg, s, id, quote).Ok?
    ensures BookOk(Submit(cfg, s, id, quote).value.0)
  {
    var o := s.orders[id];
    if o.status != RiskApproved {
    } else if quote.symbol != o.symbol {
      TransitionKeepsBook(s, id, Failed, SimSymbolMismatch);
    } else if Reserve(cfg, s, id, quote).Refused? {
      TransitionKeepsBook(s, id, Failed, SimReservationFailed);
    } else {
      ReserveKeepsBook(cfg, s, id, quote);
      var held := Reserve(cfg, s, id, quote).store;
      AcceptKeepsBook(held, id);
      MatchKeepsBook(cfg, Accept(held, id).value, id, quote);
    }
  }

  lemma ReleaseKeepsBook(cfg: SimConfig, s: Store, id: nat)
    requires BookOk(s) && id < |s.orders| && Release(cfg, s, id).Ok?
    ensures Release(cfg, s, id).value.orders == s.orders && BookOk(Release(cfg, s, id).value)
  {
    var s' := Release(cfg, s, id).value;
    var moved := s'.(audit := s.audit);
    assert s' == Record(moved, SimResourcesReleased, id);
    assert forall j: nat :: View(moved, j) == View(s, j);
    RecordKeepsBook(moved, SimResourcesReleased, id);
  }

  lemma CancelKeepsBook(cfg: SimConfig, s: Store, id: nat)
    requires BookOk(s) && id < |s.orders| && Cancel(cfg, s, id).Ok?
    ensures BookOk(Cancel(cfg, s, id).value.0)
  {
    if s.orders[id].status == Submitted {
      assert ViewOk(id, View(s, id));
      TransitionKeepsBook(s, id, CancelPending, SimCancelPending);
      var pending := Transition(s, id, CancelPending, SimCancelPending).value;
      ReleaseKeepsBook(cfg, pending, id);
      NotifiedTransitionKeepsBook(Release(cfg, pending, id).value, id, Cancelled, SimCancelled);
    }
  }

  lemma {:induction false} MatchRowsKeepsBook(cfg: SimConfig, s: Store, quote: Quote, rows: seq<nat>)
    requires BookOk(s)
    requires forall i :: 0 <= i < |rows| ==> rows[i] < |s.orders| && s.orders[rows[i]].status == Submitted
    requires forall i, j :: 0 <= i < j < |rows| ==> rows[i] != rows[j]
    requires MatchRows(cfg, s, quote, rows).Ok?
    ensures
      var s' := MatchRows(cfg, s, quote, rows).value;
      && BookOk(s')
      && forall j :: 0 <= j < |s.orders| && j !in rows ==> s'.orders[j] == s.orders[j]
  {
    if rows != [] {
      var last := |rows| - 1;
      MatchRowsKeepsBook(cfg, s, quote, rows[..last]);
      var before := MatchRows(cfg, s, quote, rows[..last]).value;
      MatchKeepsBook(cfg, before, rows[last], quote);
      var s' := Match(cfg, before, rows[last], quote).value;
      forall j | 0 <= j < |s.orders| && j !in rows
        ensures s'.orders[j] == s.orders[j]
      {
        assert View(s', j) == View(before, j);
      }
    }
  }

  // ---- the external broker -----------------------------------------------------------------

  lemma LbSubmitKeepsBook(cfg: LbConfig, s: Store, id: nat, reply: Reply)
    requires BookOk(s) && id < |s.orders| && LbSubmit(cfg, s, id, reply).Ok?
    ensures BookOk(LbSubmit(cfg, s, id, reply).value.0)
  {
    if s.orders[id].status != RiskApproved {
    } else if !SubmissionAllowed(cfg) {
      RecordKeepsBook(s, LbSubmissionBlocked, id);
    } else {
      TransitionKeepsBook(s, id, Submitting, LbSubmitting);
      var submitting := Transition(s, id, Submitting, LbSubmitting).value;
      match reply
      case Unreachable => TransitionKeepsBook(submitting, id, Reconciling, LbSubmitUnknown);
      case GatewayError => TransitionKeepsBook(submitting, id, Failed, LbSubmitFailed);
      case Answered(text) =>
        ConfirmKeepsBook(submitting, id, ExternalId(text), LbSubmitted);
    }
  }

  lemma LbCancelKeepsBook(s: Store, id: nat, reply: Reply)
    requires BookOk(s) && id < |s.orders| && LbCancel(s, id, reply).Ok?
    ensures BookOk(LbCancel(s, id, reply).value.0)
  {
    var o := s.orders[id];
    if o.status in {Submitted, PartiallyFilled} && o.brokerOrderId.Some? {
      TransitionKeepsBook(s, id, CancelPending, LbCancelPending);
      if !reply.Answered? {
        TransitionKeepsBook(Transition(s, id, CancelPending, LbCancelPending).value, id, Reconciling,
          LbCancelUnresolved);
      }
    }
  }

  lemma PushKeepsBook(s: Store, brokerId: Option<BrokerId>, target: Option<OrderStatus>)
    requires BookOk(s) && Push(s, brokerId, target).Ok?
    ensures BookOk(Push(s, brokerId, target).value)
  {
    var key := if brokerId.Some? then brokerId.value else ExternalId("None");
    var id := BrokerIdIndex(s.orders, key);
    if id < |s.orders| && target.Some? && target.value != s.orders[id].status {
      if target.value in {Filled, Cancelled} {
        NotifiedTransitionKeepsBook(s, id, target.value, LbPush);
      } else {
        TransitionKeepsBook(s, id, target.value, LbPush);
      }
    }
  }

  // ---- the executor ------------------------------------------------------------------------

  lemma SubmitViaKeepsBook(broker: Broker, s: Store, id: nat, quote: Quote, reply: Reply)
    requires BookOk(s) && id < |s.orders| && SubmitVia(broker, s, id, quote, reply).Ok?
    ensures BookOk(SubmitVia(broker, s, id, quote, reply).value.0)
  {
    match broker
    case UseSim(cfg) => SubmitKeepsBook(cfg, s, id, quote);
    case UseLongbridge(cfg) => LbSubmitKeepsBook(cfg, s, id, reply);
  }

  lemma ChildKeepsBook(broker: Broker, s: Store, parent: Intent, orderType: OrderType,
                       price: Option<real>, reply: Reply, now: int)
    requires BookOk(s) && SubmitChild(broker, s, parent, orderType, price, reply, now).Ok?
    requires parent.signal.Some? ==> parent.signal.value < |s.signals|
    ensures BookOk(SubmitChild(broker, s, parent, orderType, price, reply, now).value.0)
  {
    if parent.side == Buy && Wanted(price) {
      var intent := parent.(side := Sell, orderType := orderType, limitPrice := price);
      CreateKeepsBook(s, intent, now);
      var (created, id) := CreateOrder(s, intent, now);
      TransitionKeepsBook(created, id, RiskApproved, BracketAutoApproved);
      var approved := Transition(created, id, RiskApproved, BracketAutoApproved).value;
      SubmitViaKeepsBook(broker, approved, id, FlatQuote(intent.symbol, price.value), reply);
    }
  }

  lemma MainKeepsBook(broker: Broker, risk: RiskConfig, s: Store, req: Request, intent: Intent)
    requires BookOk(s) && SubmitMain(broker, risk, s, req, intent).Ok?
    requires intent.signal.Some? ==> intent.signal.value < |s.signals|
    ensures BookOk(SubmitMain(broker, risk, s, req, intent).value.0)
  {
    var quote := FlatQuote(intent.symbol, intent.limitPrice.value);
    var ctx := Context(Some(quote), req.marketOpen, req.now);
    CreateKeepsBook(s, intent, req.now);
    var (created, id) := CreateOrder(s, intent, req.now);
    RiskKeepsBook(risk, created, id, ctx);
    SubmitViaKeepsBook(broker, RunRiskCheck(risk, created, id, ctx).value, id, quote, req.mainReply);
  }

  lemma SignalKeepsBook(s: Store, signal: Signal)
    requires BookOk(s)
    ensures BookOk(s.(signals := s.signals + [signal]))
  {
    assert forall j: nat :: View(s.(signals := s.signals + [signal]), j) == View(s, j);
  }

  /** No step of the executor drops a signal. */
  lemma MainKeepsSignals(broker: Broker, risk: RiskConfig, s: Store, req: Request, intent: Intent)
    requires SubmitMain(broker, risk, s, req, intent).Ok?
    ensures |s.signals| <= |SubmitMain(broker, risk, s, req, intent).value.0.signals|
  {
    MainGrows(broker, risk, s, req, intent);
  }

  lemma ChildKeepsSignals(broker: Broker, s: Store, parent: Intent, orderType: OrderType,
                          price: Option<real>, reply: Reply, now: int)
    requires SubmitChild(broker, s, parent, orderType, price, reply, now).Ok?
    ensures |s.signals| <= |SubmitChild(broker, s, parent, orderType, price, reply, now).value.0.signals|
  {
    ChildGrows(broker, s, parent, orderType, price, reply, now);
  }

  lemma ExecuteKeepsBook(broker: Broker, risk: RiskConfig, s: Store, req: Request)
    requires BookOk(s) && Execute(broker, risk, s, req).Ok?
    ensures BookOk(Execute(broker, risk, s, req).value.0)
  {
    var p := req.proposal;
    if TraceIndex(s, req.trace, req.strategy, p.symbol, 0) == |s.orders| {
      var signalled := s.(signals := s.signals + [Signal(req.trace, req.strategy, p.symbol)]);
      SignalKeepsBook(s, Signal(req.trace, req.strategy, p.symbol));
      var intent := MainIntent(req, |s.signals|);
      MainKeepsBook(broker, risk, signalled, req, intent);
      MainKeepsSignals(broker, risk, signalled, req, intent);
      var (main, id) := SubmitMain(broker, risk, signalled, req, intent).value;
      ChildKeepsBook(broker, main, intent, LimitIfTouched, p.takeProfit, req.profitReply, req.now);
      ChildKeepsSignals(broker, main, intent, LimitIfTouched, p.takeProfit, req.profitReply, req.now);
      var profit := SubmitChild(broker, main, intent, LimitIfTouched, p.takeProfit, req.profitReply, req.now).value.0;
      ChildKeepsBook(broker, profit, intent, StopLimit, p.stopLoss, req.lossReply, req.now);
      var loss := SubmitChild(broker, profit, intent, StopLimit, p.stopLoss, req.lossReply, req.now).value.0;
      RecordKeepsBook(loss, TradeApproved, id);
    }
  }

  // ---- every step, every run -------------------------------------------------------------------

  lemma StepKeepsBook(cfg: Config, s: Store, step: Step)
    requires BookOk(s) && Enabled(cfg, s, step)
    ensures BookOk(Apply(cfg, s, step))
  {
    if Call(cfg, s, step).Ok? {
      match step
      case StepCreate(intent, now) => CreateKeepsBook(s, intent, now);
      case StepRisk(id, ctx) => RiskKeepsBook(cfg.risk, s, id, ctx);
      case StepBracket(id) => TransitionKeepsBook(s, id, RiskApproved, BracketAutoApproved);
      case StepSimSubmit(id, quote) => SubmitKeepsBook(cfg.sim, s, id, quote);
      case StepSimCancel(id) => CancelKeepsBook(cfg.sim, s, id);
      case StepSimQuote(quote, rows) => MatchRowsKeepsBook(cfg.sim, s, quote, rows);
      case StepLbSubmit(id, reply) => LbSubmitKeepsBook(cfg.lb, s, id, reply);
      case StepLbCancel(id, reply) => LbCancelKeepsBook(s, id, reply);
      case StepPush(brokerId, target) => PushKeepsBook(s, brokerId, target);
      case StepExecute(broker, req) => ExecuteKeepsBook(broker, cfg.risk, s, req);
    }
  }

  lemma {:induction false} RunKeepsBook(cfg: Config, states: seq<Store>, steps: seq<Step>, i: nat)
    requires IsRun(cfg, states, steps) && BookOk(states[0]) && i < |states|
    ensures BookOk(states[i])
  {
    if i > 0 {
      RunKeepsBook(cfg, states, steps, i - 1);
      StepKeepsBook(cfg, states[i - 1], steps[i - 1]);
      assert states[i] == Apply(cfg, states[i - 1], steps[i - 1]);
    }
  }

  lemma OpeningHasBook(s: Store)
    requires IsOpening(s)
    ensures BookOk(s)
  {
  }

  // ---- what a reader of the database may rely on -------------------------------------------------

  /** The audit rows of an order, idempotency hits aside, are an unbroken chain of
      allowed moves from its creation to its live status. */
  lemma AuditReplaysToLiveState(cfg: Config, states: seq<Store>, steps: seq<Step>, i: nat, id: nat)
    requires IsRun(cfg, states, steps) && IsOpening(states[0])
    requires i < |states| && id < |states[i].orders|
    ensures
      var story := Story(states[i].audit, id);
      && IsChain(story) && story != []
      && story[|story| - 1].next == Some(states[i].orders[id].status)
  {
    OpeningHasBook(states[0]);
    RunKeepsBook(cfg, states, steps, i);
    assert ViewOk(id, View(states[i], id));
    ReplayMeansChain(states[i].audit, id);
  }

  /** One filled event for a filled order, one cancelled event for a cancelled
      order, and no such event for any other order or for no order at all. */
  lemma OutboxMatchesEndStates(cfg: Config, states: seq<Store>, steps: seq<Step>, i: nat, id: nat)
    requires IsRun(cfg, states, steps) && IsOpening(states[0]) && i < |states|
    ensures
      var s := states[i];
      && multiset(s.outbox)[OrderFilled(id)]
         == (if id < |s.orders| && s.orders[id].status == Filled then 1 else 0)
      && multiset(s.outbox)[OrderCancelled(id)]
         == (if id < |s.orders| && s.orders[id].status == Cancelled then 1 else 0)
  {
    OpeningHasBook(states[0]);
    RunKeepsBook(cfg, states, steps, i);
    assert ViewOk(id, View(states[i], id));
  }

  /** An order the broker holds, held or finished has a broker id, and went through
      risk approval, although the table alone would let a created order fail,
      reconcile and be submitted. */
  lemma BrokeredOrdersWereApproved(cfg: Config, states: seq<Store>, steps: seq<Step>, i: nat, id: nat)
    requires IsRun(cfg, states, steps) && IsOpening(states[0])
    requires i < |states| && id < |states[i].orders| && Brokered(states[i].orders[id].status)
    ensures states[i].orders[id].brokerOrderId.Some?
    ensures exists k :: 0 <= k < |states[i].audit| && Tells(states[i].audit[k], id)
                        && states[i].audit[k].next == Some(RiskApproved)
    ensures Failed in Transitions(Created) && Reconciling in Transitions(Failed)
            && Submitted in Transitions(Reconciling)
  {
    OpeningHasBook(states[0]);
    RunKeepsBook(cfg, states, steps, i);
    assert ViewOk(id, View(states[i], id));
    ApprovalRow(states[i].audit, id);
  }

  lemma {:induction false} ApprovalRow(rows: seq<AuditRow>, id: nat)
    requires WasApproved(rows, id)
    ensures exists k :: 0 <= k < |rows| && Tells(rows[k], id) && rows[k].next == Some(RiskApproved)
  {
    var last := |rows| - 1;
    if WasApproved(rows[..last], id) {
      ApprovalRow(rows[..last], id);
      var k :| 0 <= k < last && Tells(rows[..last][k], id) && rows[..last][k].next == Some(RiskApproved);
      assert rows[k] == rows[..last][k];
    }
  }

  /** A status without successors is where replaying stays. */
  lemma {:induction false} ReplayStaysAtEnd(rows: seq<AuditRow>, more: seq<AuditRow>, id: nat)
    requires rows <= more && Replay(rows, id).At? && Transitions(Replay(rows, id).status) == {}
    ensures Replay(more, id) in {Replay(rows, id), Broken}
  {
    if |more| > |rows| {
      ReplayStaysAtEnd(rows, more[..|more| - 1], id);
    } else {
      assert more == rows;
    }
  }

  /** Filled, cancelled and rejected orders keep their status for ever. */
  lemma EndStatesAreFinal(cfg: Config, states: seq<Store>, steps: seq<Step>, i: nat, k: nat, id: nat)
    requires IsRun(cfg, states, steps) && IsOpening(states[0])
    requires i <= k < |states| && id < |states[i].orders|
    requires states[i].orders[id].status in {Filled, Cancelled, RiskRejected}
    ensures id < |states[k].orders| && states[k].orders[id].status == states[i].orders[id].status
  {
    OpeningHasBook(states[0]);
    RunKeepsBook(cfg, states, steps, i);
    RunKeepsBook(cfg, states, steps, k);
    RunGrows(cfg, states, steps, i, k);
    assert ViewOk(id, View(states[i], id)) && ViewOk(id, View(states[k], id));
    ReplayStaysAtEnd(states[i].audit, states[k].audit, id);
  }

  /** A push delivered twice has the effect of the first delivery. */
  lemma DuplicatePushIsNoop(cfg: Config, s: Store, brokerId: Option<BrokerId>, target: Option<OrderStatus>)
    requires BookOk(s)
    ensures
      var push := StepPush(brokerId, target);
      Apply(cfg, Apply(cfg, s, push), push) == Apply(cfg, s, push)
  {
    var key := if brokerId.Some? then brokerId.value else ExternalId("None");
    var id := BrokerIdIndex(s.orders, key);
    var s' := Apply(cfg, s, StepPush(brokerId, target));
    if s' != s {
      PushKeepsBook(s, brokerId, target);
      var id' := BrokerIdIndex(s'.orders, key);
      assert s'.orders[id].brokerOrderId == Some(key);
      assert id' < |s'.orders| by {
        assert BrokerIdTaken(s'.orders, key);
      }
      assert id' == id;
    }
  }
}

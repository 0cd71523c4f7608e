/** Values shared by every component: options, raised errors, and the order
    vocabulary with its transition table. */
module Domain {
  datatype Option<+T> = None | Some(value: T)

  /** What the source raises.  A raise unwinds to a handler that rolls the
      database session back, so a raised result carries no store. */
  datatype Error =
    | InvalidOrderTransition
    | UnknownAccount
    | MissingPosition
    | ReservationNeedsQuote
    | DuplicateBrokerId
    | InvalidInput
    | RefusedByRisk
    | RefusedByBroker

  datatype Result<+T> = Ok(value: T) | Raised(error: Error) {
    predicate IsFailure() {
      Raised?
    }

    function PropagateFailure<U>(): Result<U>
      requires Raised?
    {
      Raised(error)
    }

    function Extract(): T
      requires Ok?
    {
      value
    }
  }

  datatype Side = Buy | Sell

  datatype OrderType = Market | Limit | LimitIfTouched | StopLimit

  datatype OrderStatus =
    | Created
    | RiskRejected
    | RiskApproved
    | Submitting
    | Submitted
    | PartiallyFilled
    | Filled
    | CancelPending
    | Cancelled
    | Failed
    | Reconciling

  /** The adjacency table of the order life cycle. */
  function Transitions(from: OrderStatus): set<OrderStatus> {
    match from
    case Created => {RiskApproved, RiskRejected, Failed}
    case RiskRejected => {}
    case RiskApproved => {Submitting, Failed}
    case Submitting => {Submitted, Failed, Reconciling}
    case Submitted => {PartiallyFilled, Filled, CancelPending, Cancelled, Failed, Reconciling}
    case PartiallyFilled => {Filled, CancelPending, Cancelled, Reconciling}
    case Filled => {}
    case CancelPending => {Cancelled, PartiallyFilled, Filled, Reconciling}
    case Cancelled => {}
    case Failed => {Reconciling}
    case Reconciling => {Submitted, PartiallyFilled, Filled, Cancelled, Failed}
  }

  /** Account ids, symbols, strategy names and trace ids are only ever compared
      for equality, so they are numbers here.  Rows of a table are identified by
      their index, which makes every new id fresh. */
  type AccountId = nat
  type Symbol = nat

  datatype BrokerId = LocalSimId(order: nat) | ExternalId(text: string)
}

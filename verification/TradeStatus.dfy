/** How a worker's position status maps onto the broker's trade lifecycle. */
module TradeStatus {
  import opened Wrappers

  /** Worker position statuses; `Other` is any text the broker does not know. */
  datatype PositionStatus =
    | OPENED | REJECTED | TP1 | TP2 | SL | R_SL | TERMINAL_CLOSED | FORCED_CLOSED | FLATTED | Other(text: string)

  datatype TradeStatus = Opened | Rejected | PartiallyClosed | Closed | Flat

  /** The action an operator knows an event by: a position status, or FLAT for FLATTED. */
  datatype ActionLabel = Named(status: PositionStatus) | FLAT

  function ToTradeStatus(position: PositionStatus): Option<TradeStatus> {
    match position
    case OPENED => Some(Opened)
    case REJECTED => Some(Rejected)
    case TP1 => Some(PartiallyClosed)
    case TP2 => Some(Closed)
    case SL => Some(Closed)
    case R_SL => Some(Closed)
    case TERMINAL_CLOSED => Some(Closed)
    case FORCED_CLOSED => Some(Closed)
    case FLATTED => Some(Flat)
    case Other(_) => None
  }

  function ToLastAction(position: PositionStatus): Option<ActionLabel> {
    if ToTradeStatus(position).None? then None
    else if position.FLATTED? then Some(FLAT)
    else Some(Named(position))
  }

  predicate IsOpen(position: PositionStatus) {
    position.OPENED? || position.TP1?
  }

  function Rank(status: TradeStatus): int {
    match status
    case Opened => 0
    case PartiallyClosed => 1
    case Closed => 2
    case Flat => 2
    case Rejected => -1
  }

  predicate IsDowngrade(next: TradeStatus, current: TradeStatus) {
    Rank(next) < Rank(current)
  }
}

/** The order service's tables and the effect of its event handlers on them. */
module OrderStore {
  import opened Events

  datatype Status = Pending | AwaitingPayment | Paid | Cancelled

  datatype Order = Order(user: UserId, product: ProductId, quantity: int, total: Money, status: Status)

  type Orders = map<OrderNo, Order>

  /** What a client polling for its order is told. */
  datatype Verdict = InProgress | Success | Failed

  /** INSERT under the unique indexes on order_no and on (user_id, product_id). */
  function InsertOrder(orders: Orders, no: OrderNo, o: Order): Option<Orders> {
    if no in orders || OrderedBy(orders, o.user, o.product) then None else Some(orders[no := o])
  }

  predicate OrderedBy(orders: Orders, user: UserId, product: ProductId) {
    exists n | n in orders :: orders[n].user == user && orders[n].product == product
  }

  /** UPDATE ... SET status WHERE order_no; None when no row matched. The old status is not looked at. */
  function SetStatus(orders: Orders, no: OrderNo, status: Status): Option<Orders> {
    if no in orders then Some(orders[no := orders[no].(status := status)]) else None
  }

  /** Effect of one handler: the new order table, the outbox rows it adds in the same transaction,
      and the verdict it writes to Redis afterwards. */
  datatype Reaction = Reaction(orders: Orders, emitted: seq<Event>, verdict: Option<Verdict>)

  function Ignore(orders: Orders): Reaction {
    Reaction(orders, [], None)
  }

  /** Event dispatch of the order service; events of other topics are ignored. */
  function React(orders: Orders, e: Event): Reaction {
    if e.order !in orders then Ignore(orders)
    else
      var o := orders[e.order];
      match e
      case StockDeducted(no, _, _) =>
        Move(orders, no, AwaitingPayment, PaymentRequested(no, o.user, o.total), None)
      case StockDeductFailed(no, product) =>
        Move(orders, no, Cancelled, OrderCancelled(no, o.user, product, o.quantity), Some(Failed))
      case PaymentSucceeded(no, _) =>
        Move(orders, no, Paid, OrderCompleted(no, o.product, o.quantity), Some(Success))
      case PaymentFailed(no, _) =>
        Move(orders, no, Cancelled, OrderCancelled(no, o.user, o.product, o.quantity), Some(Failed))
      case _ => Ignore(orders)
  }

  /** The transaction every branch runs: overwrite the status, add one outbox row. */
  function Move(orders: Orders, no: OrderNo, status: Status, row: Event, verdict: Option<Verdict>): Reaction {
    match SetStatus(orders, no, status)
    case Some(orders') => Reaction(orders', [row], verdict)
    case None => Ignore(orders)
  }

  /** Answer to a poll: the Redis verdict if Redis answers and has one, else what the order row's status says. */
  function Poll(results: map<OrderNo, Verdict>, orders: Orders, no: OrderNo, redisFails: bool): Verdict {
    if no in results && !redisFails then results[no]
    else if no !in orders then InProgress
    else VerdictOf(orders[no].status)
  }

  function VerdictOf(status: Status): Verdict {
    match status
    case Paid => Success
    case Cancelled => Failed
    case _ => InProgress
  }
}

/** Identifiers, event payloads and topics shared by the three services (pkg/event/types.go). */
module Events {

  type UserId = nat
  type ProductId = nat
  type OrderNo = nat
  type Money = real

  datatype Option<+T> = None | Some(value: T)

  /** One saga message. The EventID and timestamp carry no behaviour: no handler looks at them. */
  datatype Event =
    | OrderCreated(order: OrderNo, user: UserId, product: ProductId, quantity: int, total: Money)
    | PaymentRequested(order: OrderNo, user: UserId, amount: Money)
    | OrderCompleted(order: OrderNo, product: ProductId, quantity: int)
    | OrderCancelled(order: OrderNo, user: UserId, product: ProductId, quantity: int)
    | StockDeducted(order: OrderNo, product: ProductId, quantity: int)
    | StockDeductFailed(order: OrderNo, product: ProductId)
    | PaymentSucceeded(order: OrderNo, amount: Money)
    | PaymentFailed(order: OrderNo, amount: Money)

  /** The topic an event is written for; each topic is fed by exactly one service's outbox table. */
  datatype Topic = OrderEvents | InventoryEvents | PaymentEvents

  function TopicOf(e: Event): Topic {
    match e
    case OrderCreated(_, _, _, _, _) | PaymentRequested(_, _, _) | OrderCompleted(_, _, _)
       | OrderCancelled(_, _, _, _) => OrderEvents
    case StockDeducted(_, _, _) | StockDeductFailed(_, _) => InventoryEvents
    case PaymentSucceeded(_, _) | PaymentFailed(_, _) => PaymentEvents
  }
}

/** The inventory row, its guarded updates, and the effect of the inventory service's handlers. */
module InventoryStore {
  import opened Events

  datatype Row = Row(total: int, available: int, locked: int, version: int)

  type Stock = map<ProductId, Row>

  /** UPDATE guarded by enough available stock and an unchanged version. */
  function DeductWithLock(row: Row, quantity: int, version: int): Option<Row> {
    if row.available >= quantity && row.version == version then
      Some(row.(available := row.available - quantity, locked := row.locked + quantity, version := row.version + 1))
    else None
  }

  /** UPDATE guarded by enough locked stock, in aggregate over all orders. */
  function ReturnStock(row: Row, quantity: int): Option<Row> {
    if row.locked >= quantity then
      Some(row.(available := row.available + quantity, locked := row.locked - quantity, version := row.version + 1))
    else None
  }

  /** UPDATE guarded by enough locked stock; the units leave the row. */
  function ConfirmDeduction(row: Row, quantity: int): Option<Row> {
    if row.locked >= quantity then
      Some(row.(locked := row.locked - quantity, version := row.version + 1))
    else None
  }

  datatype DeductOutcome = Deducted | NotFound | Insufficient

  /** Deduct while no other transaction touches the row: the first attempt settles it. */
  function Deduct(stock: Stock, product: ProductId, quantity: int): (Stock, DeductOutcome) {
    if product !in stock then (stock, NotFound)
    else match DeductWithLock(stock[product], quantity, stock[product].version)
      case Some(row) => (stock[product := row], Deducted)
      case None => (stock, Insufficient)
  }

  function Return(stock: Stock, product: ProductId, quantity: int): Stock {
    if product !in stock then stock
    else match ReturnStock(stock[product], quantity)
      case Some(row) => stock[product := row]
      case None => stock
  }

  function Confirm(stock: Stock, product: ProductId, quantity: int): Stock {
    if product !in stock then stock
    else match ConfirmDeduction(stock[product], quantity)
      case Some(row) => stock[product := row]
      case None => stock
  }

  /** Effect of one handler on the inventory database. The Redis part of a cancellation follows separately. */
  datatype Reaction = Reaction(stock: Stock, emitted: seq<Event>)

  function React(stock: Stock, e: Event): Reaction {
    match e
    case OrderCreated(no, _, product, quantity, _) =>
      var (stock', outcome) := Deduct(stock, product, quantity);
      Reaction(stock', [if outcome.Deducted? then StockDeducted(no, product, quantity)
                        else StockDeductFailed(no, product)])
    case OrderCompleted(_, product, quantity) => Reaction(Confirm(stock, product, quantity), [])
    case OrderCancelled(_, _, product, quantity) => Reaction(Return(stock, product, quantity), [])
    case _ => Reaction(stock, [])
  }
}

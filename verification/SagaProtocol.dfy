/** The flash-sale saga as a step machine: every Redis command, every database statement or transaction,
    every publication and every delivery is one atomic step, and steps interleave freely. */
module SagaProtocol {
  import opened Events
  import OrderStore
  import InventoryStore

  datatype Key = Key(user: UserId, product: ProductId)

  datatype Rejection = DuplicateOrder | ProductNotFound | ProductOffSale | StockInsufficient | Internal

  datatype Outcome = Accepted(order: OrderNo) | Rejected(reason: Rejection)

  /** Where a Seckill call is: the constructor names the command it runs next. */
  datatype Pc =
    | TryLock
    | CheckDatabase
    | CheckProduct
    | DeductRedis(price: Money)
    | UndoDeduct
    | CreateOrder(price: Money)
    | RollBackRedis
    | DropKey(reason: Rejection)
    | WritePending(order: OrderNo)
    | Done(outcome: Outcome)

  datatype Call = Call(user: UserId, product: ProductId, quantity: int, pc: Pc)

  /** What is left to do of an event handler after its database transaction. */
  datatype Handler =
    | RestoreRedis(order: OrderNo, user: UserId, product: ProductId, quantity: int)
    | DeleteKey(order: OrderNo, user: UserId, product: ProductId)
    | WriteVerdict(order: OrderNo, verdict: OrderStore.Verdict)
    | Finished

  datatype Payment = Payment(order: OrderNo, user: UserId, amount: Money, succeeded: bool)

  /** `rows` holds the three outbox tables in insertion order; TopicOf tells which table a row is in.
      `log` lists the published rows of all topics in publication order; a topic's log is the
      subsequence of its entries. `consumed` remembers the rows delivered at least once. */
  datatype State = State(
    stock: map<ProductId, int>,
    keys: set<Key>,
    results: map<OrderNo, OrderStore.Verdict>,
    orders: OrderStore.Orders,
    inventory: InventoryStore.Stock,
    payments: seq<Payment>,
    rows: seq<Event>,
    log: seq<nat>,
    consumed: set<nat>,
    calls: map<nat, Call>,
    handlers: map<nat, Handler>)

  /** Reply to a Redis command: an error may hide that the command was executed. */
  datatype Reply = Ok | Error(executed: bool)

  datatype Lookup = OnSale(price: Money) | OffSale | Missing | LookupFailed

  datatype Step =
    | Begin(call: nat, user: UserId, product: ProductId, quantity: int)
    | SetNX(call: nat, reply: Reply)
    | QueryOrders(call: nat, failed: bool)
    | QueryProduct(call: nat, lookup: Lookup)
    | DecrBy(call: nat, reply: Reply)
    | IncrBy(call: nat, executed: bool)
    | Transact(call: nat, order: OrderNo, failed: bool)
    | Del(call: nat, executed: bool)
    | SetPending(call: nat, executed: bool)
    | Publish(row: nat)
    | Deliver(row: nat, handler: nat, charged: bool)
    | Continue(handler: nat, executed: bool)
    | ExpireKey(key: Key)
    | ExpireResult(order: OrderNo)

  function StockOf(s: State, p: ProductId): int {
    if p in s.stock then s.stock[p] else 0
  }

  function AddStock(stock: map<ProductId, int>, p: ProductId, amount: int): map<ProductId, int> {
    stock[p := (if p in stock then stock[p] else 0) + amount]
  }

  function CallKey(c: Call): Key {
    Key(c.user, c.product)
  }

  function Jump(calls: map<nat, Call>, c: nat, pc: Pc): map<nat, Call>
    requires c in calls
  {
    calls[c := calls[c].(pc := pc)]
  }

  /** May the step happen in this state? The request of a new call has been validated: at least one unit. */
  predicate Enabled(s: State, step: Step) {
    match step
    case Begin(c, _, _, quantity) => c !in s.calls && quantity >= 1
    case SetNX(c, _) => c in s.calls && s.calls[c].pc.TryLock?
    case QueryOrders(c, _) => c in s.calls && s.calls[c].pc.CheckDatabase?
    case QueryProduct(c, _) => c in s.calls && s.calls[c].pc.CheckProduct?
    case DecrBy(c, _) => c in s.calls && s.calls[c].pc.DeductRedis?
    case IncrBy(c, _) => c in s.calls && (s.calls[c].pc.UndoDeduct? || s.calls[c].pc.RollBackRedis?)
    case Transact(c, _, _) => c in s.calls && s.calls[c].pc.CreateOrder?
    case Del(c, _) => c in s.calls && s.calls[c].pc.DropKey?
    case SetPending(c, _) => c in s.calls && s.calls[c].pc.WritePending?
    case Publish(r) => r < |s.rows|
    case Deliver(r, h, _) => r in s.log && r < |s.rows| && h !in s.handlers
    case Continue(h, _) => h in s.handlers && !s.handlers[h].Finished?
    case ExpireKey(_) => true
    case ExpireResult(_) => true
  }

  function Apply(s: State, step: Step): State
    requires Enabled(s, step)
  {
    match step
    case Begin(c, user, product, quantity) => s.(calls := s.calls[c := Call(user, product, quantity, TryLock)])
    case SetNX(c, reply) =>
      var key := CallKey(s.calls[c]);
      s.(keys := KeysAfterSetNX(s.keys, key, reply), calls := Jump(s.calls, c, PcAfterSetNX(s.keys, key, reply)))
    case QueryOrders(c, failed) =>
      s.(calls := Jump(s.calls, c,
           if failed then Done(Rejected(Internal))
           else if OrderStore.OrderedBy(s.orders, s.calls[c].user, s.calls[c].product)
           then Done(Rejected(DuplicateOrder))
           else CheckProduct))
    case QueryProduct(c, lookup) => s.(calls := Jump(s.calls, c, PcAfterLookup(lookup)))
    case DecrBy(c, reply) =>
      var call := s.calls[c];
      var lowered := AddStock(s.stock, call.product, -call.quantity);
      s.(stock := if reply == Error(false) then s.stock else lowered,
         calls := Jump(s.calls, c, PcAfterDecrBy(lowered[call.product], reply, call.pc.price)))
    case IncrBy(c, executed) =>
      var call := s.calls[c];
      s.(stock := if executed then AddStock(s.stock, call.product, call.quantity) else s.stock,
         calls := Jump(s.calls, c, DropKey(if call.pc.UndoDeduct? then StockInsufficient else Internal)))
    case Transact(c, no, failed) =>
      var call := s.calls[c];
      if Commits(s, call, no, failed) then
        s.(orders := s.orders[no := NewOrder(call)],
           rows := s.rows + [OrderCreated(no, call.user, call.product, call.quantity, NewOrder(call).total)],
           calls := Jump(s.calls, c, WritePending(no)))
      else s.(calls := Jump(s.calls, c, RollBackRedis))
    case Del(c, executed) =>
      s.(keys := if executed then s.keys - {CallKey(s.calls[c])} else s.keys,
         calls := Jump(s.calls, c, Done(Rejected(s.calls[c].pc.reason))))
    case SetPending(c, executed) =>
      var no := s.calls[c].pc.order;
      s.(results := if executed then s.results[no := OrderStore.InProgress] else s.results,
         calls := Jump(s.calls, c, Done(Accepted(no))))
    case Publish(r) => s.(log := s.log + [r])
    case Deliver(r, h, charged) => ApplyDeliver(s, r, h, charged)
    case Continue(h, executed) => ApplyContinue(s, h, executed)
    case ExpireKey(k) => s.(keys := s.keys - {k})
    case ExpireResult(no) => s.(results := s.results - {no})
  }

  /** SETNX: an error falls back to asking the database, whether or not the key was set. */
  function PcAfterSetNX(keys: set<Key>, key: Key, reply: Reply): Pc {
    if reply.Error? then CheckDatabase
    else if key in keys then Done(Rejected(DuplicateOrder)) else CheckProduct
  }

  function KeysAfterSetNX(keys: set<Key>, key: Key, reply: Reply): set<Key> {
    if reply == Error(false) then keys else keys + {key}
  }

  function PcAfterLookup(lookup: Lookup): Pc {
    match lookup
    case OnSale(price) => DeductRedis(price)
    case OffSale => DropKey(ProductOffSale)
    case Missing => DropKey(ProductNotFound)
    case LookupFailed => DropKey(Internal)
  }

  /** DECRBY: a negative counter must be undone; an error is not undone. */
  function PcAfterDecrBy(counter: int, reply: Reply, price: Money): Pc {
    if reply.Error? then DropKey(StockInsufficient)
    else if counter < 0 then UndoDeduct else CreateOrder(price)
  }

  function NewOrder(call: Call): OrderStore.Order
    requires call.pc.CreateOrder?
  {
    OrderStore.Order(call.user, call.product, call.quantity, call.pc.price * call.quantity as real, OrderStore.Pending)
  }

  /** The order row and its ORDER_CREATED outbox row go into one transaction, which fails on a database
      error and on either unique index. */
  predicate Commits(s: State, call: Call, no: OrderNo, failed: bool)
    requires call.pc.CreateOrder?
  {
    !failed && OrderStore.InsertOrder(s.orders, no, NewOrder(call)).Some?
  }

  /** The database transaction of the handler a published row is dispatched to. No handler looks at
      whether it has seen the event before. `charged` is the payment service's random choice. */
  function ApplyDeliver(s: State, r: nat, h: nat, charged: bool): State
    requires Enabled(s, Deliver(r, h, charged))
  {
    var e := s.rows[r];
    var seen := s.consumed + {r};
    match TopicConsumer(e)
    case InventoryService =>
      var reaction := InventoryStore.React(s.inventory, e);
      s.(consumed := seen, inventory := reaction.stock, rows := s.rows + reaction.emitted,
         handlers := if e.OrderCancelled?
                     then s.handlers[h := RestoreRedis(e.order, e.user, e.product, e.quantity)] else s.handlers)
    case PaymentService =>
      s.(consumed := seen, payments := s.payments + [Payment(e.order, e.user, e.amount, charged)],
         rows := s.rows + [if charged then PaymentSucceeded(e.order, e.amount) else PaymentFailed(e.order, e.amount)])
    case OrderService =>
      var reaction := OrderStore.React(s.orders, e);
      s.(consumed := seen, orders := reaction.orders, rows := s.rows + reaction.emitted,
         handlers := if reaction.verdict.Some?
                     then s.handlers[h := WriteVerdict(e.order, reaction.verdict.value)] else s.handlers)
  }

  datatype Service = OrderService | InventoryService | PaymentService

  /** The one service whose handler acts on the event; the others that read its topic ignore it. */
  function TopicConsumer(e: Event): (service: Service)
    ensures service.PaymentService? <==> e.PaymentRequested?
    ensures service.InventoryService? <==> TopicOf(e).OrderEvents? && !e.PaymentRequested?
  {
    match e
    case PaymentRequested(_, _, _) => PaymentService
    case OrderCreated(_, _, _, _, _) | OrderCompleted(_, _, _) | OrderCancelled(_, _, _, _) => InventoryService
    case _ => OrderService
  }

  /** The Redis commands a handler sends after its transaction; their errors are ignored. */
  function ApplyContinue(s: State, h: nat, executed: bool): State
    requires Enabled(s, Continue(h, executed))
  {
    match s.handlers[h]
    case RestoreRedis(no, user, product, quantity) =>
      s.(stock := if executed then AddStock(s.stock, product, quantity) else s.stock,
         handlers := s.handlers[h := DeleteKey(no, user, product)])
    case DeleteKey(no, user, product) =>
      s.(keys := if executed then s.keys - {Key(user, product)} else s.keys,
         handlers := s.handlers[h := Finished])
    case WriteVerdict(no, verdict) =>
      s.(results := if executed then s.results[no := verdict] else s.results,
         handlers := s.handlers[h := Finished])
  }

  /** Before the sale: no orders, and Redis preloaded with at most the available stock of each product. */
  predicate Init(s: State) {
    && s.keys == {} && s.results == map[] && s.orders == map[] && s.payments == [] && s.rows == [] && s.log == []
    && s.consumed == {} && s.calls == map[] && s.handlers == map[]
    && (forall p | p in s.inventory :: s.inventory[p].available >= 0 && s.inventory[p].locked == 0)
    && (forall p | p in s.stock :: 0 <= s.stock[p] && s.stock[p] <= AvailableOf(s, p))
  }

  function AvailableOf(s: State, p: ProductId): int {
    if p in s.inventory then s.inventory[p].available else 0
  }

  function LockedOf(s: State, p: ProductId): int {
    if p in s.inventory then s.inventory[p].locked else 0
  }

  /** A run is a list of steps, each enabled where it happens. */
  predicate Runs(s: State, steps: seq<Step>)
    decreases |steps|, 0
  {
    steps == [] || (Runs(s, Front(steps)) && Enabled(After(s, Front(steps)), Last(steps)))
  }

  /** The state a run ends in. */
  function After(s: State, steps: seq<Step>): State
    requires Runs(s, steps)
    decreases |steps|, 1
  {
    if steps == [] then s else Apply(After(s, Front(steps)), Last(steps))
  }

  function Front(steps: seq<Step>): seq<Step>
    requires steps != []
  {
    steps[..|steps| - 1]
  }

  function Last(steps: seq<Step>): Step
    requires steps != []
  {
    steps[|steps| - 1]
  }

  /** Hypothesis of the properties that duplicates would break: the step does not deliver a row again. */
  predicate FirstDelivery(s: State, step: Step) {
    step.Deliver? ==> step.row !in s.consumed
  }

  predicate AtMostOnce(s: State, steps: seq<Step>)
    requires Runs(s, steps)
    decreases |steps|
  {
    steps == [] || (AtMostOnce(s, Front(steps)) && FirstDelivery(After(s, Front(steps)), Last(steps)))
  }

  /** Runs grow at the end. */
  lemma Extend(s: State, steps: seq<Step>, step: Step)
    requires Runs(s, steps) && Enabled(After(s, steps), step)
    ensures Runs(s, steps + [step]) && After(s, steps + [step]) == Apply(After(s, steps), step)
  {
    assert Front(steps + [step]) == steps;
  }

  /** And come apart there. */
  lemma LastStep(s: State, steps: seq<Step>)
    requires Runs(s, steps) && steps != []
    ensures Runs(s, Front(steps)) && Enabled(After(s, Front(steps)), Last(steps))
    ensures After(s, steps) == Apply(After(s, Front(steps)), Last(steps))
  {
  }

  lemma ExtendOnce(s: State, steps: seq<Step>, step: Step)
    requires Runs(s, steps) && AtMostOnce(s, steps)
    requires Enabled(After(s, steps), step) && FirstDelivery(After(s, steps), step)
    ensures Runs(s, steps + [step]) && AtMostOnce(s, steps + [step])
  {
    assert Front(steps + [step]) == steps;
  }

  lemma LastOnce(s: State, steps: seq<Step>)
    requires Runs(s, steps) && AtMostOnce(s, steps) && steps != []
    ensures AtMostOnce(s, Front(steps)) && FirstDelivery(After(s, Front(steps)), Last(steps))
  {
  }

  /** A prefix of a run is a run. */
  lemma {:induction false} PrefixRuns(s0: State, steps: seq<Step>, i: nat)
    requires Runs(s0, steps) && i <= |steps|
    ensures Runs(s0, steps[..i])
    ensures AtMostOnce(s0, steps) ==> AtMostOnce(s0, steps[..i])
    decreases |steps|
  {
    if i == |steps| {
      assert steps[..i] == steps;
    } else {
      assert Front(steps)[..i] == steps[..i];
      PrefixRuns(s0, Front(steps), i);
    }
  }

  /** Hypothesis of the final balance and of polls: Redis answers. */
  predicate RedisAnswers(step: Step) {
    match step
    case SetNX(_, reply) => reply.Ok?
    case DecrBy(_, reply) => reply.Ok?
    case IncrBy(_, executed) => executed
    case Del(_, executed) => executed
    case SetPending(_, executed) => executed
    case Continue(_, executed) => executed
    case _ => true
  }

  /** Hypothesis of key ownership: and no key expires. */
  predicate RedisUp(step: Step) {
    RedisAnswers(step) && !step.ExpireKey?
  }
}

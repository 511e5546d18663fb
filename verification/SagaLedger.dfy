/** The inductive invariant of the saga under at-most-once delivery: a ghost ledger that knows, for every
    order, how far it has come and which outbox row or handler carries it on, and that accounts for
    every unit of stock. Nothing in the protocol reads the ledger. */
module SagaLedger {
  import opened Events
  import opened SagaProtocol
  import opened Totals
  import OrderStore
  import InventoryStore

  /** How far an order has come. */
  datatype Stage =
    | Created            // ORDER_CREATED written
    | Reserved           // stock moved to locked, STOCK_DEDUCTED written
    | Requested          // awaiting payment, PAYMENT_REQUESTED written
    | Charged(ok: bool)  // payment row and its result event written
    | Completed          // paid, ORDER_COMPLETED written
    | Confirmed          // locked units left the row
    | Cancelled          // cancelled, ORDER_CANCELLED written
    | Returned           // units back in available, Redis not yet
    | Restored           // units back in Redis, key not yet deleted
    | Released           // key deleted

  /** `at` is the row that carries an open stage, or the handler that carries a clean-up stage. */
  datatype Track = Track(stage: Stage, at: nat)

  /** `leaked` counts units a Redis error took out of the counter for good. */
  datatype Ledger = Ledger(tracks: map<OrderNo, Track>, leaked: map<ProductId, int>)

  const EMPTY_LEDGER := Ledger(map[], map[])

  predicate Open(stage: Stage) {
    stage.Created? || stage.Reserved? || stage.Requested? || stage.Charged? || stage.Completed? || stage.Cancelled?
  }

  predicate CleaningUp(stage: Stage) {
    stage.Returned? || stage.Restored?
  }

  function StatusOf(stage: Stage): OrderStore.Status {
    match stage
    case Created | Reserved => OrderStore.Pending
    case Requested | Charged(_) => OrderStore.AwaitingPayment
    case Completed | Confirmed => OrderStore.Paid
    case _ => OrderStore.Cancelled
  }

  /** The outbox row that carries an open stage. */
  function Token(no: OrderNo, o: OrderStore.Order, stage: Stage): Event
    requires Open(stage)
  {
    match stage
    case Created => OrderCreated(no, o.user, o.product, o.quantity, o.total)
    case Reserved => StockDeducted(no, o.product, o.quantity)
    case Requested => PaymentRequested(no, o.user, o.total)
    case Charged(ok) => if ok then PaymentSucceeded(no, o.total) else PaymentFailed(no, o.total)
    case Completed => OrderCompleted(no, o.product, o.quantity)
    case Cancelled => OrderCancelled(no, o.user, o.product, o.quantity)
  }

  /** The handler work that carries a clean-up stage. */
  function Chore(no: OrderNo, o: OrderStore.Order, stage: Stage): Handler
    requires CleaningUp(stage)
  {
    if stage.Returned? then RestoreRedis(no, o.user, o.product, o.quantity) else DeleteKey(no, o.user, o.product)
  }

  /** The stage an open order moves to when its row is delivered. */
  function NextStage(stage: Stage, charged: bool): Stage
    requires Open(stage)
  {
    match stage
    case Created => Reserved
    case Reserved => Requested
    case Requested => Charged(charged)
    case Charged(ok) => if ok then Completed else Cancelled
    case Completed => Confirmed
    case Cancelled => Returned
  }

  // ---------------------------------------------------------------- where the units are

  /** Where the units of an order are, or of a Seckill call in progress. */
  datatype Account =
    | InTransit  // taken from Redis, still available in the database
    | Locked     // locked in the database
    | Sold       // gone from the database
    | Overdrawn  // taken from Redis by a call that found too little there and must put them back

  function OrderUnits(o: OrderStore.Order, t: Track, p: ProductId, account: Account): int {
    if o.product != p then 0
    else
      match account
      case InTransit => if t.stage.Created? || t.stage.Returned? then o.quantity else 0
      case Locked => if Open(t.stage) && !t.stage.Created? then o.quantity else 0
      case Sold => if t.stage.Confirmed? then o.quantity else 0
      case Overdrawn => 0
  }

  function CallUnits(c: Call, p: ProductId, account: Account): int {
    if c.product != p then 0
    else
      match account
      case InTransit => if c.pc.CreateOrder? || c.pc.RollBackRedis? then c.quantity else 0
      case Overdrawn => if c.pc.UndoDeduct? then c.quantity else 0
      case _ => 0
  }

  ghost function OrderEntries(orders: OrderStore.Orders, tracks: map<OrderNo, Track>, p: ProductId, account: Account)
    : map<nat, int>
  {
    map no | no in orders && no in tracks :: OrderUnits(orders[no], tracks[no], p, account)
  }

  ghost function CallEntries(calls: map<nat, Call>, p: ProductId, account: Account): map<nat, int> {
    map c | c in calls :: CallUnits(calls[c], p, account)
  }

  ghost function OrdersHold(orders: OrderStore.Orders, tracks: map<OrderNo, Track>, p: ProductId,
                            account: Account): int {
    Total(OrderEntries(orders, tracks, p, account))
  }

  ghost function CallsHold(calls: map<nat, Call>, p: ProductId, account: Account): int {
    Total(CallEntries(calls, p, account))
  }

  function LeakOf(g: Ledger, p: ProductId): int {
    if p in g.leaked then g.leaked[p] else 0
  }

  lemma OrdersHoldPut(orders: OrderStore.Orders, tracks: map<OrderNo, Track>, no: OrderNo, o: OrderStore.Order,
                      t: Track, p: ProductId, account: Account)
    requires orders.Keys == tracks.Keys
    ensures OrdersHold(orders[no := o], tracks[no := t], p, account)
         == OrdersHold(orders, tracks, p, account)
            - (if no in orders then OrderUnits(orders[no], tracks[no], p, account) else 0)
            + OrderUnits(o, t, p, account)
  {
    var m := OrderEntries(orders, tracks, p, account);
    assert OrderEntries(orders[no := o], tracks[no := t], p, account) == m[no := OrderUnits(o, t, p, account)];
    TotalPut(m, no, OrderUnits(o, t, p, account));
  }

  lemma CallsHoldPut(calls: map<nat, Call>, c: nat, call: Call, p: ProductId, account: Account)
    ensures CallsHold(calls[c := call], p, account)
         == CallsHold(calls, p, account) - (if c in calls then CallUnits(calls[c], p, account) else 0)
            + CallUnits(call, p, account)
  {
    var m := CallEntries(calls, p, account);
    assert CallEntries(calls[c := call], p, account) == m[c := CallUnits(call, p, account)];
    TotalPut(m, c, CallUnits(call, p, account));
  }

  // ---------------------------------------------------------------- the invariant

  /** Every order has a track, the track fixes its status, and no two orders share a user and product. */
  ghost predicate OrdersTracked(orders: OrderStore.Orders, tracks: map<OrderNo, Track>) {
    && orders.Keys == tracks.Keys
    && (forall no | no in orders :: orders[no].quantity >= 1 && orders[no].status == StatusOf(tracks[no].stage))
    && (forall m, n | m in orders && n in orders && m != n ::
          orders[m].user != orders[n].user || orders[m].product != orders[n].product)
  }

  /** A row not yet consumed is the one that carries its order, and the other way round. */
  ghost predicate RowsTracked(rows: seq<Event>, consumed: set<nat>, orders: OrderStore.Orders,
                              tracks: map<OrderNo, Track>) {
    && (forall r | 0 <= r < |rows| && r !in consumed ::
          rows[r].order in tracks && Open(tracks[rows[r].order].stage) && tracks[rows[r].order].at == r)
    && (forall no | no in tracks && no in orders && Open(tracks[no].stage) ::
          tracks[no].at < |rows| && tracks[no].at !in consumed
          && rows[tracks[no].at] == Token(no, orders[no], tracks[no].stage))
    && (forall r | r in consumed :: r < |rows|)
  }

  /** A clean-up in progress belongs to the order it cleans up, and the other way round. */
  ghost predicate HandlersTracked(handlers: map<nat, Handler>, orders: OrderStore.Orders, tracks: map<OrderNo, Track>) {
    && (forall h | h in handlers && (handlers[h].RestoreRedis? || handlers[h].DeleteKey?) ::
          handlers[h].order in tracks && CleaningUp(tracks[handlers[h].order].stage)
              && tracks[handlers[h].order].at == h)
    && (forall no | no in tracks && no in orders && CleaningUp(tracks[no].stage) ::
          tracks[no].at in handlers && handlers[tracks[no].at] == Chore(no, orders[no], tracks[no].stage))
  }

  /** Calls ask for at least one unit. */
  ghost predicate CallsValid(s: State) {
    forall c | c in s.calls :: s.calls[c].quantity >= 1
  }

  /** The books of one product, relative to the state the sale started from. */
  ghost predicate Balanced(s0: State, s: State, g: Ledger, p: ProductId) {
    var overdrawn := CallsHold(s.calls, p, Overdrawn);
    && LeakOf(g, p) >= 0
    && StockOf(s, p) + overdrawn + LeakOf(g, p) >= 0
    && StockOf(s, p) + overdrawn + LeakOf(g, p) + CallsHold(s.calls, p, InTransit)
       + OrdersHold(s.orders, g.tracks, p, InTransit) + (AvailableOf(s0, p) - StockOf(s0, p)) == AvailableOf(s, p)
    && LockedOf(s, p) == OrdersHold(s.orders, g.tracks, p, Locked)
    && AvailableOf(s, p) + LockedOf(s, p) + OrdersHold(s.orders, g.tracks, p, Sold) == AvailableOf(s0, p)
  }

  ghost predicate Books(s0: State, s: State, g: Ledger) {
    && s.inventory.Keys == s0.inventory.Keys
    && (forall p: ProductId :: Balanced(s0, s, g, p))
  }

  /** Structure of the tracks, without the books. */
  ghost predicate Tracked(s: State, g: Ledger) {
    && OrdersTracked(s.orders, g.tracks) && RowsTracked(s.rows, s.consumed, s.orders, g.tracks)
    && HandlersTracked(s.handlers, s.orders, g.tracks) && CallsValid(s)
  }

  // ---------------------------------------------------------------- how the ledger follows the steps

  function Leak(g: Ledger, p: ProductId, amount: int): Ledger {
    g.(leaked := g.leaked[p := LeakOf(g, p) + amount])
  }

  function FollowDeliver(s: State, g: Ledger, r: nat, h: nat, charged: bool): Ledger
    requires r < |s.rows|
  {
    var no := s.rows[r].order;
    if r in s.consumed || no !in g.tracks || !Open(g.tracks[no].stage) then g
    else
      var stage := NextStage(g.tracks[no].stage, charged);
      g.(tracks := g.tracks[no := Track(stage, if stage.Returned? then h else |s.rows|)])
  }

  function FollowContinue(s: State, g: Ledger, h: nat, executed: bool): Ledger
    requires h in s.handlers
  {
    match s.handlers[h]
    case RestoreRedis(no, _, product, quantity) =>
      var g' := g.(tracks := g.tracks[no := Track(Restored, h)]);
      if executed then g' else Leak(g', product, quantity)
    case DeleteKey(no, _, _) => g.(tracks := g.tracks[no := Track(Released, h)])
    case _ => g
  }

  function Follow(s: State, g: Ledger, step: Step): Ledger
    requires Enabled(s, step)
  {
    match step
    case DecrBy(c, reply) =>
      if reply.Error? && reply.executed then Leak(g, s.calls[c].product, s.calls[c].quantity) else g
    case IncrBy(c, executed) =>
      if executed then g else Leak(g, s.calls[c].product, s.calls[c].quantity)
    case Transact(c, no, failed) =>
      if Commits(s, s.calls[c], no, failed) then g.(tracks := g.tracks[no := Track(Created, |s.rows|)]) else g
    case Deliver(r, h, charged) => FollowDeliver(s, g, r, h, charged)
    case Continue(h, executed) => FollowContinue(s, g, h, executed)
    case _ => g
  }
}

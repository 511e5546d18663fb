/** Every step of an at-most-once run keeps the ledger invariant. */
module SagaInvariant {
  import opened Events
  import opened SagaProtocol
  import opened SagaLedger
  import opened Totals
  import OrderStore
  import InventoryStore

  /** Sums of units are never negative, and an order is part of its sum. */
  lemma HoldBounds(s: State, g: Ledger, p: ProductId, account: Account)
    requires OrdersTracked(s.orders, g.tracks) && CallsValid(s)
    ensures CallsHold(s.calls, p, account) >= 0 && OrdersHold(s.orders, g.tracks, p, account) >= 0
    ensures forall no | no in s.orders ::
              OrderUnits(s.orders[no], g.tracks[no], p, account) <= OrdersHold(s.orders, g.tracks, p, account)
  {
    TotalBounds(CallEntries(s.calls, p, account));
    var m := OrderEntries(s.orders, g.tracks, p, account);
    TotalBounds(m);
    assert forall no | no in s.orders :: m[no] == OrderUnits(s.orders[no], g.tracks[no], p, account);
  }

  /** The coupling of Redis and database: an order whose stock is not yet deducted is covered by available stock. */
  lemma CreatedIsCovered(s0: State, s: State, g: Ledger, no: OrderNo)
    requires Init(s0) && Books(s0, s, g) && OrdersTracked(s.orders, g.tracks) && CallsValid(s)
    requires no in g.tracks && g.tracks[no].stage.Created?
    ensures s.orders[no].product in s.inventory
    ensures s.inventory[s.orders[no].product].available >= s.orders[no].quantity
  {
    var p := s.orders[no].product;
    HoldBounds(s, g, p, InTransit);
    assert Balanced(s0, s, g, p);
  }

  /** The aggregate guard on locked stock never fails for an order that holds locked stock. */
  lemma LockedIsCovered(s0: State, s: State, g: Ledger, no: OrderNo)
    requires Books(s0, s, g) && OrdersTracked(s.orders, g.tracks) && CallsValid(s)
    requires no in g.tracks && Open(g.tracks[no].stage) && !g.tracks[no].stage.Created?
    ensures s.orders[no].product in s.inventory
    ensures s.inventory[s.orders[no].product].locked >= s.orders[no].quantity
  {
    var p := s.orders[no].product;
    HoldBounds(s, g, p, Locked);
    assert Balanced(s0, s, g, p);
  }

  // ---------------------------------------------------------------- steps of a Seckill call

  predicate CallStep(step: Step) {
    step.Begin? || step.SetNX? || step.QueryOrders? || step.QueryProduct? || step.DecrBy? || step.IncrBy?
    || step.Del? || step.SetPending?
  }

  /** Nothing but one call, Redis and the leak of its product has changed. */
  ghost predicate OnlyCall(s: State, g: Ledger, s': State, g': Ledger, c: nat) {
    && c in s'.calls && s'.calls == s.calls[c := s'.calls[c]] && s'.calls[c].quantity >= 1
    && s'.orders == s.orders && s'.inventory == s.inventory && s'.rows == s.rows && s'.consumed == s.consumed
    && s'.handlers == s.handlers && g'.tracks == g.tracks
  }

  /** Units a call has taken from Redis and not put back, together with what Redis and the leak hold. */
  function CallStake(s: State, g: Ledger, c: nat, p: ProductId): int {
    StockOf(s, p) + LeakOf(g, p)
    + (if c in s.calls then CallUnits(s.calls[c], p, Overdrawn) + CallUnits(s.calls[c], p, InTransit) else 0)
  }

  function CallTransit(s: State, c: nat, p: ProductId): int {
    if c in s.calls then CallUnits(s.calls[c], p, InTransit) else 0
  }

  /** No units are created or destroyed, and a call gets units for an order only while Redis has them. */
  ghost predicate UnitsKept(s: State, g: Ledger, s': State, g': Ledger, c: nat, p: ProductId) {
    && LeakOf(g', p) >= LeakOf(g, p)
    && CallStake(s', g', c, p) == CallStake(s, g, c, p)
    && (StockOf(s', p) >= 0 || CallTransit(s', c, p) <= CallTransit(s, c, p))
  }

  ghost predicate CallMoves(s: State, g: Ledger, step: Step, c: nat)
    requires Enabled(s, step)
  {
    && OnlyCall(s, g, Apply(s, step), Follow(s, g, step), c)
    && forall p: ProductId :: UnitsKept(s, g, Apply(s, step), Follow(s, g, step), c, p)
  }

  lemma BeginMoves(s: State, g: Ledger, c: nat, user: UserId, product: ProductId, quantity: int)
    requires CallsValid(s) && Enabled(s, Begin(c, user, product, quantity))
    ensures CallMoves(s, g, Begin(c, user, product, quantity), c)
  {
  }

  lemma SetNXMoves(s: State, g: Ledger, c: nat, reply: Reply)
    requires CallsValid(s) && Enabled(s, SetNX(c, reply))
    ensures CallMoves(s, g, SetNX(c, reply), c)
  {
  }

  lemma QueryOrdersMoves(s: State, g: Ledger, c: nat, failed: bool)
    requires CallsValid(s) && Enabled(s, QueryOrders(c, failed))
    ensures CallMoves(s, g, QueryOrders(c, failed), c)
  {
  }

  lemma QueryProductMoves(s: State, g: Ledger, c: nat, lookup: Lookup)
    requires CallsValid(s) && Enabled(s, QueryProduct(c, lookup))
    ensures CallMoves(s, g, QueryProduct(c, lookup), c)
  {
  }

  lemma DecrByMoves(s: State, g: Ledger, c: nat, reply: Reply)
    requires CallsValid(s) && Enabled(s, DecrBy(c, reply))
    ensures CallMoves(s, g, DecrBy(c, reply), c)
  {
    forall p: ProductId ensures UnitsKept(s, g, Apply(s, DecrBy(c, reply)), Follow(s, g, DecrBy(c, reply)), c, p) {
    }
  }

  lemma IncrByMoves(s: State, g: Ledger, c: nat, executed: bool)
    requires CallsValid(s) && Enabled(s, IncrBy(c, executed))
    ensures CallMoves(s, g, IncrBy(c, executed), c)
  {
  }

  lemma DelMoves(s: State, g: Ledger, c: nat, executed: bool)
    requires CallsValid(s) && Enabled(s, Del(c, executed))
    ensures CallMoves(s, g, Del(c, executed), c)
  {
  }

  lemma SetPendingMoves(s: State, g: Ledger, c: nat, executed: bool)
    requires CallsValid(s) && Enabled(s, SetPending(c, executed))
    ensures CallMoves(s, g, SetPending(c, executed), c)
  {
  }

  lemma CallBooks(s0: State, s: State, g: Ledger, s': State, g': Ledger, c: nat, p: ProductId)
    requires Balanced(s0, s, g, p) && CallsValid(s)
    requires OnlyCall(s, g, s', g', c) && UnitsKept(s, g, s', g', c, p)
    ensures Balanced(s0, s', g', p)
  {
    CallsHoldPut(s.calls, c, s'.calls[c], p, Overdrawn);
    CallsHoldPut(s.calls, c, s'.calls[c], p, InTransit);
    TotalBounds(CallEntries(s'.calls, p, Overdrawn));
  }

  lemma CallKeeps(s0: State, s: State, g: Ledger, s': State, g': Ledger, c: nat)
    requires Books(s0, s, g) && Tracked(s, g) && OnlyCall(s, g, s', g', c)
    requires forall p: ProductId :: UnitsKept(s, g, s', g', c, p)
    ensures Books(s0, s', g') && Tracked(s', g')
  {
    forall p: ProductId ensures Balanced(s0, s', g', p) {
      assert Balanced(s0, s, g, p) && UnitsKept(s, g, s', g', c, p);
      CallBooks(s0, s, g, s', g', c, p);
    }
  }

  lemma CallStepMoves(s: State, g: Ledger, step: Step)
    requires CallsValid(s) && Enabled(s, step) && CallStep(step)
    ensures CallMoves(s, g, step, step.call)
  {
    match step {
      case Begin(c, user, product, quantity) => BeginMoves(s, g, c, user, product, quantity);
      case SetNX(c, reply) => SetNXMoves(s, g, c, reply);
      case QueryOrders(c, failed) => QueryOrdersMoves(s, g, c, failed);
      case QueryProduct(c, lookup) => QueryProductMoves(s, g, c, lookup);
      case DecrBy(c, reply) => DecrByMoves(s, g, c, reply);
      case IncrBy(c, executed) => IncrByMoves(s, g, c, executed);
      case Del(c, executed) => DelMoves(s, g, c, executed);
      case SetPending(c, executed) => SetPendingMoves(s, g, c, executed);
    }
  }

  lemma CallStepKeeps(s0: State, s: State, g: Ledger, step: Step)
    requires Books(s0, s, g) && Tracked(s, g)
    requires Enabled(s, step) && CallStep(step)
    ensures Books(s0, Apply(s, step), Follow(s, g, step)) && Tracked(Apply(s, step), Follow(s, g, step))
  {
    CallStepMoves(s, g, step);
    CallKeeps(s0, s, g, Apply(s, step), Follow(s, g, step), step.call);
  }

  // ---------------------------------------------------------------- steps that move an order

  /** One order changes track (and possibly status), one call may change its command; inventory and Redis follow. */
  ghost predicate OnlyOrder(s: State, g: Ledger, s': State, g': Ledger, no: OrderNo, o: OrderStore.Order, t: Track) {
    && s'.orders == s.orders[no := o]
    && g'.tracks == g.tracks[no := t]
    && s'.inventory.Keys == s.inventory.Keys
  }

  function OrderUnitsAt(s: State, g: Ledger, no: OrderNo, p: ProductId, account: Account): int {
    if no in s.orders && no in g.tracks then OrderUnits(s.orders[no], g.tracks[no], p, account) else 0
  }

  /** The units an order stops holding in one place are the units that turn up in another. */
  ghost predicate UnitsMoved(s: State, g: Ledger, s': State, g': Ledger, no: OrderNo, o: OrderStore.Order, t: Track,
                             p: ProductId) {
    var locked := OrderUnits(o, t, p, Locked) - OrderUnitsAt(s, g, no, p, Locked);
    var sold := OrderUnits(o, t, p, Sold) - OrderUnitsAt(s, g, no, p, Sold);
    var transit := OrderUnits(o, t, p, InTransit) - OrderUnitsAt(s, g, no, p, InTransit);
    && LockedOf(s', p) == LockedOf(s, p) + locked
    && AvailableOf(s', p) == AvailableOf(s, p) - locked - sold
    && LeakOf(g', p) >= LeakOf(g, p)
    && StockOf(s', p) + LeakOf(g', p) >= StockOf(s, p) + LeakOf(g, p)
    && StockOf(s', p) + LeakOf(g', p) + CallsHold(s'.calls, p, InTransit) + transit
       == StockOf(s, p) + LeakOf(g, p) + CallsHold(s.calls, p, InTransit) - locked - sold
    && CallsHold(s'.calls, p, Overdrawn) == CallsHold(s.calls, p, Overdrawn)
  }

  lemma OrderBooks(s0: State, s: State, g: Ledger, s': State, g': Ledger, no: OrderNo, o: OrderStore.Order, t: Track,
                   p: ProductId)
    requires Balanced(s0, s, g, p) && s.orders.Keys == g.tracks.Keys
    requires OnlyOrder(s, g, s', g', no, o, t) && UnitsMoved(s, g, s', g', no, o, t, p)
    ensures Balanced(s0, s', g', p)
  {
    OrdersHoldPut(s.orders, g.tracks, no, o, t, p, InTransit);
    OrdersHoldPut(s.orders, g.tracks, no, o, t, p, Locked);
    OrdersHoldPut(s.orders, g.tracks, no, o, t, p, Sold);
  }

  lemma OrderBooksAll(s0: State, s: State, g: Ledger, s': State, g': Ledger, no: OrderNo, o: OrderStore.Order, t: Track)
    requires Books(s0, s, g) && s.orders.Keys == g.tracks.Keys && OnlyOrder(s, g, s', g', no, o, t)
    requires forall p: ProductId :: UnitsMoved(s, g, s', g', no, o, t, p)
    ensures Books(s0, s', g')
  {
    forall p: ProductId ensures Balanced(s0, s', g', p) {
      assert Balanced(s0, s, g, p) && UnitsMoved(s, g, s', g', no, o, t, p);
      OrderBooks(s0, s, g, s', g', no, o, t, p);
    }
  }

  // ---------------------------------------------------------------- the order transaction

  lemma TransactMoves(s: State, g: Ledger, c: nat, no: OrderNo)
    requires Enabled(s, Transact(c, no, false)) && Commits(s, s.calls[c], no, false) && Tracked(s, g)
    ensures var s', g' := Apply(s, Transact(c, no, false)), Follow(s, g, Transact(c, no, false));
            var o, t := NewOrder(s.calls[c]), Track(Created, |s.rows|);
            && OnlyOrder(s, g, s', g', no, o, t)
            && forall p: ProductId :: UnitsMoved(s, g, s', g', no, o, t, p)
  {
    var s', g' := Apply(s, Transact(c, no, false)), Follow(s, g, Transact(c, no, false));
    var o, t := NewOrder(s.calls[c]), Track(Created, |s.rows|);
    forall p: ProductId ensures UnitsMoved(s, g, s', g', no, o, t, p) {
      CallsHoldPut(s.calls, c, s'.calls[c], p, InTransit);
      CallsHoldPut(s.calls, c, s'.calls[c], p, Overdrawn);
    }
  }

  lemma OrdersInsert(orders: OrderStore.Orders, tracks: map<OrderNo, Track>, no: OrderNo, o: OrderStore.Order, at: nat)
    requires OrdersTracked(orders, tracks) && OrderStore.InsertOrder(orders, no, o).Some?
    requires o.quantity >= 1 && o.status.Pending?
    ensures OrdersTracked(orders[no := o], tracks[no := Track(Created, at)])
  {
  }

  lemma HandlersInsert(handlers: map<nat, Handler>, orders: OrderStore.Orders, tracks: map<OrderNo, Track>, no: OrderNo,
                       o: OrderStore.Order, at: nat)
    requires orders.Keys == tracks.Keys && no !in orders && HandlersTracked(handlers, orders, tracks)
    ensures HandlersTracked(handlers, orders[no := o], tracks[no := Track(Created, at)])
  {
  }

  lemma TransactTracked(s: State, g: Ledger, c: nat, no: OrderNo)
    requires Enabled(s, Transact(c, no, false)) && Commits(s, s.calls[c], no, false) && Tracked(s, g)
    ensures Tracked(Apply(s, Transact(c, no, false)), Follow(s, g, Transact(c, no, false)))
  {
    var o := NewOrder(s.calls[c]);
    OrdersInsert(s.orders, g.tracks, no, o, |s.rows|);
    RowsOpen(s.rows, s.consumed, s.orders, g.tracks, no, o, Created);
    HandlersInsert(s.handlers, s.orders, g.tracks, no, o, |s.rows|);
  }

  /** What a transaction does to everything but the stock accounts. */
  lemma TransactEffect(s: State, g: Ledger, c: nat, no: OrderNo, failed: bool)
    requires Enabled(s, Transact(c, no, failed))
    ensures var s', g' := Apply(s, Transact(c, no, failed)), Follow(s, g, Transact(c, no, failed));
            && s'.keys == s.keys && s'.payments == s.payments
            && (if Commits(s, s.calls[c], no, failed)
                then no !in s.orders && s'.orders == s.orders[no := NewOrder(s.calls[c])]
                     && g'.tracks == g.tracks[no := Track(Created, |s.rows|)]
                     && s'.calls == Jump(s.calls, c, WritePending(no))
                else s'.orders == s.orders && g'.tracks == g.tracks && s'.calls == Jump(s.calls, c, RollBackRedis))
  {
  }

  lemma TransactFails(s: State, g: Ledger, c: nat, no: OrderNo, failed: bool)
    requires Enabled(s, Transact(c, no, failed)) && !Commits(s, s.calls[c], no, failed) && CallsValid(s)
    ensures CallMoves(s, g, Transact(c, no, failed), c)
  {
  }

  lemma TransactKeeps(s0: State, s: State, g: Ledger, c: nat, no: OrderNo, failed: bool)
    requires Books(s0, s, g) && Tracked(s, g) && Enabled(s, Transact(c, no, failed))
    ensures var step := Transact(c, no, failed);
            Books(s0, Apply(s, step), Follow(s, g, step)) && Tracked(Apply(s, step), Follow(s, g, step))
  {
    var step := Transact(c, no, failed);
    if Commits(s, s.calls[c], no, failed) {
      TransactMoves(s, g, c, no);
      OrderBooksAll(s0, s, g, Apply(s, step), Follow(s, g, step), no, NewOrder(s.calls[c]), Track(Created, |s.rows|));
      TransactTracked(s, g, c, no);
    } else {
      TransactFails(s, g, c, no, failed);
      CallKeeps(s0, s, g, Apply(s, step), Follow(s, g, step), c);
    }
  }

  // ---------------------------------------------------------------- deliveries

  /** Row r is waiting to be consumed on behalf of order no, and the guards on its stock will hold. */
  ghost predicate Waiting(s: State, r: nat, no: OrderNo, stage: Stage) {
    && r < |s.rows| && r !in s.consumed && no in s.orders && Open(stage)
    && s.rows[r] == Token(no, s.orders[no], stage) && s.orders[no].status == StatusOf(stage)
    && var o := s.orders[no];
       && (stage.Created? ==> o.product in s.inventory && s.inventory[o.product].available >= o.quantity)
       && (stage.Completed? || stage.Cancelled? ==>
             o.product in s.inventory && s.inventory[o.product].locked >= o.quantity)
  }

  /** An unconsumed row acts on exactly the order that waits for it. */
  lemma RowIsWaiting(s0: State, s: State, g: Ledger, r: nat)
    requires Init(s0) && Books(s0, s, g) && Tracked(s, g) && r < |s.rows| && r !in s.consumed
    ensures var no := s.rows[r].order;
            no in g.tracks && g.tracks[no].at == r && Waiting(s, r, no, g.tracks[no].stage)
  {
    var no := s.rows[r].order;
    assert no in g.tracks && no in s.orders && g.tracks[no].at == r;
    if g.tracks[no].stage.Created? {
      CreatedIsCovered(s0, s, g, no);
    } else {
      LockedIsCovered(s0, s, g, no);
    }
  }

  /** The order moves to its next stage, with its next row or its next handler in place. */
  ghost predicate Advanced(s: State, s': State, r: nat, h: nat, no: OrderNo, next: Stage)
    requires no in s.orders
  {
    var o := s.orders[no];
    && s'.orders == s.orders[no := o.(status := StatusOf(next))]
    && s'.consumed == s.consumed + {r} && s'.calls == s.calls && s'.stock == s.stock
    && s'.rows == s.rows + (if Open(next) then [Token(no, o, next)] else [])
    && (if CleaningUp(next) then s'.handlers == s.handlers[h := Chore(no, o, next)]
        else if next.Completed? || next.Cancelled? then
          s'.handlers == s.handlers[h :=
            WriteVerdict(no, if next.Completed? then OrderStore.Success else OrderStore.Failed)]
        else s'.handlers == s.handlers)
  }

  /** What the delivery does to the stock of a product. */
  ghost predicate StockMoved(s: State, s': State, o: OrderStore.Order, stage: Stage, p: ProductId) {
    var q := if o.product == p then o.quantity else 0;
    && AvailableOf(s', p) == AvailableOf(s, p) + (if stage.Created? then -q else if stage.Cancelled? then q else 0)
    && LockedOf(s', p) == LockedOf(s, p)
                          + (if stage.Created? then q else if stage.Completed? || stage.Cancelled? then -q else 0)
  }

  ghost predicate Delivered(s: State, s': State, r: nat, h: nat, no: OrderNo, stage: Stage, charged: bool)
    requires no in s.orders && Open(stage)
  {
    && Advanced(s, s', r, h, no, NextStage(stage, charged))
    && s'.inventory.Keys == s.inventory.Keys
    && forall p: ProductId :: StockMoved(s, s', s.orders[no], stage, p)
  }

  lemma DeliverToInventory(s: State, r: nat, h: nat, charged: bool, no: OrderNo, stage: Stage)
    requires Enabled(s, Deliver(r, h, charged)) && Waiting(s, r, no, stage)
    requires stage.Created? || stage.Completed? || stage.Cancelled?
    ensures Delivered(s, Apply(s, Deliver(r, h, charged)), r, h, no, stage, charged)
  {
    assert s.orders[no := s.orders[no].(status := s.orders[no].status)] == s.orders;
  }

  lemma DeliverToPayment(s: State, r: nat, h: nat, charged: bool, no: OrderNo)
    requires Enabled(s, Deliver(r, h, charged)) && Waiting(s, r, no, Requested)
    ensures Delivered(s, Apply(s, Deliver(r, h, charged)), r, h, no, Requested, charged)
  {
    assert s.orders[no := s.orders[no].(status := s.orders[no].status)] == s.orders;
  }

  lemma DeliverToOrder(s: State, r: nat, h: nat, charged: bool, no: OrderNo, stage: Stage)
    requires Enabled(s, Deliver(r, h, charged)) && Waiting(s, r, no, stage)
    requires stage.Reserved? || stage.Charged?
    ensures Delivered(s, Apply(s, Deliver(r, h, charged)), r, h, no, stage, charged)
  {
  }

  lemma OrdersAdvance(orders: OrderStore.Orders, tracks: map<OrderNo, Track>, no: OrderNo, t: Track)
    requires OrdersTracked(orders, tracks) && no in orders
    ensures OrdersTracked(orders[no := orders[no].(status := StatusOf(t.stage))], tracks[no := t])
  {
  }

  /** The order lets go of row r and, if it stays open, takes the row that was added for it. */
  lemma RowsAdvance(rows: seq<Event>, consumed: set<nat>, orders: OrderStore.Orders, tracks: map<OrderNo, Track>,
                    r: nat, no: OrderNo, status: OrderStore.Status, t: Track)
    requires orders.Keys == tracks.Keys && no in orders && RowsTracked(rows, consumed, orders, tracks)
    requires Open(tracks[no].stage) && tracks[no].at == r
    requires Open(t.stage) ==> t.at == |rows|
    ensures RowsTracked(rows + (if Open(t.stage) then [Token(no, orders[no], t.stage)] else []), consumed + {r},
                        orders[no := orders[no].(status := status)], tracks[no := t])
  {
    if Open(t.stage) {
      RowsClose(rows, consumed, orders, tracks, r, no, Track(Released, 0));
      RowsOpen(rows, consumed + {r}, orders, tracks[no := Track(Released, 0)], no, orders[no].(status := status),
          t.stage);
      assert tracks[no := Track(Released, 0)][no := t] == tracks[no := t];
    } else {
      RowsClose(rows, consumed, orders, tracks, r, no, t);
      RowsStatus(rows, consumed + {r}, orders, tracks[no := t], no, status);
      assert rows + [] == rows;
    }
  }

  lemma RowsClose(rows: seq<Event>, consumed: set<nat>, orders: OrderStore.Orders, tracks: map<OrderNo, Track>, r: nat,
                  no: OrderNo, t: Track)
    requires orders.Keys == tracks.Keys && no in orders && RowsTracked(rows, consumed, orders, tracks)
    requires Open(tracks[no].stage) && tracks[no].at == r && !Open(t.stage)
    ensures RowsTracked(rows, consumed + {r}, orders, tracks[no := t])
  {
  }

  lemma RowsStatus(rows: seq<Event>, consumed: set<nat>, orders: OrderStore.Orders, tracks: map<OrderNo, Track>,
                   no: OrderNo, status: OrderStore.Status)
    requires orders.Keys == tracks.Keys && no in orders && RowsTracked(rows, consumed, orders, tracks)
    ensures RowsTracked(rows, consumed, orders[no := orders[no].(status := status)], tracks)
  {
  }

  /** An order that nothing carries, possibly a new one, takes the row added for it. */
  lemma RowsOpen(rows: seq<Event>, consumed: set<nat>, orders: OrderStore.Orders, tracks: map<OrderNo, Track>,
                 no: OrderNo, o: OrderStore.Order, stage: Stage)
    requires orders.Keys == tracks.Keys && RowsTracked(rows, consumed, orders, tracks)
    requires no in tracks ==> !Open(tracks[no].stage)
    requires Open(stage)
    ensures RowsTracked(rows + [Token(no, o, stage)], consumed, orders[no := o], tracks[no := Track(stage, |rows|)])
  {
  }

  lemma HandlersAdvance(handlers: map<nat, Handler>, orders: OrderStore.Orders, tracks: map<OrderNo, Track>, h: nat,
                        no: OrderNo, status: OrderStore.Status, t: Track, handlers': map<nat, Handler>)
    requires orders.Keys == tracks.Keys && no in orders && HandlersTracked(handlers, orders, tracks)
    requires h !in handlers && Open(tracks[no].stage)
    requires if CleaningUp(t.stage) then t.at == h && handlers' == handlers[h := Chore(no, orders[no], t.stage)]
             else handlers' == handlers || exists v :: handlers' == handlers[h := WriteVerdict(no, v)]
    ensures HandlersTracked(handlers', orders[no := orders[no].(status := status)], tracks[no := t])
  {
  }

  /** The stock moved by the delivery is exactly the stock the order's stage accounts for. */
  lemma AdvancedUnits(s: State, g: Ledger, s': State, g': Ledger, r: nat, h: nat, no: OrderNo, t: Track, charged: bool)
    requires no in s.orders && no in g.tracks && Open(g.tracks[no].stage)
    requires Delivered(s, s', r, h, no, g.tracks[no].stage, charged)
    requires t.stage == NextStage(g.tracks[no].stage, charged) && g'.leaked == g.leaked
    ensures forall p: ProductId :: UnitsMoved(s, g, s', g', no, s.orders[no].(status := StatusOf(t.stage)), t, p)
  {
    forall p: ProductId ensures UnitsMoved(s, g, s', g', no, s.orders[no].(status := StatusOf(t.stage)), t, p) {
      assert StockMoved(s, s', s.orders[no], g.tracks[no].stage, p);
    }
  }

  lemma DeliveredKeeps(s0: State, s: State, g: Ledger, s': State, g': Ledger, r: nat, h: nat, no: OrderNo, t: Track,
                       charged: bool)
    requires Books(s0, s, g) && Tracked(s, g) && no in s.orders && h !in s.handlers
    requires Open(g.tracks[no].stage) && g.tracks[no].at == r
    requires Delivered(s, s', r, h, no, g.tracks[no].stage, charged)
    requires t == Track(NextStage(g.tracks[no].stage, charged), if t.stage.Returned? then h else |s.rows|)
    requires g' == g.(tracks := g.tracks[no := t])
    ensures Books(s0, s', g') && Tracked(s', g')
  {
    OrdersAdvance(s.orders, g.tracks, no, t);
    RowsAdvance(s.rows, s.consumed, s.orders, g.tracks, r, no, StatusOf(t.stage), t);
    HandlersAdvance(s.handlers, s.orders, g.tracks, h, no, StatusOf(t.stage), t, s'.handlers);
    AdvancedUnits(s, g, s', g', r, h, no, t, charged);
    OrderBooksAll(s0, s, g, s', g', no, s.orders[no].(status := StatusOf(t.stage)), t);
  }

  /** A first delivery never takes the STOCK_DEDUCT_FAILED branch and never meets a failing stock guard:
      it moves the one order that waits for the row to its next stage. */
  lemma FirstDeliveryAdvances(s0: State, s: State, g: Ledger, r: nat, h: nat, charged: bool)
    requires Init(s0) && Books(s0, s, g) && Tracked(s, g)
    requires Enabled(s, Deliver(r, h, charged)) && r !in s.consumed
    ensures var no := s.rows[r].order;
            && no in s.orders && no in g.tracks && Open(g.tracks[no].stage) && g.tracks[no].at == r
            && Delivered(s, Apply(s, Deliver(r, h, charged)), r, h, no, g.tracks[no].stage, charged)
  {
    RowIsWaiting(s0, s, g, r);
    var no := s.rows[r].order;
    var stage := g.tracks[no].stage;
    if stage.Requested? {
      DeliverToPayment(s, r, h, charged, no);
    } else if stage.Reserved? || stage.Charged? {
      DeliverToOrder(s, r, h, charged, no, stage);
    } else {
      DeliverToInventory(s, r, h, charged, no, stage);
    }
  }

  lemma DeliverKeeps(s0: State, s: State, g: Ledger, r: nat, h: nat, charged: bool)
    requires Init(s0) && Books(s0, s, g) && Tracked(s, g)
    requires Enabled(s, Deliver(r, h, charged)) && r !in s.consumed
    ensures var step := Deliver(r, h, charged);
            Books(s0, Apply(s, step), Follow(s, g, step)) && Tracked(Apply(s, step), Follow(s, g, step))
  {
    var step := Deliver(r, h, charged);
    FirstDeliveryAdvances(s0, s, g, r, h, charged);
    var no := s.rows[r].order;
    var g' := FollowDeliver(s, g, r, h, charged);
    DeliveredKeeps(s0, s, g, Apply(s, step), g', r, h, no, g'.tracks[no], charged);
  }

  // ---------------------------------------------------------------- handlers in progress

  /** A clean-up command moves its order on and gives its units back to Redis, or leaks them. */
  lemma CleanUpMoves(s: State, g: Ledger, h: nat, executed: bool, no: OrderNo, o: OrderStore.Order, stage: Stage)
    requires Enabled(s, Continue(h, executed)) && CleaningUp(stage) && s.handlers[h] == Chore(no, o, stage)
    requires no in s.orders && s.orders[no] == o && no in g.tracks && g.tracks[no].stage == stage && o.quantity >= 1
    ensures var s', g' := Apply(s, Continue(h, executed)), Follow(s, g, Continue(h, executed));
            var t := Track(if stage.Returned? then Restored else Released, h);
            && OnlyOrder(s, g, s', g', no, o, t)
            && forall p: ProductId :: UnitsMoved(s, g, s', g', no, o, t, p)
  {
    assert s.orders[no := s.orders[no]] == s.orders;
    if stage.Returned? {
      assert s.handlers[h] == RestoreRedis(no, o.user, o.product, o.quantity);
    } else {
      assert s.handlers[h] == DeleteKey(no, o.user, o.product);
    }
  }

  lemma RowsCleanUp(rows: seq<Event>, consumed: set<nat>, orders: OrderStore.Orders, tracks: map<OrderNo, Track>,
                    no: OrderNo, t: Track)
    requires orders.Keys == tracks.Keys && no in tracks && RowsTracked(rows, consumed, orders, tracks)
    requires !Open(tracks[no].stage) && !Open(t.stage)
    ensures RowsTracked(rows, consumed, orders, tracks[no := t])
  {
  }

  lemma HandlersCleanUp(handlers: map<nat, Handler>, orders: OrderStore.Orders, tracks: map<OrderNo, Track>, h: nat,
                        no: OrderNo, stage: Stage)
    requires orders.Keys == tracks.Keys && no in tracks && HandlersTracked(handlers, orders, tracks)
    requires h in handlers && CleaningUp(tracks[no].stage) && tracks[no].at == h
    requires stage.Restored? || stage.Released?
    ensures HandlersTracked(handlers[h := if stage.Restored? then Chore(no, orders[no], Restored) else Finished],
                            orders, tracks[no := Track(stage, h)])
  {
  }

  lemma TracksCleanUp(s: State, g: Ledger, h: nat, no: OrderNo, stage: Stage)
    requires Tracked(s, g) && no in g.tracks && no in s.orders && h in s.handlers
    requires CleaningUp(g.tracks[no].stage) && g.tracks[no].at == h
    requires stage.Restored? || stage.Released?
    ensures var tracks' := g.tracks[no := Track(stage, h)];
            && OrdersTracked(s.orders, tracks')
            && RowsTracked(s.rows, s.consumed, s.orders, tracks')
            && HandlersTracked(s.handlers[h := if stage.Restored? then Chore(no, s.orders[no], Restored) else Finished],
                               s.orders, tracks')
  {
    RowsCleanUp(s.rows, s.consumed, s.orders, g.tracks, no, Track(stage, h));
    HandlersCleanUp(s.handlers, s.orders, g.tracks, h, no, stage);
  }

  lemma VerdictKeeps(s0: State, s: State, g: Ledger, h: nat, executed: bool)
    requires Books(s0, s, g) && Tracked(s, g) && Enabled(s, Continue(h, executed)) && s.handlers[h].WriteVerdict?
    ensures var step := Continue(h, executed);
            Books(s0, Apply(s, step), g) && Tracked(Apply(s, step), g)
  {
    SameBooks(s0, s, Apply(s, Continue(h, executed)), g);
  }

  lemma SameBooks(s0: State, s: State, s': State, g: Ledger)
    requires Books(s0, s, g)
    requires s'.stock == s.stock && s'.orders == s.orders && s'.inventory == s.inventory && s'.calls == s.calls
    ensures Books(s0, s', g)
  {
    forall p: ProductId ensures Balanced(s0, s', g, p) {
      assert Balanced(s0, s, g, p);
    }
  }

  lemma ContinueKeeps(s0: State, s: State, g: Ledger, h: nat, executed: bool)
    requires Books(s0, s, g) && Tracked(s, g) && Enabled(s, Continue(h, executed))
    ensures var step := Continue(h, executed);
            Books(s0, Apply(s, step), Follow(s, g, step)) && Tracked(Apply(s, step), Follow(s, g, step))
  {
    var step := Continue(h, executed);
    if s.handlers[h].WriteVerdict? {
      VerdictKeeps(s0, s, g, h, executed);
    } else {
      var no := s.handlers[h].order;
      var o, stage := s.orders[no], g.tracks[no].stage;
      var t := Track(if stage.Returned? then Restored else Released, h);
      CleanUpMoves(s, g, h, executed, no, o, stage);
      OrderBooksAll(s0, s, g, Apply(s, step), Follow(s, g, step), no, o, t);
      TracksCleanUp(s, g, h, no, t.stage);
    }
  }

  // ---------------------------------------------------------------- all steps, all runs

  /** Every step of an at-most-once run keeps the ledger. */
  lemma StepKeeps(s0: State, s: State, g: Ledger, step: Step)
    requires Init(s0) && Books(s0, s, g) && Tracked(s, g)
    requires Enabled(s, step) && FirstDelivery(s, step)
    ensures Books(s0, Apply(s, step), Follow(s, g, step)) && Tracked(Apply(s, step), Follow(s, g, step))
  {
    match step
    case Transact(c, no, failed) => TransactKeeps(s0, s, g, c, no, failed);
    case Deliver(r, h, charged) => DeliverKeeps(s0, s, g, r, h, charged);
    case Continue(h, executed) => ContinueKeeps(s0, s, g, h, executed);
    case Publish(_) | ExpireKey(_) | ExpireResult(_) => SameBooks(s0, s, Apply(s, step), g);
    case _ => CallStepKeeps(s0, s, g, step);
  }

  /** The ledger of a run. */
  ghost function LedgerAfter(s0: State, steps: seq<Step>): Ledger
    requires Runs(s0, steps)
  {
    if steps == [] then EMPTY_LEDGER
    else Follow(After(s0, Front(steps)), LedgerAfter(s0, Front(steps)), Last(steps))
  }

  lemma InitBooks(s0: State)
    requires Init(s0)
    ensures Books(s0, s0, EMPTY_LEDGER) && Tracked(s0, EMPTY_LEDGER)
  {
    forall p: ProductId ensures Balanced(s0, s0, EMPTY_LEDGER, p) {
      assert CallEntries(s0.calls, p, InTransit) == map[] && CallEntries(s0.calls, p, Overdrawn) == map[];
      assert OrderEntries(s0.orders, map[], p, InTransit) == map[];
      assert OrderEntries(s0.orders, map[], p, Locked) == map[];
      assert OrderEntries(s0.orders, map[], p, Sold) == map[];
    }
  }

  /** Over whole runs: the ledger invariant holds in every reachable state. */
  lemma {:induction false} RunKeeps(s0: State, steps: seq<Step>)
    requires Init(s0) && Runs(s0, steps) && AtMostOnce(s0, steps)
    ensures Books(s0, After(s0, steps), LedgerAfter(s0, steps)) && Tracked(After(s0, steps), LedgerAfter(s0, steps))
    decreases |steps|
  {
    if steps == [] {
      InitBooks(s0);
    } else {
      var before := Front(steps);
      RunKeeps(s0, before);
      StepKeeps(s0, After(s0, before), LedgerAfter(s0, before), Last(steps));
    }
  }

  // ---------------------------------------------------------------- reachable states

  datatype Point = Point(s: State, g: Ledger)

  /** A run with the states and ledgers it passes through, no row delivered twice. */
  ghost predicate Path(points: seq<Point>, steps: seq<Step>) {
    && |points| == |steps| + 1
    && forall i {:trigger steps[i]} | 0 <= i < |steps| :: Leads(points[i], steps[i], points[i + 1])
  }

  ghost predicate Leads(a: Point, step: Step, b: Point) {
    && Enabled(a.s, step) && FirstDelivery(a.s, step)
    && b == Point(Apply(a.s, step), Follow(a.s, a.g, step))
  }

  /** A path from the beginning of a sale. */
  ghost predicate PathTo(s0: State, points: seq<Point>, steps: seq<Step>, s: State, g: Ledger) {
    Init(s0) && Path(points, steps) && points[0] == Point(s0, EMPTY_LEDGER) && points[|steps|] == Point(s, g)
  }

  /** State s, with ledger g, can be reached from the beginning of a sale under at-most-once delivery. */
  ghost predicate Reachable(s0: State, s: State, g: Ledger) {
    exists points, steps :: PathTo(s0, points, steps, s, g)
  }

  lemma {:induction false} PathRuns(s0: State, points: seq<Point>, steps: seq<Step>)
    requires Path(points, steps) && points[0] == Point(s0, EMPTY_LEDGER)
    ensures Runs(s0, steps) && AtMostOnce(s0, steps)
              && points[|steps|] == Point(After(s0, steps), LedgerAfter(s0, steps))
    decreases |steps|
  {
    if steps != [] {
      PathRuns(s0, points[..|steps|], Front(steps));
      var last := steps[|steps| - 1];
    }
  }

  /** Reachable states are exactly the ends of at-most-once runs. */
  lemma {:induction false} RunReaches(s0: State, steps: seq<Step>)
    requires Init(s0) && Runs(s0, steps) && AtMostOnce(s0, steps)
    ensures Reachable(s0, After(s0, steps), LedgerAfter(s0, steps))
    decreases |steps|
  {
    if steps == [] {
      assert PathTo(s0, [Point(s0, EMPTY_LEDGER)], [], s0, EMPTY_LEDGER);
    } else {
      RunReaches(s0, Front(steps));
      ReachNext(s0, After(s0, Front(steps)), LedgerAfter(s0, Front(steps)), Last(steps));
    }
  }

  lemma ReachNext(s0: State, s: State, g: Ledger, step: Step)
    requires Reachable(s0, s, g) && Enabled(s, step) && FirstDelivery(s, step)
    ensures Reachable(s0, Apply(s, step), Follow(s, g, step))
  {
    var points, steps :| PathTo(s0, points, steps, s, g);
    var points', steps' := points + [Point(Apply(s, step), Follow(s, g, step))], steps + [step];
    forall i | 0 <= i < |steps'| ensures Leads(points'[i], steps'[i], points'[i + 1]) {
      if i < |steps| {
        assert steps'[i] == steps[i];
      }
    }
    assert PathTo(s0, points', steps', Apply(s, step), Follow(s, g, step));
  }

  lemma RunTo(s0: State, s: State, g: Ledger) returns (steps: seq<Step>)
    requires Reachable(s0, s, g)
    ensures Init(s0) && Runs(s0, steps) && AtMostOnce(s0, steps) && s == After(s0, steps) && g == LedgerAfter(s0, steps)
  {
    var points;
    points, steps :| PathTo(s0, points, steps, s, g);
    PathRuns(s0, points, steps);
  }

  lemma ReachableKeeps(s0: State, s: State, g: Ledger)
    requires Reachable(s0, s, g)
    ensures Init(s0) && Books(s0, s, g) && Tracked(s, g)
  {
    var steps := RunTo(s0, s, g);
    RunKeeps(s0, steps);
  }
}

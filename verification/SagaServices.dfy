/** The three services: objects that send commands to Redis and to their databases one after the other. Each method is
    proved to perform a run of the step machine of SagaProtocol, command by command, so what holds of every run holds of
    them; if others disturb the inventory service, the run is one that finds another inventory (SagaTurns). */
module SagaServices {
  import opened Events
  import opened SagaProtocol
  import A = SagaAnyDelivery
  import OrderStore
  import InventoryStore
  import InventoryService
  import T = SagaTurns

  // ---------------------------------------------------------------- stores

  class Redis {
    var stock: map<ProductId, int>
    var keys: set<Key>
    var results: map<OrderNo, OrderStore.Verdict>

    constructor ()
      ensures stock == map[] && keys == {} && results == map[]
    {
      stock, keys, results := map[], {}, map[];
    }

    /** None is an error; otherwise whether the key was set by this command. */
    method SetNX(key: Key, reply: Reply) returns (taken: Option<bool>)
      modifies this`keys
      ensures keys == KeysAfterSetNX(old(keys), key, reply)
      ensures taken == if reply.Error? then None else Some(key !in old(keys))
    {
      taken := if reply.Error? then None else Some(key !in keys);
      if reply != Error(false) {
        keys := keys + {key};
      }
    }

    method DecrBy(p: ProductId, amount: int, reply: Reply) returns (counter: Option<int>)
      modifies this`stock
      ensures stock == if reply == Error(false) then old(stock) else AddStock(old(stock), p, -amount)
      ensures counter == if reply.Error? then None else Some(AddStock(old(stock), p, -amount)[p])
    {
      var lowered := AddStock(stock, p, -amount);
      if reply != Error(false) {
        stock := lowered;
      }
      counter := if reply.Error? then None else Some(lowered[p]);
    }

    method IncrBy(p: ProductId, amount: int, executed: bool)
      modifies this`stock
      ensures stock == if executed then AddStock(old(stock), p, amount) else old(stock)
    {
      if executed {
        stock := AddStock(stock, p, amount);
      }
    }

    method Del(key: Key, executed: bool)
      modifies this`keys
      ensures keys == if executed then old(keys) - {key} else old(keys)
    {
      if executed {
        keys := keys - {key};
      }
    }

    method SetResult(no: OrderNo, verdict: OrderStore.Verdict, executed: bool)
      modifies this`results
      ensures results == if executed then old(results)[no := verdict] else old(results)
    {
      if executed {
        results := results[no := verdict];
      }
    }
  }

  class OrderDatabase {
    var orders: OrderStore.Orders
    var outbox: seq<Event>

    constructor ()
      ensures orders == map[] && outbox == []
    {
      orders, outbox := map[], [];
    }

    /** A transaction inserting the order and its outbox row: both or, on an error or a duplicate, neither. */
    method Insert(no: OrderNo, o: OrderStore.Order, row: Event, fails: bool) returns (committed: bool)
      modifies this
      ensures committed <==>
                && !fails && no !in old(orders)
                && forall n | n in old(orders) :: old(orders)[n].user != o.user || old(orders)[n].product != o.product
      ensures committed ==> orders == old(orders)[no := o] && outbox == old(outbox) + [row]
      ensures !committed ==> orders == old(orders) && outbox == old(outbox)
    {
      committed := !fails && OrderStore.InsertOrder(orders, no, o).Some?;
      if committed {
        orders := orders[no := o];
        outbox := outbox + [row];
      }
    }

    /** UpdateStatusByOrderNoTx and WriteEvent in one transaction, which fails on a database error or if there is no
        such order. The old status is not looked at. */
    method Move(no: OrderNo, status: OrderStore.Status, row: Event, fails: bool) returns (committed: bool)
      modifies this
      ensures committed <==> !fails && no in old(orders)
      ensures committed ==>
                && orders == old(orders)[no := old(orders)[no].(status := status)]
                && outbox == old(outbox) + [row]
      ensures !committed ==> orders == old(orders) && outbox == old(outbox)
    {
      committed := !fails && no in orders;
      if committed {
        orders := orders[no := orders[no].(status := status)];
        outbox := outbox + [row];
      }
    }
  }

  class InventoryDatabase {
    const repo: InventoryService.Repository
    var outbox: seq<Event>

    constructor (repo: InventoryService.Repository)
      ensures this.repo == repo && outbox == []
    {
      this.repo, outbox := repo, [];
    }
  }

  class PaymentDatabase {
    var payments: seq<Payment>
    var outbox: seq<Event>

    constructor ()
      ensures payments == [] && outbox == []
    {
      payments, outbox := [], [];
    }
  }

  // ---------------------------------------------------------------- stores and protocol states

  /** The rows of one outbox table. */
  function Table(rows: seq<Event>, topic: Topic): seq<Event> {
    if rows == [] then []
    else
      var last := rows[|rows| - 1];
      Table(rows[..|rows| - 1], topic) + (if TopicOf(last) == topic then [last] else [])
  }

  lemma TablePush(rows: seq<Event>, e: Event, topic: Topic)
    ensures Table(rows + [e], topic) == Table(rows, topic) + (if TopicOf(e) == topic then [e] else [])
  {
    assert (rows + [e])[..|rows|] == rows;
  }

  ghost predicate RedisShows(rdb: Redis, s: State)
    reads rdb
  {
    rdb.stock == s.stock && rdb.keys == s.keys && rdb.results == s.results
  }

  ghost predicate OrdersShow(db: OrderDatabase, s: State)
    reads db
  {
    db.orders == s.orders && db.outbox == Table(s.rows, OrderEvents)
  }

  ghost predicate InventoryShows(db: InventoryDatabase, s: State)
    reads db, db.repo
  {
    db.repo.rows == s.inventory && db.outbox == Table(s.rows, InventoryEvents)
  }

  ghost predicate PaymentsShow(db: PaymentDatabase, s: State)
    reads db
  {
    db.payments == s.payments && db.outbox == Table(s.rows, PaymentEvents)
  }

  // ---------------------------------------------------------------- Seckill

  /** What Redis, the product service and the database answer during one call. */
  datatype Answers = Answers(setNX: Reply, queryFails: bool, lookup: Lookup, decrBy: Reply, incrBy: bool,
                             transactionFails: bool, del: bool, written: bool)

  /** The step is not one of the call's own commands. */
  predicate Foreign(step: Step, c: nat) {
    match step
    case Begin(d, _, _, _) => d != c
    case SetNX(d, _) => d != c
    case QueryOrders(d, _) => d != c
    case QueryProduct(d, _) => d != c
    case DecrBy(d, _) => d != c
    case IncrBy(d, _) => d != c
    case Transact(d, _, _) => d != c
    case Del(d, _) => d != c
    case SetPending(d, _) => d != c
    case _ => true
  }

  lemma ForeignLeavesCall(s: State, step: Step, c: nat)
    requires Enabled(s, step) && Foreign(step, c) && c in s.calls
    ensures c in Apply(s, step).calls && Apply(s, step).calls[c] == s.calls[c]
  {
    if step.Deliver? {
      A.DeliverLeavesCalls(s, step.row, step.handler, step.charged);
    } else if step.Continue? {
      A.ContinueLeavesCalls(s, step.handler, step.executed);
    }
  }

  const COMMANDS := 7

  /** What Redis and the order database hold. */
  datatype Contents = Contents(stock: map<ProductId, int>, keys: set<Key>, results: map<OrderNo, OrderStore.Verdict>,
                               orders: OrderStore.Orders, outbox: seq<Event>)

  /** Orders are never lost, and only their statuses change. */
  ghost predicate OrdersStay(orders: OrderStore.Orders, orders': OrderStore.Orders) {
    forall no | no in orders :: no in orders' && orders'[no] == orders[no].(status := orders'[no].status)
  }

  lemma StepKeepsOrders(s: State, step: Step)
    requires Enabled(s, step)
    ensures OrdersStay(s.orders, Apply(s, step).orders)
  {
    if step.Deliver? {
      A.DeliverKeepsOrders(s, step.row, step.handler, step.charged);
    } else if step.Transact? {
      TransactEffect(s, step.call, step.order, step.failed, NewOrder(s.calls[step.call]),
                     OrderCreated(step.order, s.calls[step.call].user, s.calls[step.call].product,
                                  s.calls[step.call].quantity, NewOrder(s.calls[step.call]).total));
    } else {
      assert Apply(s, step).orders == s.orders;
    }
  }

  predicate NobodyOrdered(orders: OrderStore.Orders, user: UserId, product: ProductId) {
    forall no | no in orders :: orders[no].user != user || orders[no].product != product
  }

  /** What a whole call answers and leaves if nobody else does anything meanwhile. A call is admitted by its key, or, if
      Redis fails, by the order table. */
  predicate AloneSeckill(was: Contents, user: UserId, product: ProductId, quantity: int, no: OrderNo, a: Answers,
                         outcome: Outcome, now: Contents)
  {
    var sent := if a.setNX == Error(false) then was.keys else was.keys + {Key(user, product)};
    var admitted := if a.setNX.Ok? then Key(user, product) !in was.keys
                    else !a.queryFails && NobodyOrdered(was.orders, user, product);
    if admitted then AlonePurchase(was.(keys := sent), user, product, quantity, no, a, outcome, now)
    else
      && outcome == Rejected(if a.setNX.Error? && a.queryFails then Internal else DuplicateOrder)
      && now == was.(keys := sent)
  }

  /** Nobody else does anything between the commands of the call. */
  predicate Alone(others: seq<seq<Step>>) {
    forall i | 0 <= i < |others| :: others[i] == []
  }

  /** The units and the key are given back. */
  predicate Undone(was: Contents, user: UserId, product: ProductId, quantity: int, a: Answers, now: Contents) {
    var units := (if product in was.stock then was.stock[product] else 0) + quantity;
    now == was.(keys := if a.del then was.keys - {Key(user, product)} else was.keys,
                stock := if a.incrBy then was.stock[product := units] else was.stock)
  }

  /** The transaction puts order and event into the database, and PENDING follows; if it cannot, the units and the key
      are given back. */
  predicate AloneOrder(was: Contents, user: UserId, product: ProductId, quantity: int, no: OrderNo, price: Money,
                       a: Answers, outcome: Outcome, now: Contents)
  {
    var total := price * quantity as real;
    if a.transactionFails || no in was.orders || !NobodyOrdered(was.orders, user, product) then
      outcome == Rejected(Internal) && Undone(was, user, product, quantity, a, now)
    else
      && outcome == Accepted(no)
      && now == was.(results := if a.written then was.results[no := OrderStore.InProgress] else was.results,
                     orders := was.orders[no := OrderStore.Order(user, product, quantity, total, OrderStore.Pending)],
                     outbox := was.outbox + [OrderCreated(no, user, product, quantity, total)])
  }

  /** An admitted call goes on if the product is on sale; it needs enough in the Redis counter, and a transaction that
      the database and its unique indexes allow. It takes its units, key and order together, or gives back what it took,
      as far as Redis executes that. */
  predicate AlonePurchase(was: Contents, user: UserId, product: ProductId, quantity: int, no: OrderNo, a: Answers,
                          outcome: Outcome, now: Contents)
  {
    var dropped := if a.del then was.keys - {Key(user, product)} else was.keys;
    var units := if product in was.stock then was.stock[product] else 0;
    if a.lookup.Missing? then outcome == Rejected(ProductNotFound) && now == was.(keys := dropped)
    else if a.lookup.OffSale? then outcome == Rejected(ProductOffSale) && now == was.(keys := dropped)
    else if a.lookup.LookupFailed? then outcome == Rejected(Internal) && now == was.(keys := dropped)
    else if a.decrBy.Error? then
      && outcome == Rejected(StockInsufficient)
      && now == was.(keys := dropped,
                     stock := if a.decrBy.executed then was.stock[product := units - quantity] else was.stock)
    else if units < quantity || a.transactionFails || no in was.orders || !NobodyOrdered(was.orders, user, product) then
      && outcome == Rejected(if units < quantity then StockInsufficient else Internal)
      && now == was.(keys := dropped, stock := was.stock[product := if a.incrBy then units else units - quantity])
    else
      var total := a.lookup.price * quantity as real;
      && outcome == Accepted(no)
      && now == Contents(was.stock[product := units - quantity], was.keys,
                         if a.written then was.results[no := OrderStore.InProgress] else was.results,
                         was.orders[no := OrderStore.Order(user, product, quantity, total, OrderStore.Pending)],
                         was.outbox + [OrderCreated(no, user, product, quantity, total)])
  }

  /** The units are taken from the counter if there are enough; else they are put back, as far as Redis executes
      that. */
  predicate AloneReserve(was: Contents, product: ProductId, quantity: int, a: Answers, reserved: bool, now: Contents) {
    var units := if product in was.stock then was.stock[product] else 0;
    && (reserved <==> a.decrBy.Ok? && units >= quantity)
    && now == was.(stock := if a.decrBy == Error(false) then was.stock
                            else if a.decrBy.Ok? && units < quantity && a.incrBy then was.stock[product := units]
                            else was.stock[product := units - quantity])
  }

  lemma PutBackRestores(was: Contents, mid: Contents, product: ProductId, quantity: int, a: Answers, now: Contents)
    requires var units := (if product in was.stock then was.stock[product] else 0) - quantity;
             units < 0 && a.decrBy.Ok? && mid == was.(stock := was.stock[product := units])
    requires var units := (if product in mid.stock then mid.stock[product] else 0) + quantity;
             now == mid.(stock := if a.incrBy then mid.stock[product := units] else mid.stock)
    ensures AloneReserve(was, product, quantity, a, false, now)
  {
    var units := if product in was.stock then was.stock[product] else 0;
    assert was.stock[product := units - quantity][product := units] == was.stock[product := units];
  }

  lemma OrderAfterReserve(was: Contents, mid: Contents, user: UserId, product: ProductId, quantity: int, no: OrderNo,
                          a: Answers, outcome: Outcome, now: Contents)
    requires a.lookup.OnSale? && AloneReserve(was, product, quantity, a, true, mid)
    requires AloneOrder(mid, user, product, quantity, no, a.lookup.price, a, outcome, now)
    ensures AlonePurchase(was, user, product, quantity, no, a, outcome, now)
  {
    var units := if product in was.stock then was.stock[product] else 0;
    assert was.stock[product := units - quantity][product := units] == was.stock[product := units];
  }

  lemma RefusedAfterReserve(was: Contents, mid: Contents, user: UserId, product: ProductId, quantity: int, no: OrderNo,
                            a: Answers, now: Contents)
    requires a.lookup.OnSale? && AloneReserve(was, product, quantity, a, false, mid)
    requires now == mid.(keys := if a.del then mid.keys - {Key(user, product)} else mid.keys)
    ensures AlonePurchase(was, user, product, quantity, no, a, Rejected(StockInsufficient), now)
  {
  }

  /** What an outcome means, whatever else went on: each rejection has its reason, and an accepted call has its order,
      at the price the product service answered. */
  predicate OutcomeMeans(user: UserId, product: ProductId, quantity: int, no: OrderNo, a: Answers, outcome: Outcome,
                         orders: OrderStore.Orders)
  {
    match outcome
    case Accepted(order) =>
      && order == no && no in orders && a.lookup.OnSale? && a.decrBy.Ok? && !a.transactionFails
      && !(a.setNX.Error? && a.queryFails)
      && orders[no] == OrderStore.Order(user, product, quantity, a.lookup.price * quantity as real, orders[no].status)
    case Rejected(ProductNotFound) => a.lookup.Missing?
    case Rejected(ProductOffSale) => a.lookup.OffSale?
    case Rejected(StockInsufficient) => a.lookup.OnSale?
    case Rejected(Internal) => a.lookup.OnSale? || a.lookup.LookupFailed? || (a.setNX.Error? && a.queryFails)
    case Rejected(DuplicateOrder) => !(a.setNX.Error? && a.queryFails)
  }

  class SeckillService {
    const rdb: Redis
    const db: OrderDatabase

    constructor (rdb: Redis, db: OrderDatabase)
      ensures this.rdb == rdb && this.db == db
    {
      this.rdb, this.db := rdb, db;
    }

    /** The stores show the state after the steps so far, and the call stands at the given command. */
    ghost predicate At(s: State, steps: seq<Step>, c: nat, call: Call)
      reads rdb, db
    {
      && Runs(s, steps) && RedisShows(rdb, After(s, steps)) && OrdersShow(db, After(s, steps))
      && c in After(s, steps).calls && After(s, steps).calls[c] == call
    }

    ghost function Now(): Contents
      reads rdb, db
    {
      Contents(rdb.stock, rdb.keys, rdb.results, db.orders, db.outbox)
    }

    /** Take the idempotency key, check the product, reserve in Redis, then create the order with its event in one
        transaction; undo in Redis what was taken if a later command fails. Other calls, handlers, relays and
        expiries may do anything before each command: `others` says what, and steps in it that are not possible are
        passed over. However they interleave, the call is a run of the protocol from s to the state the stores show, and
        its outcome means what it says; if they do nothing, everything it answers and leaves is fixed. */
    method Seckill(user: UserId, product: ProductId, quantity: int, no: OrderNo, a: Answers, others: seq<seq<Step>>,
                   s: State, c: nat)
      returns (outcome: Outcome, steps: seq<Step>)
      requires At(s, [], c, Call(user, product, quantity, TryLock)) && |others| == COMMANDS
      modifies rdb, db
      ensures At(s, steps, c, Call(user, product, quantity, Done(outcome)))
      ensures OutcomeMeans(user, product, quantity, no, a, outcome, db.orders)
      ensures Alone(others) ==> AloneSeckill(old(Now()), user, product, quantity, no, a, outcome, Now())
    {
      var call := Call(user, product, quantity, TryLock);
      var pc: Pc;
      pc, steps := Admit(user, product, a, others, s, c, call);
      if pc.Done? {
        outcome := pc.outcome;
        return;
      }
      outcome, steps := Purchase(user, product, quantity, no, a, others, s, steps, c, call.(pc := pc));
    }

    /** The idempotency check. */
    method Admit(user: UserId, product: ProductId, a: Answers, others: seq<seq<Step>>, s: State, c: nat,
                 ghost call: Call)
      returns (pc: Pc, steps: seq<Step>)
      requires At(s, [], c, call) && call.pc.TryLock? && user == call.user && product == call.product
      requires |others| == COMMANDS
      modifies rdb, db
      ensures At(s, steps, c, call.(pc := pc))
      ensures if a.setNX.Error? && a.queryFails then pc == Done(Rejected(Internal))
              else pc == CheckProduct || pc == Done(Rejected(DuplicateOrder))
      ensures Alone(others) ==>
                && (pc == CheckProduct <==>
                      if a.setNX.Ok? then Key(user, product) !in old(rdb.keys)
                      else !a.queryFails && NobodyOrdered(old(db.orders), user, product))
                && Now() == old(Now()).(keys := if a.setNX == Error(false) then old(rdb.keys)
                                                else old(rdb.keys) + {Key(user, product)})
    {
      pc, steps := Lock(Key(user, product), a, others[0], s, [], c, call);
      if pc.CheckDatabase? {
        pc, steps := AskDatabase(user, product, a, others[1], s, steps, c, call.(pc := pc));
      }
    }

    /** What an admitted call does. */
    method Purchase(user: UserId, product: ProductId, quantity: int, no: OrderNo, a: Answers, others: seq<seq<Step>>,
                    s: State, before: seq<Step>, c: nat, ghost call: Call)
      returns (outcome: Outcome, steps: seq<Step>)
      requires At(s, before, c, call) && call == Call(user, product, quantity, CheckProduct) && |others| == COMMANDS
      requires !(a.setNX.Error? && a.queryFails)
      modifies rdb, db
      ensures At(s, steps, c, call.(pc := Done(outcome)))
      ensures OutcomeMeans(user, product, quantity, no, a, outcome, db.orders)
      ensures Alone(others) ==> AlonePurchase(old(Now()), user, product, quantity, no, a, outcome, Now())
    {
      var pc: Pc;
      pc, steps := AskProduct(a, others[2], s, before, c, call);
      if pc.DeductRedis? {
        outcome, steps := Buy(user, product, quantity, no, pc.price, a, others, s, steps, c, call.(pc := pc));
      } else {
        outcome, steps := GiveUp(Key(user, product), pc.reason, a, others[6], s, steps, c, call.(pc := pc));
      }
    }

    /** Redis first, then the transaction. */
    method Buy(user: UserId, product: ProductId, quantity: int, no: OrderNo, price: Money, a: Answers,
               others: seq<seq<Step>>, s: State, before: seq<Step>, c: nat, ghost call: Call)
      returns (outcome: Outcome, steps: seq<Step>)
      requires At(s, before, c, call) && call == Call(user, product, quantity, DeductRedis(price))
      requires |others| == COMMANDS && a.lookup == OnSale(price) && !(a.setNX.Error? && a.queryFails)
      modifies rdb, db
      ensures At(s, steps, c, call.(pc := Done(outcome)))
      ensures OutcomeMeans(user, product, quantity, no, a, outcome, db.orders)
      ensures Alone(others) ==> AlonePurchase(old(Now()), user, product, quantity, no, a, outcome, Now())
    {
      var pc: Pc;
      pc, steps := Reserve(product, quantity, price, a, others[3], others[4], s, before, c, call);
      ghost var was, mid := old(Now()), Now();
      if pc.CreateOrder? {
        outcome, steps := PlaceOrder(user, product, quantity, no, price, a, others, s, steps, c, call.(pc := pc));
        if Alone(others) {
          OrderAfterReserve(was, mid, user, product, quantity, no, a, outcome, Now());
        }
      } else {
        outcome, steps := GiveUp(Key(user, product), StockInsufficient, a, others[6], s, steps, c, call.(pc := pc));
        if Alone(others) {
          RefusedAfterReserve(was, mid, user, product, quantity, no, a, Now());
        }
      }
    }

    /** Take the units from the counter, and put them back if there were too few. */
    method Reserve(product: ProductId, quantity: int, price: Money, a: Answers, w: seq<Step>, w': seq<Step>, s: State,
                   before: seq<Step>, c: nat, ghost call: Call)
      returns (pc: Pc, steps: seq<Step>)
      requires At(s, before, c, call) && call.pc == DeductRedis(price) && product == call.product
               && quantity == call.quantity
      modifies rdb, db
      ensures At(s, steps, c, call.(pc := pc))
      ensures pc == DropKey(StockInsufficient) || (a.decrBy.Ok? && pc == CreateOrder(price))
      ensures w == w' == [] ==> AloneReserve(old(Now()), product, quantity, a, pc.CreateOrder?, Now())
    {
      pc, steps := Deduct(product, quantity, price, a, w, s, before, c, call);
      if pc.UndoDeduct? {
        ghost var mid := Now();
        pc, steps := PutBack(product, quantity, StockInsufficient, a, w', s, steps, c, call.(pc := pc));
        if w == w' == [] {
          PutBackRestores(old(Now()), mid, product, quantity, a, Now());
        }
      }
    }

    /** The transaction, and PENDING, or everything back. */
    method PlaceOrder(user: UserId, product: ProductId, quantity: int, no: OrderNo, price: Money, a: Answers,
                      others: seq<seq<Step>>, s: State, before: seq<Step>, c: nat, ghost call: Call)
      returns (outcome: Outcome, steps: seq<Step>)
      requires At(s, before, c, call) && call == Call(user, product, quantity, CreateOrder(price))
      requires |others| == COMMANDS
      modifies rdb, db
      ensures At(s, steps, c, call.(pc := Done(outcome))) && (outcome == Accepted(no) || outcome == Rejected(Internal))
      ensures outcome == Accepted(no) ==>
                && !a.transactionFails && no in db.orders
                && db.orders[no] == OrderStore.Order(user, product, quantity, price * quantity as real,
                                                     db.orders[no].status)
      ensures Alone(others) ==> AloneOrder(old(Now()), user, product, quantity, no, price, a, outcome, Now())
    {
      var pc: Pc;
      pc, steps := Create(user, product, quantity, no, price, a, others[4], s, before, c, call);
      if pc.WritePending? {
        steps := Announce(no, a, others[5], s, steps, c, call.(pc := pc));
        return Accepted(no), steps;
      }
      outcome, steps := Undo(user, product, quantity, Internal, a, others[5], others[6], s, steps, c, call.(pc := pc));
    }

    /** Both compensations. */
    method Undo(user: UserId, product: ProductId, quantity: int, reason: Rejection, a: Answers, w: seq<Step>,
                w': seq<Step>, s: State, before: seq<Step>, c: nat, ghost call: Call)
      returns (outcome: Outcome, steps: seq<Step>)
      requires At(s, before, c, call) && call == Call(user, product, quantity, call.pc)
      requires call.pc.RollBackRedis? && reason == Internal
      modifies rdb, db
      ensures At(s, steps, c, call.(pc := Done(outcome))) && outcome == Rejected(reason)
      ensures w == w' == [] ==> Undone(old(Now()), user, product, quantity, a, Now())
    {
      var pc: Pc;
      pc, steps := PutBack(product, quantity, reason, a, w, s, before, c, call);
      outcome, steps := GiveUp(Key(user, product), reason, a, w', s, steps, c, call.(pc := pc));
    }

    /** What others do before the call's next command. */
    method Meanwhile(w: seq<Step>, s: State, before: seq<Step>, c: nat, ghost call: Call) returns (steps: seq<Step>)
      requires At(s, before, c, call)
      modifies rdb, db
      ensures At(s, steps, c, call) && OrdersStay(old(db.orders), db.orders)
      ensures w == [] ==> Now() == old(Now())
    {
      steps := before;
      var now := After(s, steps);
      var i := 0;
      while i < |w|
        invariant 0 <= i <= |w|
        invariant Runs(s, steps) && now == After(s, steps) && c in now.calls && now.calls[c] == call
        invariant OrdersStay(old(db.orders), now.orders) && (i == 0 ==> steps == before)
      {
        if Foreign(w[i], c) && Enabled(now, w[i]) {
          ForeignLeavesCall(now, w[i], c);
          StepKeepsOrders(now, w[i]);
          Extend(s, steps, w[i]);
          steps := steps + [w[i]];
          now := Apply(now, w[i]);
        }
        i := i + 1;
      }
      rdb.stock, rdb.keys, rdb.results := now.stock, now.keys, now.results;
      db.orders, db.outbox := now.orders, Table(now.rows, OrderEvents);
    }

    method Lock(key: Key, a: Answers, w: seq<Step>, s: State, before: seq<Step>, c: nat, ghost call: Call)
      returns (pc: Pc, steps: seq<Step>)
      requires At(s, before, c, call) && call.pc.TryLock? && key == CallKey(call)
      modifies rdb, db
      ensures At(s, steps, c, call.(pc := pc))
      ensures pc == CheckDatabase || pc == CheckProduct || pc == Done(Rejected(DuplicateOrder))
      ensures pc == CheckDatabase <==> a.setNX.Error?
      ensures w == [] ==>
                && Now() == old(Now()).(keys := if a.setNX == Error(false) then old(rdb.keys)
                                                else old(rdb.keys) + {key})
                && (a.setNX.Ok? ==> (pc == CheckProduct <==> key !in old(rdb.keys)))
    {
      steps := Meanwhile(w, s, before, c, call);
      steps := Then(s, steps, SetNX(c, a.setNX));
      var taken := rdb.SetNX(key, a.setNX);
      pc := if taken.None? then CheckDatabase else if taken.value then CheckProduct else Done(Rejected(DuplicateOrder));
    }

    method AskDatabase(user: UserId, product: ProductId, a: Answers, w: seq<Step>, s: State, before: seq<Step>, c: nat,
                       ghost call: Call)
      returns (pc: Pc, steps: seq<Step>)
      requires At(s, before, c, call) && call.pc.CheckDatabase? && user == call.user && product == call.product
      modifies rdb, db
      ensures At(s, steps, c, call.(pc := pc))
      ensures if a.queryFails then pc == Done(Rejected(Internal))
              else pc == CheckProduct || pc == Done(Rejected(DuplicateOrder))
      ensures w == [] ==>
                && Now() == old(Now())
                && (pc == CheckProduct <==> !a.queryFails && NobodyOrdered(old(db.orders), user, product))
    {
      steps := Meanwhile(w, s, before, c, call);
      steps := Then(s, steps, QueryOrders(c, a.queryFails));
      pc := if a.queryFails then Done(Rejected(Internal))
            else if OrderStore.OrderedBy(db.orders, user, product) then Done(Rejected(DuplicateOrder))
            else CheckProduct;
    }

    method AskProduct(a: Answers, w: seq<Step>, s: State, before: seq<Step>, c: nat, ghost call: Call)
      returns (pc: Pc, steps: seq<Step>)
      requires At(s, before, c, call) && call.pc.CheckProduct?
      modifies rdb, db
      ensures At(s, steps, c, call.(pc := pc))
      ensures match a.lookup
              case OnSale(price) => pc == DeductRedis(price)
              case OffSale => pc == DropKey(ProductOffSale)
              case Missing => pc == DropKey(ProductNotFound)
              case LookupFailed => pc == DropKey(Internal)
      ensures w == [] ==> Now() == old(Now())
    {
      steps := Meanwhile(w, s, before, c, call);
      steps := Then(s, steps, QueryProduct(c, a.lookup));
      match a.lookup {
        case OnSale(price) => pc := DeductRedis(price);
        case OffSale => pc := DropKey(ProductOffSale);
        case Missing => pc := DropKey(ProductNotFound);
        case LookupFailed => pc := DropKey(Internal);
      }
    }

    method Deduct(product: ProductId, quantity: int, price: Money, a: Answers, w: seq<Step>, s: State,
                  before: seq<Step>, c: nat, ghost call: Call)
      returns (pc: Pc, steps: seq<Step>)
      requires At(s, before, c, call) && call.pc == DeductRedis(price) && product == call.product
               && quantity == call.quantity
      modifies rdb, db
      ensures At(s, steps, c, call.(pc := pc))
      ensures if a.decrBy.Error? then pc == DropKey(StockInsufficient) else pc == UndoDeduct || pc == CreateOrder(price)
      ensures w == [] ==>
                var units := (if product in old(rdb.stock) then old(rdb.stock)[product] else 0) - quantity;
                && Now() == old(Now()).(stock := if a.decrBy == Error(false) then old(rdb.stock)
                                                 else old(rdb.stock)[product := units])
                && (a.decrBy.Ok? ==> (pc == UndoDeduct <==> units < 0))
    {
      steps := Meanwhile(w, s, before, c, call);
      steps := Then(s, steps, DecrBy(c, a.decrBy));
      var counter := rdb.DecrBy(product, quantity, a.decrBy);
      pc := if counter.None? then DropKey(StockInsufficient)
            else if counter.value < 0 then UndoDeduct else CreateOrder(price);
    }

    method PutBack(product: ProductId, quantity: int, reason: Rejection, a: Answers, w: seq<Step>, s: State,
                   before: seq<Step>, c: nat, ghost call: Call)
      returns (pc: Pc, steps: seq<Step>)
      requires At(s, before, c, call) && product == call.product && quantity == call.quantity
      requires (call.pc.UndoDeduct? && reason == StockInsufficient) || (call.pc.RollBackRedis? && reason == Internal)
      modifies rdb, db
      ensures At(s, steps, c, call.(pc := pc)) && pc == DropKey(reason)
      ensures w == [] ==>
                var units := (if product in old(rdb.stock) then old(rdb.stock)[product] else 0) + quantity;
                Now() == old(Now()).(stock := if a.incrBy then old(rdb.stock)[product := units] else old(rdb.stock))
    {
      steps := Meanwhile(w, s, before, c, call);
      steps := Then(s, steps, IncrBy(c, a.incrBy));
      rdb.IncrBy(product, quantity, a.incrBy);
      pc := DropKey(reason);
    }

    method Create(user: UserId, product: ProductId, quantity: int, no: OrderNo, price: Money, a: Answers, w: seq<Step>,
                  s: State, before: seq<Step>, c: nat, ghost call: Call)
      returns (pc: Pc, steps: seq<Step>)
      requires At(s, before, c, call) && call == Call(user, product, quantity, CreateOrder(price))
      modifies rdb, db
      ensures At(s, steps, c, call.(pc := pc))
      ensures pc == WritePending(no) || pc == RollBackRedis
      ensures pc == WritePending(no) ==>
                && !a.transactionFails && no in db.orders
                && db.orders[no] == OrderStore.Order(user, product, quantity, price * quantity as real,
                                                     OrderStore.Pending)
      ensures w == [] ==>
                var total := price * quantity as real;
                && (pc == WritePending(no) <==>
                      !a.transactionFails && no !in old(db.orders) && NobodyOrdered(old(db.orders), user, product))
                && Now() == if pc != WritePending(no) then old(Now())
                            else old(Now()).(
                              orders := old(db.orders)[no := OrderStore.Order(user, product, quantity, total,
                                                                              OrderStore.Pending)],
                              outbox := old(db.outbox) + [OrderCreated(no, user, product, quantity, total)])
    {
      steps := Meanwhile(w, s, before, c, call);
      var o := OrderStore.Order(user, product, quantity, price * quantity as real, OrderStore.Pending);
      var row := OrderCreated(no, user, product, quantity, o.total);
      TransactEffect(After(s, steps), c, no, a.transactionFails, o, row);
      TablePush(After(s, steps).rows, row, OrderEvents);
      steps := Then(s, steps, Transact(c, no, a.transactionFails));
      var committed := db.Insert(no, o, row, a.transactionFails);
      pc := if committed then WritePending(no) else RollBackRedis;
    }

    method GiveUp(key: Key, reason: Rejection, a: Answers, w: seq<Step>, s: State, before: seq<Step>, c: nat,
                  ghost call: Call)
      returns (outcome: Outcome, steps: seq<Step>)
      requires At(s, before, c, call) && call.pc == DropKey(reason) && key == CallKey(call)
      modifies rdb, db
      ensures At(s, steps, c, call.(pc := Done(outcome))) && outcome == Rejected(reason)
      ensures w == [] ==> Now() == old(Now()).(keys := if a.del then old(rdb.keys) - {key} else old(rdb.keys))
    {
      steps := Meanwhile(w, s, before, c, call);
      steps := Then(s, steps, Del(c, a.del));
      rdb.Del(key, a.del);
      outcome := Rejected(reason);
    }

    method Announce(no: OrderNo, a: Answers, w: seq<Step>, s: State, before: seq<Step>, c: nat, ghost call: Call)
      returns (steps: seq<Step>)
      requires At(s, before, c, call) && call.pc == WritePending(no)
      modifies rdb, db
      ensures At(s, steps, c, call.(pc := Done(Accepted(no)))) && OrdersStay(old(db.orders), db.orders)
      ensures w == [] ==>
                Now() == old(Now()).(results := if a.written then old(rdb.results)[no := OrderStore.InProgress]
                                                else old(rdb.results))
    {
      steps := Meanwhile(w, s, before, c, call);
      steps := Then(s, steps, SetPending(c, a.written));
      rdb.SetResult(no, OrderStore.InProgress, a.written);
    }

    /** Redis first; if it fails or has nothing, the order row. None is a database error. */
    method GetSeckillResult(no: OrderNo, redisFails: bool, databaseFails: bool)
      returns (verdict: Option<OrderStore.Verdict>)
      ensures verdict == if databaseFails && (redisFails || no !in rdb.results) then None
                         else Some(OrderStore.Poll(rdb.results, db.orders, no, redisFails))
      ensures no in rdb.results && !redisFails ==> verdict == Some(rdb.results[no])
      ensures (no !in rdb.results || redisFails) && !databaseFails ==>
                && (verdict == Some(OrderStore.Success) <==> no in db.orders && db.orders[no].status.Paid?)
                && (verdict == Some(OrderStore.Failed) <==> no in db.orders && db.orders[no].status.Cancelled?)
    {
      if !redisFails && no in rdb.results {
        return Some(rdb.results[no]);
      }
      if databaseFails {
        return None;
      }
      if no !in db.orders {
        return Some(OrderStore.InProgress);
      }
      match db.orders[no].status {
        case Paid => verdict := Some(OrderStore.Success);
        case Cancelled => verdict := Some(OrderStore.Failed);
        case Pending | AwaitingPayment => verdict := Some(OrderStore.InProgress);
      }
    }
  }

  lemma TransactEffect(s: State, c: nat, no: OrderNo, failed: bool, o: OrderStore.Order, row: Event)
    requires Enabled(s, Transact(c, no, failed))
    requires o == NewOrder(s.calls[c]) && row == OrderCreated(no, o.user, o.product, o.quantity, o.total)
    ensures var s' := Apply(s, Transact(c, no, failed));
            && s'.stock == s.stock && s'.keys == s.keys && s'.results == s.results
            && (if !failed && no !in s.orders && !OrderStore.OrderedBy(s.orders, o.user, o.product)
                then s'.orders == s.orders[no := o] && s'.rows == s.rows + [row]
                     && s'.calls == s.calls[c := s.calls[c].(pc := WritePending(no))]
                else s'.orders == s.orders && s'.rows == s.rows
                     && s'.calls == s.calls[c := s.calls[c].(pc := RollBackRedis)])
  {
  }

  method Then(s: State, steps: seq<Step>, step: Step) returns (longer: seq<Step>)
    requires Runs(s, steps) && Enabled(After(s, steps), step)
    ensures longer == steps + [step] && Runs(s, longer) && After(s, longer) == Apply(After(s, steps), step)
  {
    Extend(s, steps, step);
    longer := steps + [step];
  }

  // ---------------------------------------------------------------- order event handler

  class OrderEventHandler {
    const rdb: Redis
    const db: OrderDatabase

    constructor (rdb: Redis, db: OrderDatabase)
      ensures this.rdb == rdb && this.db == db
    {
      this.rdb, this.db := rdb, db;
    }

    /** Dispatch of inventory and payment events. Unknown orders and unknown event types are ignored, and so is a
        transaction that fails: the handler then leaves everything as it is. */
    method Handle(e: Event, fails: bool, written: bool)
      modifies rdb, db
      ensures var reaction := if fails then OrderStore.Ignore(old(db.orders)) else OrderStore.React(old(db.orders), e);
              && db.orders == reaction.orders && db.outbox == old(db.outbox) + reaction.emitted
              && rdb.stock == old(rdb.stock) && rdb.keys == old(rdb.keys)
              && rdb.results == if reaction.verdict.Some? && written
                                then old(rdb.results)[e.order := reaction.verdict.value] else old(rdb.results)
    {
      match e {
        case StockDeducted(no, _, _) => HandleStockDeducted(no, fails);
        case StockDeductFailed(no, product) => HandleStockDeductFailed(no, product, fails, written);
        case PaymentSucceeded(no, _) => HandlePaymentSuccess(no, fails, written);
        case PaymentFailed(no, _) => HandlePaymentFailed(no, fails, written);
        case _ =>
      }
    }

    method HandleStockDeducted(no: OrderNo, fails: bool)
      modifies db
      ensures fails || no !in old(db.orders) ==> db.orders == old(db.orders) && db.outbox == old(db.outbox)
      ensures !fails && no in old(db.orders) ==>
                var o := old(db.orders)[no];
                && db.orders == old(db.orders)[no := o.(status := OrderStore.AwaitingPayment)]
                && db.outbox == old(db.outbox) + [PaymentRequested(no, o.user, o.total)]
    {
      if no in db.orders {
        var o := db.orders[no];
        var _ := db.Move(no, OrderStore.AwaitingPayment, PaymentRequested(no, o.user, o.total), fails);
      }
    }

    method HandleStockDeductFailed(no: OrderNo, product: ProductId, fails: bool, written: bool)
      modifies db, rdb`results
      ensures fails || no !in old(db.orders) ==>
                db.orders == old(db.orders) && db.outbox == old(db.outbox) && rdb.results == old(rdb.results)
      ensures !fails && no in old(db.orders) ==>
                var o := old(db.orders)[no];
                && db.orders == old(db.orders)[no := o.(status := OrderStore.Cancelled)]
                && db.outbox == old(db.outbox) + [OrderCancelled(no, o.user, product, o.quantity)]
                && rdb.results == if written then old(rdb.results)[no := OrderStore.Failed] else old(rdb.results)
    {
      if no in db.orders {
        var o := db.orders[no];
        var committed := db.Move(no, OrderStore.Cancelled, OrderCancelled(no, o.user, product, o.quantity), fails);
        if committed {
          rdb.SetResult(no, OrderStore.Failed, written);
        }
      }
    }

    method HandlePaymentSuccess(no: OrderNo, fails: bool, written: bool)
      modifies db, rdb`results
      ensures fails || no !in old(db.orders) ==>
                db.orders == old(db.orders) && db.outbox == old(db.outbox) && rdb.results == old(rdb.results)
      ensures !fails && no in old(db.orders) ==>
                var o := old(db.orders)[no];
                && db.orders == old(db.orders)[no := o.(status := OrderStore.Paid)]
                && db.outbox == old(db.outbox) + [OrderCompleted(no, o.product, o.quantity)]
                && rdb.results == if written then old(rdb.results)[no := OrderStore.Success] else old(rdb.results)
    {
      if no in db.orders {
        var o := db.orders[no];
        var committed := db.Move(no, OrderStore.Paid, OrderCompleted(no, o.product, o.quantity), fails);
        if committed {
          rdb.SetResult(no, OrderStore.Success, written);
        }
      }
    }

    method HandlePaymentFailed(no: OrderNo, fails: bool, written: bool)
      modifies db, rdb`results
      ensures fails || no !in old(db.orders) ==>
                db.orders == old(db.orders) && db.outbox == old(db.outbox) && rdb.results == old(rdb.results)
      ensures !fails && no in old(db.orders) ==>
                var o := old(db.orders)[no];
                && db.orders == old(db.orders)[no := o.(status := OrderStore.Cancelled)]
                && db.outbox == old(db.outbox) + [OrderCancelled(no, o.user, o.product, o.quantity)]
                && rdb.results == if written then old(rdb.results)[no := OrderStore.Failed] else old(rdb.results)
    {
      if no in db.orders {
        var o := db.orders[no];
        var committed := db.Move(no, OrderStore.Cancelled, OrderCancelled(no, o.user, o.product, o.quantity), fails);
        if committed {
          rdb.SetResult(no, OrderStore.Failed, written);
        }
      }
    }

    /** Handling a published row is the protocol's delivery, followed by its Redis write if it has one; or nothing at
        all, if the transaction fails. */
    method HandleRow(e: Event, fails: bool, written: bool, ghost s: State, ghost r: nat, ghost h: nat)
      returns (ghost steps: seq<Step>)
      requires RedisShows(rdb, s) && OrdersShow(db, s)
      requires Enabled(s, Deliver(r, h, false)) && s.rows[r] == e && TopicConsumer(e).OrderService?
      modifies rdb, db
      ensures Runs(s, steps) && RedisShows(rdb, After(s, steps)) && OrdersShow(db, After(s, steps))
      ensures db.orders == if fails then old(db.orders) else OrderStore.React(old(db.orders), e).orders
      ensures Keeps(s, After(s, steps))
      ensures After(s, steps).consumed == s.consumed + if fails then {} else {r}
      ensures r !in s.consumed ==> AtMostOnce(s, steps)
    {
      steps := [];
      if !fails {
        steps := OrderServiceRun(s, r, h, written);
        EmittedTable(s.rows, OrderStore.React(s.orders, e).emitted, OrderEvents);
      }
      Handle(e, fails, written);
    }
  }

  /** Published rows stay where they are. */
  ghost predicate Keeps(s: State, s': State) {
    s'.log == s.log && s.rows <= s'.rows
  }

  lemma EmittedTable(rows: seq<Event>, emitted: seq<Event>, topic: Topic)
    requires |emitted| <= 1 && forall x | x in emitted :: TopicOf(x) == topic
    ensures Table(rows + emitted, topic) == Table(rows, topic) + emitted
  {
    if emitted == [] {
      assert rows + emitted == rows;
    } else {
      assert emitted == [emitted[0]];
      TablePush(rows, emitted[0], topic);
    }
  }

  lemma ReactEmits(orders: OrderStore.Orders, e: Event)
    ensures var out := OrderStore.React(orders, e).emitted;
            |out| <= 1 && forall x | x in out :: TopicOf(x) == OrderEvents
  {
  }

  lemma OrderServiceDelivery(s: State, r: nat, h: nat)
    requires Enabled(s, Deliver(r, h, false)) && TopicConsumer(s.rows[r]).OrderService?
    ensures var s', reaction := Apply(s, Deliver(r, h, false)), OrderStore.React(s.orders, s.rows[r]);
            && s'.stock == s.stock && s'.keys == s.keys && s'.results == s.results
            && s'.orders == reaction.orders && s'.rows == s.rows + reaction.emitted
            && s'.log == s.log && s'.consumed == s.consumed + {r}
            && (reaction.verdict.Some? ==>
                  h in s'.handlers && s'.handlers[h] == WriteVerdict(s.rows[r].order, reaction.verdict.value))
  {
  }

  /** The Redis write after a delivery, after any steps. */
  lemma VerdictWritten(s: State, h: nat, written: bool)
    requires h in s.handlers && s.handlers[h].WriteVerdict?
    ensures var s', job := Apply(s, Continue(h, written)), s.handlers[h];
            && s'.stock == s.stock && s'.keys == s.keys && s'.orders == s.orders && s'.rows == s.rows
            && s'.log == s.log && s'.consumed == s.consumed
            && s'.results == if written then s.results[job.order := job.verdict] else s.results
  {
  }

  ghost method OrderServiceRun(s: State, r: nat, h: nat, written: bool) returns (steps: seq<Step>)
    requires Enabled(s, Deliver(r, h, false)) && TopicConsumer(s.rows[r]).OrderService?
    ensures Runs(s, steps) && (r !in s.consumed ==> AtMostOnce(s, steps))
    ensures var s', e := After(s, steps), s.rows[r];
            var reaction := OrderStore.React(s.orders, e);
            && s'.stock == s.stock && s'.keys == s.keys && s'.orders == reaction.orders
            && s'.rows == s.rows + reaction.emitted && s'.log == s.log && s'.consumed == s.consumed + {r}
            && s'.results == (if reaction.verdict.Some? && written then s.results[e.order := reaction.verdict.value]
                              else s.results)
            && |reaction.emitted| <= 1 && forall x | x in reaction.emitted :: TopicOf(x) == OrderEvents
  {
    ReactEmits(s.orders, s.rows[r]);
    OrderServiceDelivery(s, r, h);
    Extend(s, [], Deliver(r, h, false));
    steps := [] + [Deliver(r, h, false)];
    if r !in s.consumed {
      ExtendOnce(s, [], Deliver(r, h, false));
    }
    if OrderStore.React(s.orders, s.rows[r]).verdict.Some? {
      VerdictWritten(After(s, steps), h, written);
      steps := ThenOnce(s, steps, Continue(h, written));
    }
  }

  // ---------------------------------------------------------------- inventory event handler

  class InventoryEventHandler {
    const rdb: Redis
    const db: InventoryDatabase
    const service: InventoryService.Service

    constructor (rdb: Redis, db: InventoryDatabase, service: InventoryService.Service)
      requires service.repo == db.repo
      ensures this.rdb == rdb && this.db == db && this.service == service
    {
      this.rdb, this.db, this.service := rdb, db, service;
    }

    /** Deduct and reply in one transaction: the reply says whether the deduction succeeded, for whatever reason it did
        not, a database error included. If the transaction fails, neither happens. */
    method HandleOrderCreated(no: OrderNo, product: ProductId, quantity: int, windows: seq<InventoryService.Window>,
                              fails: bool)
      returns (outcome: Option<InventoryStore.DeductOutcome>, attempts: nat)
      requires |windows| == InventoryService.MAX_RETRIES
      modifies db, service.repo
      ensures fails ==> service.repo.rows == old(service.repo.rows) && db.outbox == old(db.outbox)
      ensures !fails ==>
                && InventoryService.DeductAnswers(old(service.repo.rows), product, quantity, windows, outcome, attempts,
                                                  service.repo.rows)
                && db.outbox == old(db.outbox) + [if outcome == Some(InventoryStore.Deducted)
                                                  then StockDeducted(no, product, quantity)
                                                  else StockDeductFailed(no, product)]
    {
      outcome, attempts := None, 0;
      if !fails {
        outcome, attempts := service.Deduct(product, quantity, windows);
        if outcome == Some(InventoryStore.Deducted) {
          db.outbox := db.outbox + [StockDeducted(no, product, quantity)];
        } else {
          db.outbox := db.outbox + [StockDeductFailed(no, product)];
        }
      }
    }

    method HandleOrderCompleted(product: ProductId, quantity: int, fails: bool)
      modifies service.repo
      ensures service.repo.rows
              == if fails then old(service.repo.rows)
                  else InventoryStore.Confirm(old(service.repo.rows), product, quantity)
    {
      if !fails {
        var _ := service.repo.ConfirmDeduction(product, quantity);
      }
    }

    /** Return the stock, then, whether or not the database did so, restore Redis and delete the key. */
    method HandleOrderCancelled(user: UserId, product: ProductId, quantity: int, fails: bool, incrBy: bool, del: bool)
      modifies service.repo, rdb
      ensures service.repo.rows
              == if fails then old(service.repo.rows)
                  else InventoryStore.Return(old(service.repo.rows), product, quantity)
      ensures rdb.stock == if incrBy then AddStock(old(rdb.stock), product, quantity) else old(rdb.stock)
      ensures rdb.keys == if del then old(rdb.keys) - {Key(user, product)} else old(rdb.keys)
      ensures rdb.results == old(rdb.results)
    {
      if !fails {
        var _ := service.repo.ReturnStock(product, quantity);
      }
      rdb.IncrBy(product, quantity, incrBy);
      rdb.Del(Key(user, product), del);
    }

    /** The steps are a run from s, with the given inventory in place of its own, to what Redis and the outbox show. */
    ghost predicate Performs(s: State, stock: InventoryStore.Stock, steps: seq<Step>, r: nat, delivered: bool)
      reads rdb, db
    {
      var s1 := T.Found(s, stock);
      && Runs(s1, steps) && RedisShows(rdb, After(s1, steps))
      && db.outbox == Table(After(s1, steps).rows, InventoryEvents)
      && After(s1, steps).consumed == s.consumed + (if delivered then {r} else {})
      && (r !in s.consumed ==> AtMostOnce(s1, steps))
    }

    /** Handling a published row is the protocol's delivery to some inventory, followed for a cancellation by its two
        Redis commands, or nothing if the transaction of an ORDER_CREATED or ORDER_COMPLETED fails. It is a delivery to
        the inventory as it was if nobody disturbs a deduction and the database executes a return. */
    method HandleRow(e: Event, windows: seq<InventoryService.Window>, fails: bool, incrBy: bool, del: bool,
                     ghost s: State, ghost r: nat, ghost h: nat)
      returns (ghost stock: InventoryStore.Stock, ghost steps: seq<Step>)
      requires service.repo == db.repo && RedisShows(rdb, s) && InventoryShows(db, s)
      requires |windows| == InventoryService.MAX_RETRIES
      requires Enabled(s, Deliver(r, h, false)) && s.rows[r] == e && TopicConsumer(e).InventoryService?
      modifies rdb, db, db.repo
      ensures Performs(s, stock, steps, r, !fails || e.OrderCancelled?)
      ensures Undisturbed(e, windows, fails) ==> stock == s.inventory && InventoryShows(db, After(s, steps))
      ensures e.OrderCancelled? && fails ==> db.repo.rows == s.inventory
    {
      match e {
        case OrderCreated(no, _, product, quantity, _) =>
          ghost var outcome, attempts := HandleOrderCreated(no, product, quantity, windows, fails);
          stock, steps := s.inventory, [];
          if !fails {
            stock := InventoryFor(s.inventory, product, quantity, outcome, windows);
            FoundByDeduct(s.inventory, product, quantity, windows, outcome, attempts, db.repo.rows);
            steps := CreationRun(s, stock, r, h);
          }
        case OrderCompleted(_, product, quantity) =>
          HandleOrderCompleted(product, quantity, fails);
          stock, steps := s.inventory, [];
          if !fails {
            steps := CompletionRun(s, r, h);
          }
        case OrderCancelled(_, user, product, quantity) =>
          HandleOrderCancelled(user, product, quantity, fails, incrBy, del);
          stock := if fails then map[] else s.inventory;
          steps := CancellationRun(s, stock, r, h, incrBy, del);
      }
    }
  }

  /** An inventory at which one guarded update answers as the retry loop did. */
  function InventoryFor(rows: InventoryStore.Stock, product: ProductId, quantity: int,
                        outcome: Option<InventoryStore.DeductOutcome>, windows: seq<InventoryService.Window>)
    : InventoryStore.Stock
    requires |windows| == InventoryService.MAX_RETRIES
  {
    if InventoryService.Quiet(windows[0]) then rows
    else if outcome == Some(InventoryStore.Deducted) then map[product := InventoryStore.Row(0, quantity, 0, 0)]
    else map[]
  }

  lemma FoundByDeduct(rows: InventoryStore.Stock, product: ProductId, quantity: int,
                      windows: seq<InventoryService.Window>, outcome: Option<InventoryStore.DeductOutcome>,
                      attempts: nat, rows': InventoryStore.Stock)
    requires |windows| == InventoryService.MAX_RETRIES
    requires InventoryService.DeductAnswers(rows, product, quantity, windows, outcome, attempts, rows')
    ensures var (stock, answer) := InventoryStore.Deduct(InventoryFor(rows, product, quantity, outcome, windows),
                                                         product, quantity);
            && (outcome == Some(InventoryStore.Deducted) <==> answer.Deducted?)
            && (InventoryService.Quiet(windows[0]) ==> rows' == stock)
  {
    if InventoryService.Quiet(windows[0]) {
      InventoryService.QuietDeduct(rows, product, quantity, windows, outcome, attempts, rows');
    }
  }

  ghost method CreationRun(s: State, stock: InventoryStore.Stock, r: nat, h: nat) returns (steps: seq<Step>)
    requires Enabled(s, Deliver(r, h, false)) && s.rows[r].OrderCreated?
    ensures var s1 := T.Found(s, stock);
            Runs(s1, steps) && (r !in s.consumed ==> AtMostOnce(s1, steps))
    ensures var s', e := After(T.Found(s, stock), steps), s.rows[r];
            var (stock', answer) := InventoryStore.Deduct(stock, e.product, e.quantity);
            && s'.stock == s.stock && s'.keys == s.keys && s'.results == s.results && s'.consumed == s.consumed + {r}
            && s'.inventory == stock'
            && Table(s'.rows, InventoryEvents)
               == Table(s.rows, InventoryEvents)
                  + [if answer.Deducted? then StockDeducted(e.order, e.product, e.quantity)
                     else StockDeductFailed(e.order, e.product)]
  {
    steps := InventoryServiceRun(T.Found(s, stock), r, h, false, false);
    EmittedTable(s.rows, InventoryStore.React(stock, s.rows[r]).emitted, InventoryEvents);
  }

  ghost method CompletionRun(s: State, r: nat, h: nat) returns (steps: seq<Step>)
    requires Enabled(s, Deliver(r, h, false)) && s.rows[r].OrderCompleted?
    ensures Runs(s, steps) && (r !in s.consumed ==> AtMostOnce(s, steps))
    ensures var s', e := After(s, steps), s.rows[r];
            && s'.stock == s.stock && s'.keys == s.keys && s'.results == s.results && s'.consumed == s.consumed + {r}
            && s'.inventory == InventoryStore.Confirm(s.inventory, e.product, e.quantity) && s'.rows == s.rows
  {
    steps := InventoryServiceRun(s, r, h, false, false);
    assert s.rows + [] == s.rows;
  }

  ghost method CancellationRun(s: State, stock: InventoryStore.Stock, r: nat, h: nat, incrBy: bool, del: bool)
    returns (steps: seq<Step>)
    requires Enabled(s, Deliver(r, h, false)) && s.rows[r].OrderCancelled?
    ensures var s1 := T.Found(s, stock);
            Runs(s1, steps) && (r !in s.consumed ==> AtMostOnce(s1, steps))
    ensures var s', e := After(T.Found(s, stock), steps), s.rows[r];
            && s'.stock == (if incrBy then AddStock(s.stock, e.product, e.quantity) else s.stock)
            && s'.keys == (if del then s.keys - {Key(e.user, e.product)} else s.keys)
            && s'.results == s.results && s'.consumed == s.consumed + {r} && s'.rows == s.rows
            && s'.inventory == InventoryStore.Return(stock, e.product, e.quantity)
  {
    steps := InventoryServiceRun(T.Found(s, stock), r, h, incrBy, del);
    assert s.rows + [] == s.rows;
  }

  /** Nobody else is on the row while it is deducted from, and the database executes a return. */
  predicate Undisturbed(e: Event, windows: seq<InventoryService.Window>, fails: bool)
    requires |windows| == InventoryService.MAX_RETRIES
  {
    if e.OrderCreated? then fails || InventoryService.Quiet(windows[0])
    else e.OrderCancelled? ==> !fails
  }

  lemma InventoryServiceDelivery(s: State, r: nat, h: nat)
    requires Enabled(s, Deliver(r, h, false)) && TopicConsumer(s.rows[r]).InventoryService?
    ensures var s', e := Apply(s, Deliver(r, h, false)), s.rows[r];
            var reaction := InventoryStore.React(s.inventory, e);
            && s'.stock == s.stock && s'.keys == s.keys && s'.results == s.results && s'.consumed == s.consumed + {r}
            && s'.inventory == reaction.stock && s'.rows == s.rows + reaction.emitted
            && (e.OrderCancelled? ==>
                  h in s'.handlers && s'.handlers[h] == RestoreRedis(e.order, e.user, e.product, e.quantity))
  {
  }

  /** What a clean-up leaves alone. */
  ghost predicate SameTables(s: State, s': State) {
    s'.results == s.results && s'.inventory == s.inventory && s'.rows == s.rows && s'.consumed == s.consumed
  }

  lemma RestoreThenDelete(s: State, h: nat, incrBy: bool)
    requires h in s.handlers && s.handlers[h].RestoreRedis?
    ensures var s', job := Apply(s, Continue(h, incrBy)), s.handlers[h];
            && h in s'.handlers && s'.handlers[h] == DeleteKey(job.order, job.user, job.product)
            && s'.keys == s.keys && SameTables(s, s')
            && s'.stock == if incrBy then AddStock(s.stock, job.product, job.quantity) else s.stock
  {
  }

  lemma DeleteLast(s: State, h: nat, del: bool)
    requires h in s.handlers && s.handlers[h].DeleteKey?
    ensures var s', job := Apply(s, Continue(h, del)), s.handlers[h];
            && s'.stock == s.stock && SameTables(s, s')
            && s'.keys == if del then s.keys - {Key(job.user, job.product)} else s.keys
  {
  }

  /** The two Redis commands of a cancellation, after any steps. */
  ghost method CleanUpRun(s: State, before: seq<Step>, h: nat, incrBy: bool, del: bool) returns (steps: seq<Step>)
    requires Runs(s, before) && h in After(s, before).handlers && After(s, before).handlers[h].RestoreRedis?
    ensures Runs(s, steps) && (AtMostOnce(s, before) ==> AtMostOnce(s, steps))
    ensures var early, late := After(s, before), After(s, steps);
            var job := early.handlers[h];
            && SameTables(early, late)
            && late.stock == (if incrBy then AddStock(early.stock, job.product, job.quantity) else early.stock)
            && late.keys == (if del then early.keys - {Key(job.user, job.product)} else early.keys)
  {
    RestoreThenDelete(After(s, before), h, incrBy);
    steps := ThenOnce(s, before, Continue(h, incrBy));
    DeleteLast(After(s, steps), h, del);
    steps := ThenOnce(s, steps, Continue(h, del));
  }

  /** A step that delivers nothing again. */
  ghost method ThenOnce(s: State, steps: seq<Step>, step: Step) returns (longer: seq<Step>)
    requires Runs(s, steps) && Enabled(After(s, steps), step) && FirstDelivery(After(s, steps), step)
    ensures longer == steps + [step] && Runs(s, longer) && After(s, longer) == Apply(After(s, steps), step)
    ensures AtMostOnce(s, steps) ==> AtMostOnce(s, longer)
  {
    Extend(s, steps, step);
    longer := steps + [step];
    if AtMostOnce(s, steps) {
      ExtendOnce(s, steps, step);
    }
  }

  lemma ReactReplies(stock: InventoryStore.Stock, e: Event)
    ensures var out := InventoryStore.React(stock, e).emitted;
            |out| <= 1 && forall x | x in out :: TopicOf(x) == InventoryEvents
  {
  }

  ghost method InventoryServiceRun(s: State, r: nat, h: nat, incrBy: bool, del: bool) returns (steps: seq<Step>)
    requires Enabled(s, Deliver(r, h, false)) && TopicConsumer(s.rows[r]).InventoryService?
    ensures Runs(s, steps) && (r !in s.consumed ==> AtMostOnce(s, steps))
    ensures var s', e := After(s, steps), s.rows[r];
            var reaction := InventoryStore.React(s.inventory, e);
            && s'.inventory == reaction.stock && s'.rows == s.rows + reaction.emitted && s'.results == s.results
            && s'.consumed == s.consumed + {r}
            && s'.stock == (if e.OrderCancelled? && incrBy then AddStock(s.stock, e.product, e.quantity) else s.stock)
            && s'.keys == (if e.OrderCancelled? && del then s.keys - {Key(e.user, e.product)} else s.keys)
            && |reaction.emitted| <= 1 && forall x | x in reaction.emitted :: TopicOf(x) == InventoryEvents
  {
    ReactReplies(s.inventory, s.rows[r]);
    InventoryServiceDelivery(s, r, h);
    Extend(s, [], Deliver(r, h, false));
    steps := [] + [Deliver(r, h, false)];
    if r !in s.consumed {
      ExtendOnce(s, [], Deliver(r, h, false));
    }
    if s.rows[r].OrderCancelled? {
      steps := CleanUpRun(s, steps, h, incrBy, del);
    }
  }

  // ---------------------------------------------------------------- payment service

  class PaymentService {
    const db: PaymentDatabase
    var successRate: real

    /** A rate outside 0..1 is taken as 1. */
    constructor (db: PaymentDatabase, rate: real)
      ensures this.db == db && successRate == if 0.0 <= rate <= 1.0 then rate else 1.0
    {
      this.db := db;
      successRate := if rate < 0.0 || rate > 1.0 then 1.0 else rate;
    }

    method SetSuccessRate(rate: real)
      modifies this
      ensures successRate == if 0.0 <= rate <= 1.0 then rate else 1.0
    {
      successRate := if rate < 0.0 || rate > 1.0 then 1.0 else rate;
    }

    /** The payment row and its result event in one transaction, or, if it fails, neither. `draw` is the random number
        in [0, 1): a rate of 1 always charges, a rate of 0 never does. Events other than PAYMENT_REQUESTED are
        ignored. */
    method HandleOrderEvent(e: Event, draw: real, fails: bool, ghost s: State, ghost r: nat, ghost h: nat)
      requires 0.0 <= draw < 1.0 && PaymentsShow(db, s)
      requires Enabled(s, Deliver(r, h, draw < successRate)) && s.rows[r] == e
      modifies db
      ensures e.PaymentRequested? && !fails ==>
                && PaymentsShow(db, Apply(s, Deliver(r, h, draw < successRate)))
                && db.payments == old(db.payments) + [Payment(e.order, e.user, e.amount, draw < successRate)]
                && db.outbox == old(db.outbox) + [if draw < successRate then PaymentSucceeded(e.order, e.amount)
                                                  else PaymentFailed(e.order, e.amount)]
      ensures !e.PaymentRequested? || fails ==> PaymentsShow(db, s)
    {
      if !e.PaymentRequested? || fails {
        return;
      }
      var charged := draw < successRate;
      var result := if charged then PaymentSucceeded(e.order, e.amount) else PaymentFailed(e.order, e.amount);
      TablePush(s.rows, result, PaymentEvents);
      db.payments := db.payments + [Payment(e.order, e.user, e.amount, charged)];
      db.outbox := db.outbox + [result];
    }
  }
}

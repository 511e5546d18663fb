/** Scripts: a short list of purchases and messages, of which some are repeated or come out of turn, is proved to be a
    run of the shop. A book keeps what a script needs to know: the counters, who has which order, and how far each order
    has come. */
module SagaScripts {
  import opened Events
  import opened SagaProtocol
  import opened SagaLedger
  import opened SagaInvariant
  import opened SagaAnyDelivery
  import opened SagaRepeats
  import opened SagaShop
  import opened Totals
  import OrderStore
  import InventoryStore

  /** An order is on its way, carried by a row that has not been handled, or all that is known of it is its status. */
  datatype Spot = On(stage: Stage, at: nat) | Off(status: OrderStore.Status)

  /** `count` is the number of outbox rows. */
  datatype Book = Book(redis: int, available: int, locked: int, count: nat, users: map<OrderNo, UserId>,
                       spots: map<OrderNo, Spot>)

  predicate OrderShows(rows: seq<Event>, consumed: set<nat>, o: OrderStore.Order, no: OrderNo, user: UserId, spot: Spot)
  {
    match spot
    case On(stage, at) =>
      && o == OneUnit(user).(status := StatusOf(stage)) && Open(stage)
      && at < |rows| && at !in consumed && rows[at] == Token(no, o, stage)
    case Off(status) => o == OneUnit(user).(status := status)
  }

  function SpotStatus(spot: Spot): OrderStore.Status {
    match spot
    case On(stage, _) => StatusOf(stage)
    case Off(status) => status
  }

  ghost predicate OrdersShow(rows: seq<Event>, consumed: set<nat>, orders: OrderStore.Orders, v: Book) {
    && orders.Keys == v.users.Keys == v.spots.Keys
    && (forall no | no in v.spots :: OrderShows(rows, consumed, orders[no], no, v.users[no], v.spots[no]))
    && |rows| == v.count && (forall r | r in consumed :: r < |rows|)
  }

  ghost predicate StockShows(s: State, v: Book) {
    && s.stock == map[1 := v.redis] && 1 in s.inventory
    && s.inventory[1].available == v.available && s.inventory[1].locked == v.locked
    && (forall k | k in s.keys :: k.user in v.users.Values)
  }

  ghost predicate Shows(s: State, v: Book) {
    OrdersShow(s.rows, s.consumed, s.orders, v) && StockShows(s, v)
  }

  /** A run that repeats only messages of the given kinds and ends in a state the book shows. */
  ghost predicate In(s0: State, steps: seq<Step>, kinds: set<MessageKind>, v: Book) {
    Ran(s0, steps, kinds) && Shows(After(s0, steps), v)
  }

  function RowsAfter(s0: State, steps: seq<Step>): seq<Event>
    requires Runs(s0, steps)
  {
    After(s0, steps).rows
  }

  function ConsumedAfter(s0: State, steps: seq<Step>): set<nat>
    requires Runs(s0, steps)
  {
    After(s0, steps).consumed
  }

  // ---------------------------------------------------------------- buying

  function Bought(v: Book, user: UserId, no: OrderNo): Book {
    v.(redis := v.redis - 1, count := v.count + 1, users := v.users[no := user],
       spots := v.spots[no := On(Created, v.count)])
  }

  lemma BoughtShows(s: State, v: Book, c: nat, user: UserId, no: OrderNo)
    requires Shows(s, v) && no !in v.users
    ensures Shows(Committed(s, c, user, no), Bought(v, user, no))
  {
    BoughtOrders(s.rows, s.consumed, s.orders, v, user, no);
    BoughtStock(s, v, c, user, no);
  }

  lemma BoughtOrders(rows: seq<Event>, consumed: set<nat>, orders: OrderStore.Orders, v: Book, user: UserId,
                     no: OrderNo)
    requires OrdersShow(rows, consumed, orders, v) && no !in v.users
    ensures OrdersShow(rows + [OrderCreated(no, user, 1, 1, 10.0)], consumed, orders[no := OneUnit(user)],
                       Bought(v, user, no))
  {
    var rows' := rows + [OrderCreated(no, user, 1, 1, 10.0)];
    forall n | n in v.spots ensures OrderShows(rows', consumed, orders[n], n, v.users[n], v.spots[n]) {
      assert OrderShows(rows, consumed, orders[n], n, v.users[n], v.spots[n]);
    }
  }

  lemma BoughtStock(s: State, v: Book, c: nat, user: UserId, no: OrderNo)
    requires StockShows(s, v) && no !in v.users
    ensures StockShows(Committed(s, c, user, no), Bought(v, user, no))
  {
    var s', v' := Committed(s, c, user, no), Bought(v, user, no);
    assert s'.stock == map[1 := v.redis - 1];
    assert v'.users[no] == user && forall n | n in v.users :: v'.users[n] == v.users[n];
  }

  lemma Buy(s0: State, steps: seq<Step>, kinds: set<MessageKind>, v: Book, user: UserId, no: OrderNo)
    returns (longer: seq<Step>)
    requires In(s0, steps, kinds, v) && v.redis >= 1 && user !in v.users.Values && no !in v.users
    ensures In(s0, longer, kinds, Bought(v, user, no))
    ensures RowsAfter(s0, longer) == RowsAfter(s0, steps) + [OrderCreated(no, user, 1, 1, 10.0)]
    ensures ConsumedAfter(s0, longer) == ConsumedAfter(s0, steps)
  {
    var s := After(s0, steps);
    var c := FreshKey(s.calls.Keys);
    NewCustomer(s, v, user);
    longer := BuyOne(s0, steps, kinds, user, no, c);
    BoughtShows(s, v, c, user, no);
  }

  lemma NewCustomer(s: State, v: Book, user: UserId)
    requires Shows(s, v) && user !in v.users.Values
    ensures Key(user, 1) !in s.keys && !OrderStore.OrderedBy(s.orders, user, 1)
  {
    forall n | n in s.orders ensures s.orders[n].user != user {
      assert v.users[n] in v.users.Values;
    }
  }

  // ---------------------------------------------------------------- messages

  /** A row is published, again if need be, and delivered to handler h. */
  lemma Handle(s0: State, steps: seq<Step>, kinds: set<MessageKind>, r: nat, charged: bool)
    returns (longer: seq<Step>, s1: State, h: nat)
    requires Ran(s0, steps, kinds)
    requires var s := After(s0, steps);
             r < |s.rows| && (r in s.consumed ==> KindOf(s.rows[r]) in kinds)
    ensures s1 == After(s0, steps).(log := After(s0, steps).log + [r])
    ensures Enabled(s1, Deliver(r, h, charged))
    ensures Ran(s0, longer, kinds)
    ensures After(s0, longer) == Apply(s1, Deliver(r, h, charged))
  {
    var s := After(s0, steps);
    s1 := s.(log := s.log + [r]);
    h := FreshKey(s.handlers.Keys);
    longer := TakeStep(s0, steps, kinds, Publish(r), s1);
    longer := TakeStep(s0, longer, kinds, Deliver(r, h, charged), Apply(s1, Deliver(r, h, charged)));
  }

  predicate OnItsWay(v: Book, no: OrderNo) {
    no in v.spots && v.spots[no].On? && Open(v.spots[no].stage) && !v.spots[no].stage.Cancelled?
  }

  /** An open order moves to its next stage. */
  function Moved(v: Book, no: OrderNo, charged: bool): Book
    requires OnItsWay(v, no)
  {
    var stage := v.spots[no].stage;
    var next := NextStage(stage, charged);
    v.(spots := v.spots[no := if Open(next) then On(next, v.count) else Off(StatusOf(next))],
       count := if Open(next) then v.count + 1 else v.count,
       available := if stage.Created? then v.available - 1 else v.available,
       locked := if stage.Created? then v.locked + 1 else if stage.Completed? then v.locked - 1 else v.locked)
  }

  /** The row that moving on adds. */
  function NextRows(v: Book, no: OrderNo, charged: bool): seq<Event>
    requires OnItsWay(v, no) && no in v.users
  {
    var next := NextStage(v.spots[no].stage, charged);
    if Open(next) then [Token(no, OneUnit(v.users[no]), next)] else []
  }

  lemma MovedShows(s: State, s': State, v: Book, r: nat, h: nat, no: OrderNo, charged: bool)
    requires Shows(s, v) && OnItsWay(v, no) && r == v.spots[no].at
    requires Delivered(s, s', r, h, no, v.spots[no].stage, charged) && s'.keys == s.keys
    ensures Shows(s', Moved(v, no, charged)) && no in v.users && s'.rows == s.rows + NextRows(v, no, charged)
  {
    assert StockMoved(s, s', s.orders[no], v.spots[no].stage, 1);
    assert OrderShows(s.rows, s.consumed, s.orders[no], no, v.users[no], v.spots[no]);
    MovedOrders(s, s', v, r, h, no, charged);
  }

  lemma MovedOrders(s: State, s': State, v: Book, r: nat, h: nat, no: OrderNo, charged: bool)
    requires OrdersShow(s.rows, s.consumed, s.orders, v) && OnItsWay(v, no) && r == v.spots[no].at
    requires Advanced(s, s', r, h, no, NextStage(v.spots[no].stage, charged))
    ensures OrdersShow(s'.rows, s'.consumed, s'.orders, Moved(v, no, charged))
  {
    assert OrderShows(s.rows, s.consumed, s.orders[no], no, v.users[no], v.spots[no]);
    var next := NextStage(v.spots[no].stage, charged);
    if Open(next) {
      MovedOpen(s.rows, s.consumed, s.orders, v, r, no, charged);
    } else {
      assert s.rows + [] == s.rows;
      MovedOff(s.rows, s.consumed, s.orders, v, r, no, charged);
    }
  }

  lemma MovedOpen(rows: seq<Event>, consumed: set<nat>, orders: OrderStore.Orders, v: Book, r: nat, no: OrderNo,
                  charged: bool)
    requires OrdersShow(rows, consumed, orders, v) && OnItsWay(v, no) && r == v.spots[no].at
    requires Open(NextStage(v.spots[no].stage, charged)) && no in orders
    ensures var next := NextStage(v.spots[no].stage, charged);
            OrdersShow(rows + [Token(no, orders[no], next)], consumed + {r},
                       orders[no := orders[no].(status := StatusOf(next))], Moved(v, no, charged))
  {
    var next := NextStage(v.spots[no].stage, charged);
    assert OrderShows(rows, consumed, orders[no], no, v.users[no], v.spots[no]);
    OthersShow(rows, consumed, orders, v, r, no, [Token(no, orders[no], next)]);
    MovedShowsItself(rows, consumed, orders[no], v, r, no, next);
  }

  lemma MovedOff(rows: seq<Event>, consumed: set<nat>, orders: OrderStore.Orders, v: Book, r: nat, no: OrderNo,
                 charged: bool)
    requires OrdersShow(rows, consumed, orders, v) && OnItsWay(v, no) && r == v.spots[no].at
    requires !Open(NextStage(v.spots[no].stage, charged)) && no in orders
    ensures var next := NextStage(v.spots[no].stage, charged);
            OrdersShow(rows, consumed + {r}, orders[no := orders[no].(status := StatusOf(next))], Moved(v, no, charged))
  {
    assert OrderShows(rows, consumed, orders[no], no, v.users[no], v.spots[no]);
    OthersShow(rows, consumed, orders, v, r, no, []);
    assert rows + [] == rows;
    MovedShowsItself(rows, consumed, orders[no], v, r, no, NextStage(v.spots[no].stage, charged));
  }

  lemma MovedShowsItself(rows: seq<Event>, consumed: set<nat>, o: OrderStore.Order, v: Book, r: nat, no: OrderNo,
                         next: Stage)
    requires no in v.users && o == OneUnit(v.users[no]).(status := o.status) && r < |rows|
    requires forall i | i in consumed :: i < |rows|
    ensures Open(next) ==>
              OrderShows(rows + [Token(no, o, next)], consumed + {r}, o.(status := StatusOf(next)), no, v.users[no],
                         On(next, |rows|))
    ensures OrderShows(rows, consumed, o.(status := StatusOf(next)), no, v.users[no], Off(StatusOf(next)))
  {
  }

  /** Consuming a row of one order and adding rows changes nothing about the others. */
  lemma OthersShow(rows: seq<Event>, consumed: set<nat>, orders: OrderStore.Orders, v: Book, r: nat, no: OrderNo,
                   more: seq<Event>)
    requires OrdersShow(rows, consumed, orders, v) && r < |rows| && rows[r].order == no
    ensures forall n | n in v.spots && n != no ::
              OrderShows(rows + more, consumed + {r}, orders[n], n, v.users[n], v.spots[n])
  {
    forall n | n in v.spots && n != no
      ensures OrderShows(rows + more, consumed + {r}, orders[n], n, v.users[n], v.spots[n])
    {
      assert OrderShows(rows, consumed, orders[n], n, v.users[n], v.spots[n]);
    }
  }

  lemma Waits(s: State, s1: State, v: Book, no: OrderNo)
    requires Shows(s, v) && OnItsWay(v, no)
    requires v.spots[no].stage.Created? ==> v.available >= 1
    requires v.spots[no].stage.Completed? ==> v.locked >= 1
    requires s1 == s.(log := s1.log)
    ensures Waiting(s1, v.spots[no].at, no, v.spots[no].stage)
  {
    assert OrderShows(s.rows, s.consumed, s.orders[no], no, v.users[no], v.spots[no]);
  }

  /** The row of an open order is handled for the first time. */
  lemma Advance(s0: State, steps: seq<Step>, kinds: set<MessageKind>, v: Book, no: OrderNo, charged: bool)
    returns (longer: seq<Step>)
    requires In(s0, steps, kinds, v) && OnItsWay(v, no)
    requires v.spots[no].stage.Created? ==> v.available >= 1
    requires v.spots[no].stage.Completed? ==> v.locked >= 1
    ensures In(s0, longer, kinds, Moved(v, no, charged)) && no in v.users
    ensures RowsAfter(s0, longer) == RowsAfter(s0, steps) + NextRows(v, no, charged)
    ensures |RowsAfter(s0, steps)| == v.count && v.spots[no].at !in ConsumedAfter(s0, steps)
    ensures ConsumedAfter(s0, longer) == ConsumedAfter(s0, steps) + {v.spots[no].at}
  {
    var s, stage, r := After(s0, steps), v.spots[no].stage, v.spots[no].at;
    assert OrderShows(s.rows, s.consumed, s.orders[no], no, v.users[no], v.spots[no]);
    var s1: State, h: nat;
    longer, s1, h := Handle(s0, steps, kinds, r, charged);
    Waits(s, s1, v, no);
    DeliverLeavesKeys(s1, r, h, charged);
    WaitingMoves(s1, r, h, charged, no, stage);
    assert Shows(s1, v);
    MovedShows(s1, Apply(s1, Deliver(r, h, charged)), v, r, h, no, charged);
    DeliveryConsumes(s1, r, h, charged);
  }

  lemma WaitingMoves(s: State, r: nat, h: nat, charged: bool, no: OrderNo, stage: Stage)
    requires Enabled(s, Deliver(r, h, charged)) && Waiting(s, r, no, stage)
    ensures Delivered(s, Apply(s, Deliver(r, h, charged)), r, h, no, stage, charged)
  {
    if stage.Requested? {
      DeliverToPayment(s, r, h, charged, no);
    } else if stage.Reserved? || stage.Charged? {
      DeliverToOrder(s, r, h, charged, no, stage);
    } else {
      DeliverToInventory(s, r, h, charged, no, stage);
    }
  }

  // ---------------------------------------------------------------- messages out of turn

  /** The order is put on a spot, and one row is added. */
  function Put(v: Book, no: OrderNo, spot: Spot): Book {
    v.(spots := v.spots[no := spot], count := v.count + 1)
  }

  lemma PutShows(rows: seq<Event>, consumed: set<nat>, orders: OrderStore.Orders, v: Book, r: nat, no: OrderNo,
                 x: Event, spot: Spot)
    requires OrdersShow(rows, consumed, orders, v) && no in v.spots && r < |rows| && rows[r].order == no
    requires spot.On? ==> Open(spot.stage) && spot.at == |rows| && x == Token(no, OneUnit(v.users[no]), spot.stage)
    ensures OrdersShow(rows + [x], consumed + {r}, orders[no := orders[no].(status := SpotStatus(spot))],
                       Put(v, no, spot))
  {
    OthersShow(rows, consumed, orders, v, r, no, [x]);
    assert OrderShows(rows, consumed, orders[no], no, v.users[no], v.spots[no]);
  }

  /** The status a message for the order service brings, and the row it adds. */
  function Brings(e: Event): OrderStore.Status {
    match e
    case StockDeducted(_, _, _) => OrderStore.AwaitingPayment
    case PaymentSucceeded(_, _) => OrderStore.Paid
    case _ => OrderStore.Cancelled
  }

  function NextRow(e: Event, user: UserId): Event {
    match e
    case StockDeducted(_, _, _) => PaymentRequested(e.order, user, 10.0)
    case PaymentSucceeded(_, _) => OrderCompleted(e.order, 1, 1)
    case _ => OrderCancelled(e.order, user, 1, 1)
  }

  /** Where the message leaves its order: a StockDeducted sets it on its way again. */
  function ReplySpot(e: Event, count: nat): Spot {
    if e.StockDeducted? then On(Requested, count) else Off(Brings(e))
  }

  lemma ReactionPuts(orders: OrderStore.Orders, e: Event, user: UserId)
    requires TopicConsumer(e).OrderService? && e.order in orders && (e.StockDeductFailed? ==> e.product == 1)
    requires orders[e.order] == OneUnit(user).(status := orders[e.order].status)
    ensures OrderStore.React(orders, e).orders == orders[e.order := orders[e.order].(status := Brings(e))]
    ensures OrderStore.React(orders, e).emitted == [NextRow(e, user)]
  {
  }

  /** A message for the order service, in row r, whatever the status of its order. The new row is the last one. */
  lemma Overwrite(s0: State, steps: seq<Step>, kinds: set<MessageKind>, v: Book, r: nat, e: Event)
    returns (longer: seq<Step>)
    requires In(s0, steps, kinds, v) && r < v.count && RowsAfter(s0, steps)[r] == e
    requires TopicConsumer(e).OrderService? && e.order in v.spots && (e.StockDeductFailed? ==> e.product == 1)
    requires r in ConsumedAfter(s0, steps) ==> KindOf(e) in kinds
    ensures In(s0, longer, kinds, Put(v, e.order, ReplySpot(e, v.count)))
    ensures RowsAfter(s0, longer) == RowsAfter(s0, steps) + [NextRow(e, v.users[e.order])]
    ensures ConsumedAfter(s0, longer) == ConsumedAfter(s0, steps) + {r}
  {
    var s, no := After(s0, steps), e.order;
    assert OrderShows(s.rows, s.consumed, s.orders[no], no, v.users[no], v.spots[no]);
    var s1: State, h: nat;
    longer, s1, h := Handle(s0, steps, kinds, r, true);
    DeliverFrame(s1, r, h, true);
    DeliveryConsumes(s1, r, h, true);
    DeliverLeavesKeys(s1, r, h, true);
    OtherMessageLeavesStock(s1, r, h, true);
    ReactionPuts(s.orders, e, v.users[no]);
    PutShows(s.rows, s.consumed, s.orders, v, r, no, NextRow(e, v.users[no]), ReplySpot(e, v.count));
  }

  function ResultRow(no: OrderNo, ok: bool): Event {
    if ok then PaymentSucceeded(no, 10.0) else PaymentFailed(no, 10.0)
  }

  /** A PAYMENT_REQUESTED is handled again. The new row is the last one. */
  lemma ChargeAgain(s0: State, steps: seq<Step>, kinds: set<MessageKind>, v: Book, r: nat, no: OrderNo, ok: bool)
    returns (longer: seq<Step>)
    requires In(s0, steps, kinds, v) && r < v.count && Requests in kinds && no in v.spots && v.spots[no].Off?
    requires RowsAfter(s0, steps)[r] == PaymentRequested(no, v.users[no], 10.0)
    ensures In(s0, longer, kinds, Put(v, no, v.spots[no]))
    ensures RowsAfter(s0, longer) == RowsAfter(s0, steps) + [ResultRow(no, ok)]
    ensures ConsumedAfter(s0, longer) == ConsumedAfter(s0, steps) + {r}
  {
    var s := After(s0, steps);
    var s1: State, h: nat;
    longer, s1, h := Handle(s0, steps, kinds, r, ok);
    PaymentMessageDelivers(s1, r, h, ok);
    ChargedShows(s, After(s0, longer), v, r, no, ok);
  }

  /** What a payment request does, as far as the book is concerned. */
  ghost predicate PaymentMessage(s: State, s': State, r: nat, ok: bool)
    requires r < |s.rows| && s.rows[r].PaymentRequested?
  {
    && s'.rows == s.rows + [if ok then PaymentSucceeded(s.rows[r].order, s.rows[r].amount)
                            else PaymentFailed(s.rows[r].order, s.rows[r].amount)]
    && s'.consumed == s.consumed + {r} && s'.orders == s.orders
    && s'.inventory == s.inventory && s'.stock == s.stock && s'.keys == s.keys
  }

  lemma PaymentMessageDelivers(s: State, r: nat, h: nat, ok: bool)
    requires Enabled(s, Deliver(r, h, ok)) && s.rows[r].PaymentRequested?
    ensures PaymentMessage(s, Apply(s, Deliver(r, h, ok)), r, ok)
  {
    DeliverFrame(s, r, h, ok);
    DeliveryConsumes(s, r, h, ok);
    DeliverLeavesKeys(s, r, h, ok);
    OtherMessageLeavesStock(s, r, h, ok);
  }

  lemma ChargedShows(s: State, s': State, v: Book, r: nat, no: OrderNo, ok: bool)
    requires Shows(s, v) && r < |s.rows| && no in v.spots && v.spots[no].Off?
    requires s.rows[r] == PaymentRequested(no, v.users[no], 10.0) && PaymentMessage(s, s', r, ok)
    ensures Shows(s', Put(v, no, v.spots[no]))
  {
    assert OrderShows(s.rows, s.consumed, s.orders[no], no, v.users[no], v.spots[no]);
    PutShows(s.rows, s.consumed, s.orders, v, r, no, ResultRow(no, ok), v.spots[no]);
    assert s.orders[no := s.orders[no].(status := SpotStatus(v.spots[no]))] == s.orders;
  }

  /** What a message for the inventory does. */
  ghost predicate StockMessage(s: State, s': State, r: nat)
    requires r < |s.rows|
  {
    var reaction := InventoryStore.React(s.inventory, s.rows[r]);
    && s'.rows == s.rows + reaction.emitted && s'.consumed == s.consumed + {r} && s'.orders == s.orders
    && s'.inventory == reaction.stock && s'.stock == s.stock && s'.keys == s.keys
  }

  lemma StockMessageDelivers(s: State, r: nat, h: nat)
    requires Enabled(s, Deliver(r, h, true)) && TopicConsumer(s.rows[r]).InventoryService?
    ensures StockMessage(s, Apply(s, Deliver(r, h, true)), r)
  {
    DeliverFrame(s, r, h, true);
    DeliveryConsumes(s, r, h, true);
    DeliverLeavesKeys(s, r, h, true);
    InventoryAfterDelivery(s, r, h, true);
  }

  /** An ORDER_CREATED finds no unit left. The new row is the last one. */
  lemma RunOut(s0: State, steps: seq<Step>, kinds: set<MessageKind>, v: Book, r: nat, no: OrderNo)
    returns (longer: seq<Step>)
    requires In(s0, steps, kinds, v) && r < v.count && no in v.spots && SpotStatus(v.spots[no]).Pending?
    requires RowsAfter(s0, steps)[r] == OrderCreated(no, v.users[no], 1, 1, 10.0) && v.available < 1
    requires r in ConsumedAfter(s0, steps) ==> Creations in kinds
    ensures In(s0, longer, kinds, Put(v, no, Off(OrderStore.Pending)))
    ensures RowsAfter(s0, longer) == RowsAfter(s0, steps) + [StockDeductFailed(no, 1)]
    ensures ConsumedAfter(s0, longer) == ConsumedAfter(s0, steps) + {r}
  {
    var s := After(s0, steps);
    var s1: State, h: nat;
    longer, s1, h := Handle(s0, steps, kinds, r, true);
    StockMessageDelivers(s1, r, h);
    RunOutShows(s, After(s0, longer), v, r, no);
  }

  lemma RunOutShows(s: State, s': State, v: Book, r: nat, no: OrderNo)
    requires Shows(s, v) && r < |s.rows| && no in v.spots && SpotStatus(v.spots[no]).Pending? && v.available < 1
    requires s.rows[r] == OrderCreated(no, v.users[no], 1, 1, 10.0) && StockMessage(s, s', r)
    ensures Shows(s', Put(v, no, Off(OrderStore.Pending))) && s'.rows == s.rows + [StockDeductFailed(no, 1)]
  {
    assert OrderShows(s.rows, s.consumed, s.orders[no], no, v.users[no], v.spots[no]);
    PutShows(s.rows, s.consumed, s.orders, v, r, no, StockDeductFailed(no, 1), Off(OrderStore.Pending));
    assert s.orders[no := s.orders[no].(status := OrderStore.Pending)] == s.orders;
  }

  /** The book after an ORDER_CREATED has locked one more unit, whether or not it has done so before. */
  function LockedAgain(v: Book, no: OrderNo): Book {
    Put(v, no, On(Reserved, v.count)).(available := v.available - 1, locked := v.locked + 1)
  }

  lemma LockAgain(s0: State, steps: seq<Step>, kinds: set<MessageKind>, v: Book, r: nat, no: OrderNo)
    returns (longer: seq<Step>)
    requires In(s0, steps, kinds, v) && r < v.count && no in v.spots && SpotStatus(v.spots[no]).Pending?
    requires RowsAfter(s0, steps)[r] == OrderCreated(no, v.users[no], 1, 1, 10.0) && v.available >= 1
    requires r in ConsumedAfter(s0, steps) ==> Creations in kinds
    ensures In(s0, longer, kinds, LockedAgain(v, no))
    ensures RowsAfter(s0, longer) == RowsAfter(s0, steps) + [StockDeducted(no, 1, 1)]
    ensures ConsumedAfter(s0, longer) == ConsumedAfter(s0, steps) + {r}
  {
    var s := After(s0, steps);
    var s1: State, h: nat;
    longer, s1, h := Handle(s0, steps, kinds, r, true);
    StockMessageDelivers(s1, r, h);
    LockedAgainShows(s, After(s0, longer), v, r, no);
  }

  lemma LockedAgainShows(s: State, s': State, v: Book, r: nat, no: OrderNo)
    requires Shows(s, v) && r < |s.rows| && no in v.spots && SpotStatus(v.spots[no]).Pending? && v.available >= 1
    requires s.rows[r] == OrderCreated(no, v.users[no], 1, 1, 10.0) && StockMessage(s, s', r)
    ensures Shows(s', LockedAgain(v, no)) && s'.rows == s.rows + [StockDeducted(no, 1, 1)]
  {
    assert OrderShows(s.rows, s.consumed, s.orders[no], no, v.users[no], v.spots[no]);
    PutShows(s.rows, s.consumed, s.orders, v, r, no, StockDeducted(no, 1, 1), On(Reserved, v.count));
    assert s.orders[no := s.orders[no].(status := OrderStore.Pending)] == s.orders;
  }

  /** Where the order is after a row of it has been handled that adds no row. */
  function Leave(v: Book, no: OrderNo): Book
    requires no in v.spots
  {
    v.(spots := v.spots[no := Off(SpotStatus(v.spots[no]))])
  }

  lemma LeaveShows(rows: seq<Event>, consumed: set<nat>, orders: OrderStore.Orders, v: Book, r: nat, no: OrderNo)
    requires OrdersShow(rows, consumed, orders, v) && no in v.spots && r < |rows| && rows[r].order == no
    ensures OrdersShow(rows, consumed + {r}, orders, Leave(v, no))
  {
    OthersShow(rows, consumed, orders, v, r, no, []);
    assert rows + [] == rows;
    assert OrderShows(rows, consumed, orders[no], no, v.users[no], v.spots[no]);
  }

  /** An ORDER_COMPLETED is handled, perhaps again: a locked unit is gone. */
  lemma Complete(s0: State, steps: seq<Step>, kinds: set<MessageKind>, v: Book, r: nat, no: OrderNo)
    returns (longer: seq<Step>)
    requires In(s0, steps, kinds, v) && r < v.count && no in v.spots && v.locked >= 1
    requires RowsAfter(s0, steps)[r] == OrderCompleted(no, 1, 1)
    requires r in ConsumedAfter(s0, steps) ==> Completions in kinds
    ensures In(s0, longer, kinds, Leave(v, no).(locked := v.locked - 1))
    ensures RowsAfter(s0, longer) == RowsAfter(s0, steps)
    ensures ConsumedAfter(s0, longer) == ConsumedAfter(s0, steps) + {r}
  {
    var s := After(s0, steps);
    var s1: State, h: nat;
    longer, s1, h := Handle(s0, steps, kinds, r, true);
    StockMessageDelivers(s1, r, h);
    assert s.rows + [] == s.rows;
    LeaveShows(s.rows, s.consumed, s.orders, v, r, no);
  }

  /** The book after an ORDER_CANCELLED has been handled: a unit is returned if any is locked, and Redis gets one
      anyway. */
  function GivenBack(v: Book, no: OrderNo): Book
    requires no in v.spots
  {
    var moved := if v.locked >= 1 then 1 else 0;
    Leave(v, no).(redis := v.redis + 1, available := v.available + moved, locked := v.locked - moved)
  }

  lemma GiveBack(s0: State, steps: seq<Step>, kinds: set<MessageKind>, v: Book, r: nat, no: OrderNo)
    returns (longer: seq<Step>)
    requires In(s0, steps, kinds, v) && r < v.count && no in v.spots
    requires RowsAfter(s0, steps)[r] == OrderCancelled(no, v.users[no], 1, 1)
    requires r in ConsumedAfter(s0, steps) ==> Cancellations in kinds
    ensures In(s0, longer, kinds, GivenBack(v, no))
    ensures RowsAfter(s0, longer) == RowsAfter(s0, steps)
    ensures ConsumedAfter(s0, longer) == ConsumedAfter(s0, steps) + {r}
  {
    var s := After(s0, steps);
    var s1: State, h: nat;
    longer, s1, h := Handle(s0, steps, kinds, r, true);
    var s2 := Apply(s1, Deliver(r, h, true));
    StockMessageDelivers(s1, r, h);
    RestoreAfterDelivery(s1, r, h, true);
    RestoreRestores(s2, h, v.redis, no, v.users[no]);
    longer := TakeStep(s0, longer, kinds, Continue(h, true), Apply(s2, Continue(h, true)));
    GivenBackShows(s, s2, After(s0, longer), v, r, no);
  }

  ghost predicate Restores(s: State, s': State, redis: int) {
    && s'.rows == s.rows && s'.consumed == s.consumed && s'.orders == s.orders && s'.inventory == s.inventory
    && s'.keys == s.keys && s'.stock == map[1 := redis + 1]
  }

  lemma GivenBackShows(s: State, s2: State, s3: State, v: Book, r: nat, no: OrderNo)
    requires Shows(s, v) && r < |s.rows| && no in v.spots && s.rows[r] == OrderCancelled(no, v.users[no], 1, 1)
    requires StockMessage(s, s2, r) && Restores(s2, s3, v.redis)
    ensures Shows(s3, GivenBack(v, no)) && s3.rows == s.rows && s3.consumed == s.consumed + {r}
  {
    LeaveShows(s.rows, s.consumed, s.orders, v, r, no);
    ReturnReaction(s.inventory, s.rows[r]);
    assert s.rows + [] == s.rows;
  }

  lemma ReturnReaction(stock: InventoryStore.Stock, e: Event)
    requires e.OrderCancelled? && e.product == 1 && e.quantity == 1 && 1 in stock
    ensures var stock' := InventoryStore.React(stock, e).stock;
            var moved := if stock[1].locked >= 1 then 1 else 0;
            && InventoryStore.React(stock, e).emitted == [] && 1 in stock'
            && stock'[1].available == stock[1].available + moved && stock'[1].locked == stock[1].locked - moved
  {
  }

  lemma RestoreRestores(s: State, h: nat, redis: int, no: OrderNo, user: UserId)
    requires h in s.handlers && s.handlers[h] == RestoreRedis(no, user, 1, 1) && s.stock == map[1 := redis]
    ensures Restores(s, Apply(s, Continue(h, true)), redis)
  {
    RestoreSettles(s, h, true);
    ContinueLeavesRows(s, h, true);
    RestoreLeavesKeys(s, h);
    assert AddStock(s.stock, 1, 1) == map[1 := redis + 1];
  }

  lemma RestoreLeavesKeys(s: State, h: nat)
    requires h in s.handlers && s.handlers[h].RestoreRedis?
    ensures Apply(s, Continue(h, true)).keys == s.keys
  {
  }

  // ---------------------------------------------------------------- scripts

  /** What a script needs to know of a state: the book, the outbox rows, and which of them have been handled. */
  datatype Scene = Scene(v: Book, rows: seq<Event>, consumed: set<nat>)

  /** One move of a script. A move is a purchase, or the handling of a row. */
  datatype Move =
    | Purchase(user: UserId, no: OrderNo)
    | Next(no: OrderNo, charged: bool)  // the row that carries an order on
    | Reply(r: nat)                     // a row for the order service, whatever the status of its order
    | Recharge(r: nat, ok: bool)        // a PAYMENT_REQUESTED again
    | Creation(r: nat)                  // an ORDER_CREATED that finds a unit
    | Shortage(r: nat)                  // an ORDER_CREATED that finds no unit
    | Completion(r: nat)                // an ORDER_COMPLETED that finds a locked unit
    | Cancellation(r: nat)              // an ORDER_CANCELLED, and its increment of Redis

  predicate RowIs(scene: Scene, r: nat, kinds: set<MessageKind>) {
    && r < |scene.rows| && (r in scene.consumed ==> KindOf(scene.rows[r]) in kinds)
    && scene.rows[r].order in scene.v.spots && scene.rows[r].order in scene.v.users
  }

  predicate CanPlay(scene: Scene, m: Move, kinds: set<MessageKind>) {
    var v := scene.v;
    match m
    case Purchase(user, no) => v.redis >= 1 && user !in v.users.Values && no !in v.users && no !in v.spots
    case Next(no, _) =>
      && OnItsWay(v, no) && no in v.users
      && (v.spots[no].stage.Created? ==> v.available >= 1) && (v.spots[no].stage.Completed? ==> v.locked >= 1)
    case Reply(r) =>
      && RowIs(scene, r, kinds) && TopicConsumer(scene.rows[r]).OrderService?
      && (scene.rows[r].StockDeductFailed? ==> scene.rows[r].product == 1)
    case Recharge(r, _) =>
      && RowIs(scene, r, kinds) && Requests in kinds && v.spots[scene.rows[r].order].Off?
      && scene.rows[r] == PaymentRequested(scene.rows[r].order, v.users[scene.rows[r].order], 10.0)
    case Creation(r) =>
      && RowIs(scene, r, kinds) && SpotStatus(v.spots[scene.rows[r].order]).Pending? && v.available >= 1
      && scene.rows[r] == OrderCreated(scene.rows[r].order, v.users[scene.rows[r].order], 1, 1, 10.0)
    case Shortage(r) =>
      && RowIs(scene, r, kinds) && SpotStatus(v.spots[scene.rows[r].order]).Pending? && v.available < 1
      && scene.rows[r] == OrderCreated(scene.rows[r].order, v.users[scene.rows[r].order], 1, 1, 10.0)
    case Completion(r) =>
      RowIs(scene, r, kinds) && v.locked >= 1 && scene.rows[r] == OrderCompleted(scene.rows[r].order, 1, 1)
    case Cancellation(r) =>
      && RowIs(scene, r, kinds)
      && scene.rows[r] == OrderCancelled(scene.rows[r].order, v.users[scene.rows[r].order], 1, 1)
  }

  function Play(scene: Scene, m: Move, kinds: set<MessageKind>): Scene
    requires CanPlay(scene, m, kinds)
  {
    var v, rows, consumed := scene.v, scene.rows, scene.consumed;
    match m
    case Purchase(user, no) => Scene(Bought(v, user, no), rows + [OrderCreated(no, user, 1, 1, 10.0)], consumed)
    case Next(no, charged) =>
      Scene(Moved(v, no, charged), rows + NextRows(v, no, charged), consumed + {v.spots[no].at})
    case Reply(r) =>
      var e := rows[r];
      Scene(Put(v, e.order, ReplySpot(e, v.count)), rows + [NextRow(e, v.users[e.order])], consumed + {r})
    case Recharge(r, ok) =>
      var no := rows[r].order;
      Scene(Put(v, no, v.spots[no]), rows + [ResultRow(no, ok)], consumed + {r})
    case Creation(r) =>
      Scene(LockedAgain(v, rows[r].order), rows + [StockDeducted(rows[r].order, 1, 1)], consumed + {r})
    case Shortage(r) =>
      var no := rows[r].order;
      Scene(Put(v, no, Off(OrderStore.Pending)), rows + [StockDeductFailed(no, 1)], consumed + {r})
    case Completion(r) => Scene(Leave(v, rows[r].order).(locked := v.locked - 1), rows, consumed + {r})
    case Cancellation(r) => Scene(GivenBack(v, rows[r].order), rows, consumed + {r})
  }

  ghost predicate At(s0: State, steps: seq<Step>, kinds: set<MessageKind>, scene: Scene) {
    && In(s0, steps, kinds, scene.v)
    && RowsAfter(s0, steps) == scene.rows && ConsumedAfter(s0, steps) == scene.consumed
  }

  lemma OneMove(s0: State, steps: seq<Step>, kinds: set<MessageKind>, scene: Scene, m: Move)
    returns (longer: seq<Step>)
    requires At(s0, steps, kinds, scene) && CanPlay(scene, m, kinds)
    ensures At(s0, longer, kinds, Play(scene, m, kinds))
  {
    var v, rows := scene.v, scene.rows;
    match m {
      case Purchase(user, no) => longer := Buy(s0, steps, kinds, v, user, no);
      case Next(no, charged) => longer := Advance(s0, steps, kinds, v, no, charged);
      case Reply(r) => longer := Overwrite(s0, steps, kinds, v, r, rows[r]);
      case Recharge(r, ok) => longer := ChargeAgain(s0, steps, kinds, v, r, rows[r].order, ok);
      case Creation(r) => longer := LockAgain(s0, steps, kinds, v, r, rows[r].order);
      case Shortage(r) => longer := RunOut(s0, steps, kinds, v, r, rows[r].order);
      case Completion(r) => longer := Complete(s0, steps, kinds, v, r, rows[r].order);
      case Cancellation(r) => longer := GiveBack(s0, steps, kinds, v, r, rows[r].order);
    }
  }

  function Opening(units: nat): Scene {
    Scene(Book(units, units, 0, 0, map[], map[]), [], {})
  }

  /** A script with the scenes it passes through. */
  ghost predicate Script(kinds: set<MessageKind>, scenes: seq<Scene>, moves: seq<Move>) {
    && |scenes| == |moves| + 1
    && forall i {:trigger moves[i]} | 0 <= i < |moves| ::
         CanPlay(scenes[i], moves[i], kinds) && scenes[i + 1] == Play(scenes[i], moves[i], kinds)
  }

  /** The scene can be played to from the first one. */
  ghost predicate Playable(first: Scene, kinds: set<MessageKind>, scene: Scene) {
    exists scenes, moves :: Script(kinds, scenes, moves) && scenes[0] == first && scenes[|moves|] == scene
  }

  lemma Begins(first: Scene, kinds: set<MessageKind>)
    ensures Playable(first, kinds, first)
  {
    var scenes, moves := [first], [];
    assert Script(kinds, scenes, moves) && scenes[0] == first && scenes[|moves|] == first;
  }

  /** One more move. */
  lemma Go(first: Scene, kinds: set<MessageKind>, scene: Scene, m: Move) returns (next: Scene)
    requires Playable(first, kinds, scene) && CanPlay(scene, m, kinds)
    ensures Playable(first, kinds, next) && next == Play(scene, m, kinds)
  {
    var scenes, moves :| Script(kinds, scenes, moves) && scenes[0] == first && scenes[|moves|] == scene;
    next := Play(scene, m, kinds);
    ScriptGrows(kinds, scenes, moves, m, next);
    assert (scenes + [next])[0] == first && (scenes + [next])[|moves + [m]|] == next;
  }

  lemma ScriptGrows(kinds: set<MessageKind>, scenes: seq<Scene>, moves: seq<Move>, m: Move, next: Scene)
    requires Script(kinds, scenes, moves) && CanPlay(scenes[|moves|], m, kinds)
    requires next == Play(scenes[|moves|], m, kinds)
    ensures Script(kinds, scenes + [next], moves + [m])
  {
    forall i | 0 <= i < |moves + [m]|
      ensures CanPlay((scenes + [next])[i], (moves + [m])[i], kinds)
      ensures (scenes + [next])[i + 1] == Play((scenes + [next])[i], (moves + [m])[i], kinds)
    {
      if i < |moves| {
        assert (moves + [m])[i] == moves[i];
      }
    }
  }

  lemma ScriptPrefix(kinds: set<MessageKind>, scenes: seq<Scene>, moves: seq<Move>)
    requires Script(kinds, scenes, moves) && moves != []
    ensures Script(kinds, scenes[..|moves|], moves[..|moves| - 1])
  {
    var n := |moves| - 1;
    assert forall i | 0 <= i < n :: moves[..n][i] == moves[i];
  }

  /** The scene shows the state. */
  ghost predicate Opens(s0: State, scene: Scene) {
    Shows(s0, scene.v) && s0.rows == scene.rows && s0.consumed == scene.consumed
  }

  /** From a state that its first scene shows, every script is a run. */
  lemma {:induction false} Perform(s0: State, kinds: set<MessageKind>, scenes: seq<Scene>, moves: seq<Move>)
    returns (steps: seq<Step>)
    requires Script(kinds, scenes, moves) && Opens(s0, scenes[0])
    ensures At(s0, steps, kinds, scenes[|moves|])
    decreases |moves|
  {
    if moves == [] {
      steps := [];
    } else {
      var n := |moves| - 1;
      ScriptPrefix(kinds, scenes, moves);
      steps := Perform(s0, kinds, scenes[..n + 1], moves[..n]);
      assert CanPlay(scenes[n], moves[n], kinds);
      steps := OneMove(s0, steps, kinds, scenes[n], moves[n]);
    }
  }

  lemma Act(s0: State, kinds: set<MessageKind>, first: Scene, scene: Scene) returns (steps: seq<Step>)
    requires Opens(s0, first) && Playable(first, kinds, scene)
    ensures At(s0, steps, kinds, scene)
  {
    var scenes, moves :| Script(kinds, scenes, moves) && scenes[0] == first && scenes[|moves|] == scene;
    steps := Perform(s0, kinds, scenes, moves);
  }

  lemma ShopOpens(units: nat)
    ensures Opens(Shop(units), Opening(units))
  {
  }
}

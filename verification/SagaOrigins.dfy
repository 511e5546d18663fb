/** Where orders and amounts come from, in any run, however messages are delivered: an order is what its buyer asked for
    at the price the product service told its call, every message repeats its order faithfully, and that price times
    that quantity is what is charged. */
module SagaOrigins {
  import opened Events
  import opened SagaProtocol
  import opened SagaInvariant
  import opened SagaAnyDelivery
  import opened SagaTrails
  import opened SagaPolls
  import OrderStore
  import InventoryStore

  // ---------------------------------------------------------------- what calls are told

  /** The price the product service has told the call. */
  function PriceTold(steps: seq<Step>, c: nat): Option<Money> {
    if steps == [] then None
    else
      match Last(steps)
      case QueryProduct(d, OnSale(price)) => if d == c then Some(price) else PriceTold(Front(steps), c)
      case _ => PriceTold(Front(steps), c)
  }

  /** The order is what was asked for, at the price told. */
  predicate AskedFor(o: OrderStore.Order, user: UserId, product: ProductId, quantity: int, price: Option<Money>) {
    && o.user == user && o.product == product && o.quantity == quantity
    && price.Some? && o.total == price.value * quantity as real
  }

  /** The call was begun with what it still holds; a price it goes on with is the one it was told, and an order it has
      created is what it was asked for. */
  ghost predicate Grounded(steps: seq<Step>, orders: OrderStore.Orders, c: nat, call: Call) {
    && Begin(c, call.user, call.product, call.quantity) in steps
    && (call.pc.TryLock? || call.pc.CheckDatabase? || call.pc.CheckProduct? ==> PriceTold(steps, c).None?)
    && (call.pc.DeductRedis? || call.pc.CreateOrder? ==> PriceTold(steps, c) == Some(call.pc.price))
    && (Served(call).Some? ==>
          var no := Served(call).value;
          && Transact(c, no, false) in steps && no in orders
          && AskedFor(orders[no], call.user, call.product, call.quantity, PriceTold(steps, c)))
  }

  ghost predicate AllGrounded(steps: seq<Step>, orders: OrderStore.Orders, calls: map<nat, Call>) {
    && (forall c | c in calls :: Grounded(steps, orders, c, calls[c]))
    && (forall c: nat | c !in calls :: PriceTold(steps, c).None?)
  }

  /** A call that the step is not about stays grounded, as long as orders only change their statuses. */
  lemma OthersStayGrounded(steps: seq<Step>, orders: OrderStore.Orders, c: nat, call: Call, orders': OrderStore.Orders)
    requires steps != [] && Grounded(Front(steps), orders, c, call) && PriceTold(steps, c) == PriceTold(Front(steps), c)
    requires forall no | no in orders :: no in orders' && orders'[no] == orders[no].(status := orders'[no].status)
    ensures Grounded(steps, orders', c, call)
  {
    assert forall x | x in Front(steps) :: x in steps;
  }

  /** Orders are never lost, and only their statuses change. */
  lemma StepKeepsOrders(s: State, step: Step)
    requires Enabled(s, step)
    ensures var orders := Apply(s, step).orders;
            forall no | no in s.orders :: no in orders && orders[no] == s.orders[no].(status := orders[no].status)
  {
    if step.Deliver? {
      DeliverKeepsOrders(s, step.row, step.handler, step.charged);
    } else if step.Transact? {
      TransactKeepsOrders(s, step.call, step.order, step.failed);
    } else {
      OthersLeaveOrders(s, step);
    }
  }

  lemma TransactKeepsOrders(s: State, c: nat, no: OrderNo, failed: bool)
    requires Enabled(s, Transact(c, no, failed))
    ensures var orders := Apply(s, Transact(c, no, failed)).orders;
            forall n | n in s.orders :: n in orders && orders[n] == s.orders[n]
  {
  }

  lemma CallMoves(s: State, step: Step)
    requires Enabled(s, step) && (CallStep(step) || step.Transact?)
    ensures var s' := Apply(s, step);
            step.call in s'.calls && s'.calls == s.calls[step.call := s'.calls[step.call]]
  {
  }

  predicate BeforeLookup(pc: Pc) {
    pc.TryLock? || pc.CheckDatabase? || pc.CheckProduct?
  }

  predicate Priced(pc: Pc) {
    pc.DeductRedis? || pc.CreateOrder?
  }

  /** A call keeps what it was asked for, learns a price from the product service only, and keeps it. */
  lemma CallStepTold(s: State, step: Step)
    requires Enabled(s, step) && CallStep(step) && step.call in Apply(s, step).calls
    ensures var c, call' := step.call, Apply(s, step).calls[step.call];
            && (c !in s.calls ==> step == Begin(c, call'.user, call'.product, call'.quantity) && call'.pc.TryLock?)
            && (c in s.calls ==> !step.Begin? && call' == s.calls[c].(pc := call'.pc))
            && (BeforeLookup(call'.pc) ==> !step.QueryProduct? && (c in s.calls ==> BeforeLookup(s.calls[c].pc)))
            && (Priced(call'.pc) ==>
                  if step.QueryProduct? then step.lookup == OnSale(call'.pc.price)
                  else c in s.calls && Priced(s.calls[c].pc) && s.calls[c].pc.price == call'.pc.price)
            && (step.QueryProduct? ==> c in s.calls && s.calls[c].pc.CheckProduct?)
  {
  }

  /** The call's own step keeps it grounded. */
  lemma OwnStepGrounds(s: State, steps: seq<Step>)
    requires steps != [] && Enabled(s, Last(steps)) && CallStep(Last(steps))
    requires AllGrounded(Front(steps), s.orders, s.calls)
    ensures var s', c := Apply(s, Last(steps)), Last(steps).call;
            c in s'.calls && Grounded(steps, s'.orders, c, s'.calls[c])
  {
    var step := Last(steps);
    CallStepServes(s, step);
    CallStepTold(s, step);
    Remembered(steps);
    OwnCallGrounded(steps, s.orders, s.calls, Apply(s, step).calls[step.call]);
  }

  lemma Remembered(steps: seq<Step>)
    requires steps != []
    ensures Last(steps) in steps && forall x | x in Front(steps) :: x in steps
  {
    assert steps == Front(steps) + [Last(steps)];
  }

  lemma OwnCallGrounded(steps: seq<Step>, orders: OrderStore.Orders, calls: map<nat, Call>, call': Call)
    requires steps != [] && CallStep(Last(steps)) && AllGrounded(Front(steps), orders, calls)
    requires Last(steps) in steps && forall x | x in Front(steps) :: x in steps
    requires var step := Last(steps);
             var c := step.call;
             && Served(call') == (if c in calls then Served(calls[c]) else None)
             && (c !in calls ==> step == Begin(c, call'.user, call'.product, call'.quantity) && call'.pc.TryLock?)
             && (c in calls ==> !step.Begin? && call' == calls[c].(pc := call'.pc))
             && (BeforeLookup(call'.pc) ==> !step.QueryProduct? && (c in calls ==> BeforeLookup(calls[c].pc)))
             && (Priced(call'.pc) ==>
                   if step.QueryProduct? then step.lookup == OnSale(call'.pc.price)
                   else c in calls && Priced(calls[c].pc) && calls[c].pc.price == call'.pc.price)
             && (step.QueryProduct? ==> c in calls && calls[c].pc.CheckProduct?)
    ensures Grounded(steps, orders, Last(steps).call, call')
  {
    var c := Last(steps).call;
    if c in calls {
      assert Grounded(Front(steps), orders, c, calls[c]);
    }
  }

  lemma TransactGrounds(s: State, steps: seq<Step>)
    requires steps != [] && Enabled(s, Last(steps)) && Last(steps).Transact?
    requires AllGrounded(Front(steps), s.orders, s.calls)
    ensures var s', c := Apply(s, Last(steps)), Last(steps).call;
            c in s'.calls && Grounded(steps, s'.orders, c, s'.calls[c])
  {
    var step := Last(steps);
    var c := step.call;
    Remembered(steps);
    assert Grounded(Front(steps), s.orders, c, s.calls[c]);
    TransactTold(s, c, step.order, step.failed);
  }

  /** A transaction creates the order with the price of its call, or leaves the call with nothing. */
  lemma TransactTold(s: State, c: nat, no: OrderNo, failed: bool)
    requires Enabled(s, Transact(c, no, failed))
    ensures var s', call := Apply(s, Transact(c, no, failed)), s.calls[c];
            && c in s'.calls && s'.calls[c] == call.(pc := s'.calls[c].pc)
            && (s'.calls[c].pc.RollBackRedis?
                || (!failed && s'.calls[c].pc == WritePending(no) && no in s'.orders
                    && AskedFor(s'.orders[no], call.user, call.product, call.quantity, Some(call.pc.price))))
  {
  }

  lemma StepGrounds(s: State, steps: seq<Step>)
    requires steps != [] && Enabled(s, Last(steps)) && AllGrounded(Front(steps), s.orders, s.calls)
    ensures AllGrounded(steps, Apply(s, Last(steps)).orders, Apply(s, Last(steps)).calls)
  {
    var step := Last(steps);
    var s' := Apply(s, step);
    StepKeepsOrders(s, step);
    if CallStep(step) || step.Transact? {
      CallMoves(s, step);
      if CallStep(step) {
        OwnStepGrounds(s, steps);
      } else {
        TransactGrounds(s, steps);
      }
    } else {
      OthersLeaveCalls(s, step);
    }
    forall c | c in s'.calls ensures Grounded(steps, s'.orders, c, s'.calls[c]) {
      if !((CallStep(step) || step.Transact?) && step.call == c) {
        assert Grounded(Front(steps), s.orders, c, s.calls[c]);
        OthersStayGrounded(steps, s.orders, c, s.calls[c], s'.orders);
      }
    }
  }

  lemma {:induction false} RunGrounds(s0: State, steps: seq<Step>)
    requires Init(s0) && Runs(s0, steps)
    ensures AllGrounded(steps, After(s0, steps).orders, After(s0, steps).calls)
    decreases |steps|
  {
    if steps != [] {
      LastStep(s0, steps);
      RunGrounds(s0, Front(steps));
      StepGrounds(After(s0, Front(steps)), steps);
    }
  }

  /** In any run, each order has one call, whose transaction created it: it is what that call was begun with, and its
      total is the price the product service told that call, times the quantity. */
  lemma OrdersAreAskedFor(s0: State, steps: seq<Step>, no: OrderNo) returns (c: nat)
    requires Init(s0) && Runs(s0, steps) && no in After(s0, steps).orders
    ensures var s := After(s0, steps);
            var o := s.orders[no];
            && c in s.calls && Served(s.calls[c]) == Some(no)
            && Begin(c, o.user, o.product, o.quantity) in steps && Transact(c, no, false) in steps
            && PriceTold(steps, c).Some? && o.total == PriceTold(steps, c).value * o.quantity as real
    ensures forall d | d in After(s0, steps).calls && Served(After(s0, steps).calls[d]) == Some(no) :: d == c
  {
    OneCallPerOrder(s0, steps);
    RunGrounds(s0, steps);
    c := ServingCall(After(s0, steps).orders, After(s0, steps).calls, no);
    assert Grounded(steps, After(s0, steps).orders, c, After(s0, steps).calls[c]);
  }

  lemma ServingCall(orders: OrderStore.Orders, calls: map<nat, Call>, no: OrderNo) returns (c: nat)
    requires OneCallEach(orders, calls) && no in orders
    ensures c in calls && Served(calls[c]) == Some(no)
    ensures forall d | d in calls && Served(calls[d]) == Some(no) :: d == c
  {
    c :| c in calls && Served(calls[c]) == Some(no);
  }

  // ---------------------------------------------------------------- what messages say

  /** The message says of its order what the order says of itself. */
  predicate SpeaksTruly(e: Event, orders: OrderStore.Orders) {
    e.order in orders &&
    var o := orders[e.order];
    match e
    case OrderCreated(_, user, product, quantity, total) =>
      user == o.user && product == o.product && quantity == o.quantity && total == o.total
    case PaymentRequested(_, user, amount) => user == o.user && amount == o.total
    case OrderCompleted(_, product, quantity) => product == o.product && quantity == o.quantity
    case OrderCancelled(_, user, product, quantity) => user == o.user && product == o.product && quantity == o.quantity
    case StockDeducted(_, product, quantity) => product == o.product && quantity == o.quantity
    case StockDeductFailed(_, product) => product == o.product
    case PaymentSucceeded(_, amount) => amount == o.total
    case PaymentFailed(_, amount) => amount == o.total
  }

  /** The payment is the order's user's, over its total. */
  predicate ChargesTruly(pay: Payment, orders: OrderStore.Orders) {
    pay.order in orders && pay.user == orders[pay.order].user && pay.amount == orders[pay.order].total
  }

  ghost predicate AllTrue(rows: seq<Event>, payments: seq<Payment>, orders: OrderStore.Orders) {
    && (forall r | 0 <= r < |rows| :: SpeaksTruly(rows[r], orders))
    && (forall i | 0 <= i < |payments| :: ChargesTruly(payments[i], orders))
  }

  lemma StaysTrue(rows: seq<Event>, payments: seq<Payment>, orders: OrderStore.Orders, orders': OrderStore.Orders)
    requires AllTrue(rows, payments, orders)
    requires forall no | no in orders :: no in orders' && orders'[no] == orders[no].(status := orders'[no].status)
    ensures AllTrue(rows, payments, orders')
  {
    forall r | 0 <= r < |rows| ensures SpeaksTruly(rows[r], orders') {
      assert SpeaksTruly(rows[r], orders);
    }
    forall i | 0 <= i < |payments| ensures ChargesTruly(payments[i], orders') {
      assert ChargesTruly(payments[i], orders);
    }
  }

  /** A handler repeats what it was told. */
  lemma RepliesAreTrue(s: State, e: Event, charged: bool)
    requires SpeaksTruly(e, s.orders)
    ensures forall x | x in Emitted(s, e, charged) :: SpeaksTruly(x, s.orders)
  {
  }

  lemma DeliveryIsTrue(s: State, r: nat, h: nat, charged: bool)
    requires Enabled(s, Deliver(r, h, charged)) && AllTrue(s.rows, s.payments, s.orders)
    ensures var s' := Apply(s, Deliver(r, h, charged)); AllTrue(s'.rows, s'.payments, s'.orders)
  {
    var e, s' := s.rows[r], Apply(s, Deliver(r, h, charged));
    DeliverFrame(s, r, h, charged);
    PaymentsAfterDelivery(s, r, h, charged);
    RepliesAreTrue(s, e, charged);
    assert AllTrue(s'.rows, s'.payments, s.orders);
    StepKeepsOrders(s, Deliver(r, h, charged));
    StaysTrue(s'.rows, s'.payments, s.orders, s'.orders);
  }

  lemma StepIsTrue(s: State, step: Step)
    requires Enabled(s, step) && AllTrue(s.rows, s.payments, s.orders)
    ensures var s' := Apply(s, step); AllTrue(s'.rows, s'.payments, s'.orders)
  {
    if step.Deliver? {
      DeliveryIsTrue(s, step.row, step.handler, step.charged);
    } else if step.Transact? && Commits(s, s.calls[step.call], step.order, step.failed) {
      assert step == Transact(step.call, step.order, false);
      CommitEffect(s, step.call, step.order);
      StepKeepsOrders(s, step);
      StaysTrue(s.rows, s.payments, s.orders, Apply(s, step).orders);
    } else {
      OthersLeaveOrders(s, step);
    }
  }

  /** In any run, every message says of its order what the order says of itself, and every payment is over the order's
      total, by its user. */
  lemma {:induction false} MessagesAreTrue(s0: State, steps: seq<Step>)
    requires Init(s0) && Runs(s0, steps)
    ensures var s := After(s0, steps); AllTrue(s.rows, s.payments, s.orders)
    decreases |steps|
  {
    if steps != [] {
      LastStep(s0, steps);
      MessagesAreTrue(s0, Front(steps));
      StepIsTrue(After(s0, Front(steps)), Last(steps));
    }
  }

  /** What is charged for an order, by whichever payment, is the price its call was told times the quantity it was asked
      for, and it is charged to who asked. */
  lemma ChargedPriceTimesQuantity(s0: State, steps: seq<Step>, i: nat) returns (c: nat)
    requires Init(s0) && Runs(s0, steps) && i < |After(s0, steps).payments|
    ensures var s := After(s0, steps);
            var pay := s.payments[i];
            && c in s.calls && Served(s.calls[c]) == Some(pay.order)
            && pay.user == s.calls[c].user && PriceTold(steps, c).Some?
            && pay.amount == PriceTold(steps, c).value * s.calls[c].quantity as real
  {
    MessagesAreTrue(s0, steps);
    var s := After(s0, steps);
    assert ChargesTruly(s.payments[i], s.orders);
    c := OrdersAreAskedFor(s0, steps, s.payments[i].order);
    RunGrounds(s0, steps);
    assert Grounded(steps, s.orders, c, s.calls[c]);
  }

  // ---------------------------------------------------------------- when Redis cannot say whether a call is the first

  /** The call has asked the database, which had no order of its user for its product. */
  ghost predicate FoundNoOrder(s0: State, steps: seq<Step>, c: nat)
    requires Runs(s0, steps)
    decreases |steps|
  {
    steps != [] &&
    (FoundNoOrder(s0, Front(steps), c)
     || (Last(steps) == QueryOrders(c, false) && c in After(s0, Front(steps)).calls
         && NoOrderOf(After(s0, Front(steps)).orders, After(s0, Front(steps)).calls[c])))
  }

  ghost predicate NoOrderOf(orders: OrderStore.Orders, call: Call) {
    forall no | no in orders :: orders[no].user != call.user || orders[no].product != call.product
  }

  predicate LockFailed(steps: seq<Step>, c: nat) {
    exists i :: 0 <= i < |steps| && steps[i].SetNX? && steps[i].call == c && steps[i].reply.Error?
  }

  /** The call is past the idempotency check. */
  predicate Passed(pc: Pc) {
    !pc.TryLock? && !pc.CheckDatabase? && !(pc.Done? && pc.outcome.Rejected?)
  }

  lemma LockFailedEarlier(steps: seq<Step>, c: nat)
    requires steps != [] && LockFailed(steps, c)
    ensures LockFailed(Front(steps), c) || (Last(steps).SetNX? && Last(steps).call == c && Last(steps).reply.Error?)
  {
    var i :| 0 <= i < |steps| && steps[i].SetNX? && steps[i].call == c && steps[i].reply.Error?;
    if i < |steps| - 1 {
      assert Front(steps)[i] == steps[i];
    }
  }

  lemma PassesCheck(s: State, step: Step, c: nat)
    requires Enabled(s, step) && c in Apply(s, step).calls && Passed(Apply(s, step).calls[c].pc)
    requires !(c in s.calls && Passed(s.calls[c].pc))
    ensures c in s.calls
    ensures (step == QueryOrders(c, false) && NoOrderOf(s.orders, s.calls[c]))
            || (step.SetNX? && step.call == c && step.reply.Ok? && s.calls[c].pc.TryLock?)
  {
    if CallStep(step) || step.Transact? {
      CallMoves(s, step);
      if step.QueryOrders? && step.call == c {
        assert OrderStore.OrderedBy(s.orders, s.calls[c].user, s.calls[c].product)
               <==> !NoOrderOf(s.orders, s.calls[c]);
      }
    } else {
      OthersLeaveCalls(s, step);
    }
  }

  /** Calls start with the lock and never come back to it. */
  lemma {:induction false} LockedOnce(s0: State, steps: seq<Step>, c: nat)
    requires Init(s0) && Runs(s0, steps)
    ensures LockFailed(steps, c) ==> c in After(s0, steps).calls && !After(s0, steps).calls[c].pc.TryLock?
    decreases |steps|
  {
    if steps != [] {
      LastStep(s0, steps);
      LockedOnce(s0, Front(steps), c);
      if LockFailed(steps, c) {
        LockFailedEarlier(steps, c);
        LeavesLock(After(s0, Front(steps)), Last(steps), c);
      }
    }
  }

  lemma LeavesLock(s: State, step: Step, c: nat)
    requires Enabled(s, step) && c in s.calls
    requires !s.calls[c].pc.TryLock? || (step.SetNX? && step.call == c)
    ensures c in Apply(s, step).calls && !Apply(s, step).calls[c].pc.TryLock?
  {
    if CallStep(step) || step.Transact? {
      CallMoves(s, step);
    } else {
      OthersLeaveCalls(s, step);
    }
  }

  /** A call whose SETNX failed gets past the idempotency check only if the database was asked and had no order of its
      pair: it neither takes stock nor creates an order before that. */
  lemma {:induction false} FallbackAsks(s0: State, steps: seq<Step>, c: nat)
    requires Init(s0) && Runs(s0, steps) && LockFailed(steps, c)
    requires c in After(s0, steps).calls && Passed(After(s0, steps).calls[c].pc)
    ensures FoundNoOrder(s0, steps, c)
    decreases |steps|
  {
    LastStep(s0, steps);
    var s, step := After(s0, Front(steps)), Last(steps);
    LockFailedEarlier(steps, c);
    if c in s.calls && Passed(s.calls[c].pc) && LockFailed(Front(steps), c) {
      FallbackAsks(s0, Front(steps), c);
    } else if LockFailed(Front(steps), c) {
      LockedOnce(s0, Front(steps), c);
      PassesCheck(s, step, c);
    }
  }
}

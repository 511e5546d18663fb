/** How orders end when some messages are repeated: as long as nothing that cancels an order is, each cancelled order
    has one ORDER_CANCELLED and is restored in Redis once. */
module SagaEnds {
  import opened Events
  import opened SagaProtocol
  import opened SagaLedger
  import opened SagaInvariant
  import opened SagaSafety
  import opened SagaAnyDelivery
  import opened SagaRepeats
  import opened SagaTrails
  import OrderStore
  import InventoryStore

  /** Messages about orders that have been paid. */
  const SALES: set<MessageKind> := {Successes, Completions}

  // ---------------------------------------------------------------- how orders end

  /** How far the cancellation of an order has come: ORDER_CANCELLED is in a row, its handler is about to restore
      Redis, or Redis has been told to take the units back. */
  datatype End = Written(row: nat) | Restoring(handler: nat) | Home

  type Ends = map<OrderNo, End>

  function CancelledRow(no: OrderNo, o: OrderStore.Order): Event {
    OrderCancelled(no, o.user, o.product, o.quantity)
  }

  predicate EndFits(rows: seq<Event>, consumed: set<nat>, handlers: map<nat, Handler>, no: OrderNo, o: OrderStore.Order,
                    end: End)
  {
    match end
    case Written(r) => r < |rows| && r !in consumed && rows[r] == CancelledRow(no, o)
    case Restoring(h) => h in handlers && handlers[h] == RestoreRedis(no, o.user, o.product, o.quantity)
    case Home => true
  }

  /** The cancelled orders are those that have an end, and each end has its row or its handler. */
  ghost predicate EndsOfOrders(rows: seq<Event>, consumed: set<nat>, handlers: map<nat, Handler>,
                               orders: OrderStore.Orders, ends: Ends)
  {
    && (forall no | no in orders :: orders[no].status.Cancelled? <==> no in ends)
    && (forall no | no in ends :: no in orders && EndFits(rows, consumed, handlers, no, orders[no], ends[no]))
  }

  /** Every ORDER_CANCELLED still to be consumed, and every restoration of Redis under way, is the end of its order. */
  ghost predicate EndsOfRows(rows: seq<Event>, consumed: set<nat>, handlers: map<nat, Handler>, ends: Ends) {
    && (forall r | 0 <= r < |rows| && r !in consumed && rows[r].OrderCancelled? ::
          rows[r].order in ends && ends[rows[r].order] == Written(r))
    && (forall h | h in handlers && handlers[h].RestoreRedis? ::
          handlers[h].order in ends && ends[handlers[h].order] == Restoring(h))
  }

  /** Rows name the product of their order. */
  ghost predicate RowsMatch(rows: seq<Event>, orders: OrderStore.Orders) {
    forall r | 0 <= r < |rows| :: RowMatches(rows[r], orders)
  }

  predicate RowMatches(e: Event, orders: OrderStore.Orders) {
    match e
    case OrderCreated(no, _, product, _, _) => no in orders && orders[no].product == product
    case StockDeductFailed(no, product) => no in orders && orders[no].product == product
    case _ => true
  }

  ghost predicate EndsFit(s: State, ends: Ends) {
    && EndsOfOrders(s.rows, s.consumed, s.handlers, s.orders, ends)
    && EndsOfRows(s.rows, s.consumed, s.handlers, ends)
    && RowsMatch(s.rows, s.orders)
    && (forall r | r in s.consumed :: r < |s.rows|)
  }

  function EndsAfterMessage(orders: OrderStore.Orders, ends: Ends, e: Event, h: nat, at: nat): Ends {
    if (e.StockDeductFailed? || e.PaymentFailed?) && e.order in orders then ends[e.order := Written(at)]
    else if e.OrderCancelled? then ends[e.order := Restoring(h)] else ends
  }

  function FollowEnds(s: State, ends: Ends, step: Step): Ends
    requires Enabled(s, step)
  {
    match step
    case Deliver(r, h, _) => EndsAfterMessage(s.orders, ends, s.rows[r], h, |s.rows|)
    case Continue(h, _) => if s.handlers[h].RestoreRedis? then ends[s.handlers[h].order := Home] else ends
    case _ => ends
  }

  lemma RowsStillMatch(rows: seq<Event>, orders: OrderStore.Orders, orders': OrderStore.Orders, x: Event)
    requires RowsMatch(rows, orders) && RowMatches(x, orders')
    requires forall no | no in orders :: no in orders' && orders'[no].product == orders[no].product
    ensures RowsMatch(rows + [x], orders') && RowsMatch(rows, orders')
  {
    forall r | 0 <= r < |rows| ensures RowMatches(rows[r], orders') {
      assert RowMatches(rows[r], orders);
    }
  }

  /** A message that cancels nothing: no end changes. */
  lemma QuietMessage(rows: seq<Event>, consumed: set<nat>, handlers: map<nat, Handler>, orders: OrderStore.Orders,
                     ends: Ends, rows': seq<Event>, r: nat, handlers': map<nat, Handler>, orders': OrderStore.Orders)
    requires EndsOfOrders(rows, consumed, handlers, orders, ends) && EndsOfRows(rows, consumed, handlers, ends)
    requires r < |rows| && !rows[r].OrderCancelled?
    requires rows' == rows || exists x: Event :: !x.OrderCancelled? && rows' == rows + [x]
    requires forall h | h in handlers && handlers[h].RestoreRedis? :: h in handlers' && handlers'[h] == handlers[h]
    requires forall h | h in handlers' && handlers'[h].RestoreRedis? :: h in handlers && handlers[h] == handlers'[h]
    requires OnlyStatuses(orders, orders')
    requires forall no | no in orders :: orders'[no].status.Cancelled? <==> orders[no].status.Cancelled?
    ensures EndsOfOrders(rows', consumed + {r}, handlers', orders', ends)
    ensures EndsOfRows(rows', consumed + {r}, handlers', ends)
  {
    forall no | no in ends ensures EndFits(rows', consumed + {r}, handlers', no, orders'[no], ends[no]) {
      assert EndFits(rows, consumed, handlers, no, orders[no], ends[no]);
    }
  }

  /** A message that cancels an order: it gets its end, as the new row. */
  lemma CancellingMessage(rows: seq<Event>, consumed: set<nat>, handlers: map<nat, Handler>, orders: OrderStore.Orders,
                          ends: Ends, r: nat, no: OrderNo, handlers': map<nat, Handler>, orders': OrderStore.Orders)
    requires EndsOfOrders(rows, consumed, handlers, orders, ends) && EndsOfRows(rows, consumed, handlers, ends)
    requires r < |rows| && !rows[r].OrderCancelled? && no in orders && !orders[no].status.Cancelled?
    requires forall q | q in consumed :: q < |rows|
    requires forall h | h in handlers && handlers[h].RestoreRedis? :: h in handlers' && handlers'[h] == handlers[h]
    requires forall h | h in handlers' && handlers'[h].RestoreRedis? :: h in handlers && handlers[h] == handlers'[h]
    requires orders' == orders[no := orders[no].(status := OrderStore.Cancelled)]
    ensures var rows' := rows + [CancelledRow(no, orders[no])];
            && EndsOfOrders(rows', consumed + {r}, handlers', orders', ends[no := Written(|rows|)])
            && EndsOfRows(rows', consumed + {r}, handlers', ends[no := Written(|rows|)])
  {
    var rows', ends' := rows + [CancelledRow(no, orders[no])], ends[no := Written(|rows|)];
    forall n | n in ends' ensures EndFits(rows', consumed + {r}, handlers', n, orders'[n], ends'[n]) {
      if n != no {
        assert EndFits(rows, consumed, handlers, n, orders[n], ends[n]);
      }
    }
  }

  /** ORDER_CANCELLED itself: its handler takes over from its row. */
  lemma CancelledMessage(rows: seq<Event>, consumed: set<nat>, handlers: map<nat, Handler>, orders: OrderStore.Orders,
                         ends: Ends, r: nat, h: nat)
    requires EndsOfOrders(rows, consumed, handlers, orders, ends) && EndsOfRows(rows, consumed, handlers, ends)
    requires r < |rows| && rows[r].OrderCancelled? && r !in consumed && h !in handlers
    ensures var e := rows[r];
            var handlers' := handlers[h := RestoreRedis(e.order, e.user, e.product, e.quantity)];
            && e.order in ends && ends[e.order] == Written(r)
            && EndsOfOrders(rows, consumed + {r}, handlers', orders, ends[e.order := Restoring(h)])
            && EndsOfRows(rows, consumed + {r}, handlers', ends[e.order := Restoring(h)])
  {
    var e := rows[r];
    var handlers' := handlers[h := RestoreRedis(e.order, e.user, e.product, e.quantity)];
    assert ends[e.order] == Written(r) && EndFits(rows, consumed, handlers, e.order, orders[e.order], Written(r));
    forall n | n in ends && n != e.order ensures EndFits(rows, consumed + {r}, handlers', n, orders[n], ends[n]) {
      assert EndFits(rows, consumed, handlers, n, orders[n], ends[n]);
    }
  }

  /** The handler sends its increment. */
  lemma RestoringHandler(rows: seq<Event>, consumed: set<nat>, handlers: map<nat, Handler>, orders: OrderStore.Orders,
                         ends: Ends, h: nat, next: Handler)
    requires EndsOfOrders(rows, consumed, handlers, orders, ends) && EndsOfRows(rows, consumed, handlers, ends)
    requires h in handlers && handlers[h].RestoreRedis? && !next.RestoreRedis?
    ensures var no := handlers[h].order;
            && no in ends && ends[no] == Restoring(h) && no in orders
            && handlers[h] == RestoreRedis(no, orders[no].user, orders[no].product, orders[no].quantity)
            && EndsOfOrders(rows, consumed, handlers[h := next], orders, ends[no := Home])
            && EndsOfRows(rows, consumed, handlers[h := next], ends[no := Home])
  {
    var no := handlers[h].order;
    assert ends[no] == Restoring(h) && EndFits(rows, consumed, handlers, no, orders[no], Restoring(h));
    forall n | n in ends && n != no ensures EndFits(rows, consumed, handlers[h := next], n, orders[n], ends[n]) {
      assert EndFits(rows, consumed, handlers, n, orders[n], ends[n]);
    }
  }

  /** A handler does something else. */
  lemma OtherHandler(rows: seq<Event>, consumed: set<nat>, handlers: map<nat, Handler>, orders: OrderStore.Orders,
                     ends: Ends, h: nat, next: Handler)
    requires EndsOfOrders(rows, consumed, handlers, orders, ends) && EndsOfRows(rows, consumed, handlers, ends)
    requires h in handlers && !handlers[h].RestoreRedis? && !next.RestoreRedis?
    ensures EndsOfOrders(rows, consumed, handlers[h := next], orders, ends)
    ensures EndsOfRows(rows, consumed, handlers[h := next], ends)
  {
    forall n | n in ends ensures EndFits(rows, consumed, handlers[h := next], n, orders[n], ends[n]) {
      assert EndFits(rows, consumed, handlers, n, orders[n], ends[n]);
    }
  }

  /** A new order has no end. */
  lemma NewOrderEnds(rows: seq<Event>, consumed: set<nat>, handlers: map<nat, Handler>, orders: OrderStore.Orders,
                     ends: Ends, no: OrderNo, o: OrderStore.Order, x: Event)
    requires EndsOfOrders(rows, consumed, handlers, orders, ends) && EndsOfRows(rows, consumed, handlers, ends)
    requires no !in orders && o.status.Pending? && !x.OrderCancelled?
    ensures EndsOfOrders(rows + [x], consumed, handlers, orders[no := o], ends)
    ensures EndsOfRows(rows + [x], consumed, handlers, ends)
  {
    forall n | n in ends ensures EndFits(rows + [x], consumed, handlers, n, orders[n], ends[n]) {
      assert EndFits(rows, consumed, handlers, n, orders[n], ends[n]);
    }
  }

  // ---------------------------------------------------------------- steps keep the ends

  /** The order of a payment failure or shortage that has not been handled is not yet cancelled. */
  lemma NotYetCancelled(s: State, trails: Trails, r: nat)
    requires StateFits(s, trails) && r < |s.rows| && r !in s.consumed
    requires s.rows[r].StockDeductFailed? || s.rows[r].PaymentFailed?
    ensures s.rows[r].order in s.orders && !s.orders[s.rows[r].order].status.Cancelled?
  {
    assert OnTrail(s.rows[r], r, trails);
    assert TrailRows(s.rows, s.consumed, s.rows[r].order, trails[s.rows[r].order]);
  }

  /** Whether the message cancels its order. */
  predicate Cancels(s: State, e: Event) {
    (e.StockDeductFailed? || e.PaymentFailed?) && e.order in s.orders
  }

  lemma CancellingReaction(s: State, e: Event, charged: bool)
    requires Cancels(s, e) && (e.StockDeductFailed? ==> s.orders[e.order].product == e.product)
    ensures TopicConsumer(e).OrderService?
    ensures OrderStore.React(s.orders, e).orders
            == s.orders[e.order := s.orders[e.order].(status := OrderStore.Cancelled)]
    ensures Emitted(s, e, charged) == [CancelledRow(e.order, s.orders[e.order])]
  {
  }

  lemma QuietReaction(s: State, e: Event, charged: bool)
    requires !Cancels(s, e) && !Disrupts(s.orders, e) && RowMatches(e, s.orders)
    ensures var out := Emitted(s, e, charged);
            out == [] || (out == [out[0]] && !out[0].OrderCancelled? && RowMatches(out[0], s.orders))
    ensures var orders' := if TopicConsumer(e).OrderService? then OrderStore.React(s.orders, e).orders else s.orders;
            forall no | no in s.orders :: orders'[no].status.Cancelled? <==> s.orders[no].status.Cancelled?
  {
  }

  /** What a delivery does, by tables. */
  ghost predicate DeliveredTo(s: State, s': State, r: nat, h: nat, charged: bool)
    requires r < |s.rows|
  {
    var e := s.rows[r];
    && s'.rows == s.rows + Emitted(s, e, charged) && s'.consumed == s.consumed + {r}
    && s'.orders == (if TopicConsumer(e).OrderService? then OrderStore.React(s.orders, e).orders else s.orders)
    && HandlersMove(s.handlers, s'.handlers, e, h)
  }

  lemma DeliveryDelivers(s: State, r: nat, h: nat, charged: bool)
    requires Enabled(s, Deliver(r, h, charged))
    ensures DeliveredTo(s, Apply(s, Deliver(r, h, charged)), r, h, charged)
  {
    DeliverFrame(s, r, h, charged);
    DeliveryConsumes(s, r, h, charged);
    HandlersAfterDelivery(s, r, h, charged);
  }

  lemma CancellingKeepsEnds(s: State, s': State, ends: Ends, r: nat, h: nat, charged: bool)
    requires EndsFit(s, ends) && r < |s.rows| && h !in s.handlers && DeliveredTo(s, s', r, h, charged)
    requires Cancels(s, s.rows[r]) && !s.orders[s.rows[r].order].status.Cancelled?
    ensures EndsFit(s', ends[s.rows[r].order := Written(|s.rows|)])
  {
    var e := s.rows[r];
    assert RowMatches(e, s.orders);
    CancellingReaction(s, e, charged);
    CancellingMessage(s.rows, s.consumed, s.handlers, s.orders, ends, r, e.order, s'.handlers, s'.orders);
    RowsStillMatch(s.rows, s.orders, s'.orders, CancelledRow(e.order, s.orders[e.order]));
  }

  lemma CancelledKeepsEnds(s: State, s': State, ends: Ends, r: nat, h: nat, charged: bool)
    requires EndsFit(s, ends) && r < |s.rows| && h !in s.handlers && DeliveredTo(s, s', r, h, charged)
    requires s.rows[r].OrderCancelled? && r !in s.consumed
    ensures EndsFit(s', ends[s.rows[r].order := Restoring(h)])
  {
    CancelledMessage(s.rows, s.consumed, s.handlers, s.orders, ends, r, h);
    assert s.rows + [] == s.rows;
  }

  lemma QuietKeepsEnds(s: State, s': State, ends: Ends, r: nat, h: nat, charged: bool)
    requires EndsFit(s, ends) && r < |s.rows| && h !in s.handlers && DeliveredTo(s, s', r, h, charged)
    requires !Cancels(s, s.rows[r]) && !s.rows[r].OrderCancelled? && !Disrupts(s.orders, s.rows[r])
    ensures EndsFit(s', ends)
  {
    var e, out := s.rows[r], Emitted(s, s.rows[r], charged);
    assert RowMatches(e, s.orders);
    ReactionKeepsOrders(s.orders, e);
    QuietReaction(s, e, charged);
    if out == [] {
      assert s'.rows == s.rows;
      RowsStillMatch(s.rows, s.orders, s'.orders, PaymentSucceeded(0, 0.0));
    } else {
      QuietRowMatches(out[0], s.orders, s'.orders);
      RowsStillMatch(s.rows, s.orders, s'.orders, out[0]);
    }
    QuietMessage(s.rows, s.consumed, s.handlers, s.orders, ends, s'.rows, r, s'.handlers, s'.orders);
  }

  lemma QuietRowMatches(x: Event, orders: OrderStore.Orders, orders': OrderStore.Orders)
    requires RowMatches(x, orders) && OnlyStatuses(orders, orders')
    ensures RowMatches(x, orders')
  {
  }

  lemma DeliverKeepsEnds(s: State, trails: Trails, ends: Ends, r: nat, h: nat, charged: bool)
    requires StateFits(s, trails) && EndsFit(s, ends) && Enabled(s, Deliver(r, h, charged))
    requires r in s.consumed ==> KindOf(s.rows[r]) in SALES
    ensures EndsFit(Apply(s, Deliver(r, h, charged)), FollowEnds(s, ends, Deliver(r, h, charged)))
  {
    var s', e := Apply(s, Deliver(r, h, charged)), s.rows[r];
    DeliveryDelivers(s, r, h, charged);
    if Cancels(s, e) {
      NotYetCancelled(s, trails, r);
      CancellingKeepsEnds(s, s', ends, r, h, charged);
    } else if e.OrderCancelled? {
      CancelledKeepsEnds(s, s', ends, r, h, charged);
    } else {
      MessageFits(s, trails, r, charged);
      QuietKeepsEnds(s, s', ends, r, h, charged);
    }
  }

  lemma ContinueFrames(s: State, h: nat, executed: bool)
    requires Enabled(s, Continue(h, executed))
    ensures var s' := Apply(s, Continue(h, executed));
            && s'.rows == s.rows && s'.consumed == s.consumed && s'.orders == s.orders && s'.calls == s.calls
            && h in s'.handlers && s'.handlers == s.handlers[h := s'.handlers[h]] && !s'.handlers[h].RestoreRedis?
  {
    ContinueLeavesCalls(s, h, executed);
    ContinueHandlers(s, h, executed);
    ContinueLeavesRows(s, h, executed);
    ContinueFrame(s, h, executed);
  }

  lemma ContinueHandlers(s: State, h: nat, executed: bool)
    requires Enabled(s, Continue(h, executed))
    ensures var handlers' := Apply(s, Continue(h, executed)).handlers;
            h in handlers' && handlers' == s.handlers[h := handlers'[h]] && !handlers'[h].RestoreRedis?
  {
    if s.handlers[h].RestoreRedis? {
      RestoringGoesOn(s, h, executed);
    } else if s.handlers[h].DeleteKey? {
      DeletingFinishes(s, h, executed);
    } else {
      WritingFinishes(s, h, executed);
    }
  }

  lemma RestoringGoesOn(s: State, h: nat, executed: bool)
    requires h in s.handlers && s.handlers[h].RestoreRedis?
    ensures var job := s.handlers[h];
            Apply(s, Continue(h, executed)).handlers == s.handlers[h := DeleteKey(job.order, job.user, job.product)]
  {
  }

  lemma DeletingFinishes(s: State, h: nat, executed: bool)
    requires h in s.handlers && s.handlers[h].DeleteKey?
    ensures Apply(s, Continue(h, executed)).handlers == s.handlers[h := Finished]
  {
  }

  lemma WritingFinishes(s: State, h: nat, executed: bool)
    requires h in s.handlers && s.handlers[h].WriteVerdict?
    ensures Apply(s, Continue(h, executed)).handlers == s.handlers[h := Finished]
  {
  }

  lemma ContinueKeepsEnds(s: State, ends: Ends, h: nat, executed: bool)
    requires EndsFit(s, ends) && Enabled(s, Continue(h, executed))
    ensures EndsFit(Apply(s, Continue(h, executed)), FollowEnds(s, ends, Continue(h, executed)))
  {
    var s' := Apply(s, Continue(h, executed));
    ContinueFrames(s, h, executed);
    if s.handlers[h].RestoreRedis? {
      RestoringHandler(s.rows, s.consumed, s.handlers, s.orders, ends, h, s'.handlers[h]);
    } else {
      OtherHandler(s.rows, s.consumed, s.handlers, s.orders, ends, h, s'.handlers[h]);
    }
  }

  lemma CommitKeepsEnds(s: State, ends: Ends, c: nat, no: OrderNo)
    requires EndsFit(s, ends) && Enabled(s, Transact(c, no, false)) && Commits(s, s.calls[c], no, false)
    ensures EndsFit(Apply(s, Transact(c, no, false)), ends)
  {
    var call := s.calls[c];
    var x := OrderCreated(no, call.user, call.product, call.quantity, NewOrder(call).total);
    CommitEffect(s, c, no);
    OthersKeepHandlers(s, Transact(c, no, false));
    NewOrderEnds(s.rows, s.consumed, s.handlers, s.orders, ends, no, NewOrder(call), x);
    RowsStillMatch(s.rows, s.orders, s.orders[no := NewOrder(call)], x);
  }

  lemma StepKeepsEnds(s: State, trails: Trails, ends: Ends, step: Step, kinds: set<MessageKind>)
    requires StateFits(s, trails) && EndsFit(s, ends) && Enabled(s, step)
    requires RepeatsKind(s, step, kinds) && kinds <= SALES
    ensures EndsFit(Apply(s, step), FollowEnds(s, ends, step))
  {
    if step.Deliver? {
      DeliverKeepsEnds(s, trails, ends, step.row, step.handler, step.charged);
    } else if step.Continue? {
      ContinueKeepsEnds(s, ends, step.handler, step.executed);
    } else if step.Transact? && Commits(s, s.calls[step.call], step.order, step.failed) {
      assert step == Transact(step.call, step.order, false);
      CommitKeepsEnds(s, ends, step.call, step.order);
    } else {
      OthersLeaveOrders(s, step);
      OthersKeepHandlers(s, step);
    }
  }
}

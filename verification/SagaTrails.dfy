/** Runs that repeat no hand-over. Per order, a trail remembers which outbox row carries each hand-over between the
    services; as long as none of them is repeated, the documented status machine holds and no order is charged twice,
    whatever else is repeated, lost or reordered. */
module SagaTrails {
  import opened Events
  import opened SagaProtocol
  import opened SagaAnyDelivery
  import opened SagaRepeats
  import OrderStore
  import InventoryStore

  // ---------------------------------------------------------------- trails

  /** The rows that carried an order from service to service: ORDER_CREATED, the inventory's reply, PAYMENT_REQUESTED
      and the payment's result. */
  datatype Trail = Trail(created: nat, reply: Option<nat>, request: Option<nat>, result: Option<nat>)

  type Trails = map<OrderNo, Trail>

  /** The row is where its order's trail says. */
  predicate OnTrail(e: Event, r: nat, trails: Trails) {
    (!e.OrderCompleted? && !e.OrderCancelled?) ==>
      e.order in trails &&
      match e
      case OrderCreated(_, _, _, _, _) => trails[e.order].created == r
      case StockDeducted(_, _, _) | StockDeductFailed(_, _) => trails[e.order].reply == Some(r)
      case PaymentRequested(_, _, _) => trails[e.order].request == Some(r)
      case PaymentSucceeded(_, _) | PaymentFailed(_, _) => trails[e.order].result == Some(r)
      case _ => true
  }

  predicate RowIs(rows: seq<Event>, r: nat, no: OrderNo, kinds: set<MessageKind>) {
    r < |rows| && rows[r].order == no && KindOf(rows[r]) in kinds
  }

  /** The rows of a trail exist, and each but the first was written when the one before it was consumed. */
  predicate TrailRows(rows: seq<Event>, consumed: set<nat>, no: OrderNo, t: Trail) {
    && RowIs(rows, t.created, no, {Creations})
    && (t.reply.Some? <==> t.created in consumed)
    && (t.reply.Some? ==> RowIs(rows, t.reply.value, no, {Deductions, Shortages}))
    && (t.request.Some? <==> t.reply.Some? && t.reply.value in consumed && RowIs(rows, t.reply.value, no, {Deductions}))
    && (t.request.Some? ==> RowIs(rows, t.request.value, no, {Requests}))
    && (t.result.Some? <==> t.request.Some? && t.request.value in consumed)
    && (t.result.Some? ==> RowIs(rows, t.result.value, no, {Successes, Failures}))
  }

  /** The status an order has come to. */
  function TrailStatus(rows: seq<Event>, consumed: set<nat>, t: Trail): OrderStore.Status {
    if t.result.Some? && t.result.value in consumed && t.result.value < |rows| then
      if rows[t.result.value].PaymentSucceeded? then OrderStore.Paid else OrderStore.Cancelled
    else if t.request.Some? then OrderStore.AwaitingPayment
    else if t.reply.Some? && t.reply.value in consumed then OrderStore.Cancelled
    else OrderStore.Pending
  }

  ghost predicate Fits(rows: seq<Event>, consumed: set<nat>, orders: OrderStore.Orders, trails: Trails) {
    && trails.Keys == orders.Keys
    && (forall r | r in consumed :: r < |rows|)
    && (forall r | 0 <= r < |rows| :: OnTrail(rows[r], r, trails))
    && (forall no | no in trails ::
          && TrailRows(rows, consumed, no, trails[no])
          && orders[no].status == TrailStatus(rows, consumed, trails[no]))
  }

  /** One payment per order at most, and only for orders whose payment request was consumed. */
  ghost predicate PaidOnce(payments: seq<Payment>, trails: Trails) {
    && (forall i | 0 <= i < |payments| :: payments[i].order in trails && trails[payments[i].order].result.Some?)
    && OnePayment(payments)
  }

  ghost predicate OnePayment(payments: seq<Payment>) {
    forall i, j | 0 <= i < j < |payments| :: payments[i].order != payments[j].order
  }

  /** How the trails follow a step; `at` is the index of the next row. */
  function FollowMessage(trails: Trails, e: Event, at: nat): Trails {
    if e.order !in trails then trails
    else
      var t := trails[e.order];
      match e
      case OrderCreated(_, _, _, _, _) => trails[e.order := t.(reply := Some(at))]
      case StockDeducted(_, _, _) => trails[e.order := t.(request := Some(at))]
      case PaymentRequested(_, _, _) => trails[e.order := t.(result := Some(at))]
      case _ => trails
  }

  function FollowTrails(s: State, trails: Trails, step: Step): Trails
    requires Enabled(s, step)
  {
    match step
    case Transact(c, no, failed) =>
      if Commits(s, s.calls[c], no, failed) then trails[no := Trail(|s.rows|, None, None, None)] else trails
    case Deliver(r, _, _) => FollowMessage(trails, s.rows[r], |s.rows|)
    case _ => trails
  }

  // ---------------------------------------------------------------- each kind of message keeps the trails fitting

  /** Consuming a row that no trail waits for, or has waited for, changes nothing. */
  lemma AsideFits(rows: seq<Event>, consumed: set<nat>, orders: OrderStore.Orders, trails: Trails, r: nat)
    requires Fits(rows, consumed, orders, trails) && r < |rows|
    requires rows[r].OrderCompleted? || rows[r].OrderCancelled?
    ensures Fits(rows, consumed + {r}, orders, trails)
  {
  }

  /** Trails that do not contain the consumed row stay as they are. */
  lemma TrailStable(rows: seq<Event>, consumed: set<nat>, no: OrderNo, t: Trail, r: nat, x: Event)
    requires TrailRows(rows, consumed, no, t) && r < |rows| && rows[r].order != no
    ensures TrailRows(rows + [x], consumed + {r}, no, t)
    ensures TrailStatus(rows + [x], consumed + {r}, t) == TrailStatus(rows, consumed, t)
  {
  }

  /** The later trail only adds to the earlier one. */
  predicate Extends(t: Trail, t': Trail) {
    && t'.created == t.created && (t.reply.Some? ==> t'.reply == t.reply)
    && (t.request.Some? ==> t'.request == t.request) && (t.result.Some? ==> t'.result == t.result)
  }

  lemma OnTrailStays(e: Event, r: nat, trails: Trails, no: OrderNo, t': Trail)
    requires OnTrail(e, r, trails) && (no in trails ==> Extends(trails[no], t'))
    ensures OnTrail(e, r, trails[no := t'])
  {
  }

  lemma RowsOnTrail(rows: seq<Event>, trails: Trails, no: OrderNo, t': Trail, x: Event)
    requires forall r | 0 <= r < |rows| :: OnTrail(rows[r], r, trails)
    requires (no in trails ==> Extends(trails[no], t')) && OnTrail(x, |rows|, trails[no := t'])
    ensures forall r | 0 <= r < |rows + [x]| :: OnTrail((rows + [x])[r], r, trails[no := t'])
  {
    forall i | 0 <= i < |rows| ensures OnTrail(rows[i], i, trails[no := t']) {
      OnTrailStays(rows[i], i, trails, no, t');
    }
  }

  /** One order moves on: its row r is consumed and x is written. */
  lemma FitsPut(rows: seq<Event>, consumed: set<nat>, orders: OrderStore.Orders, trails: Trails, r: nat, x: Event,
                no: OrderNo, o: OrderStore.Order, t': Trail)
    requires Fits(rows, consumed, orders, trails) && r < |rows| && rows[r].order == no && no in trails
    requires Extends(trails[no], t') && OnTrail(x, |rows|, trails[no := t'])
    requires TrailRows(rows + [x], consumed + {r}, no, t') && o.status == TrailStatus(rows + [x], consumed + {r}, t')
    ensures Fits(rows + [x], consumed + {r}, orders[no := o], trails[no := t'])
  {
    var rows' := rows + [x];
    RowsOnTrail(rows, trails, no, t', x);
    forall n | n in trails && n != no
      ensures TrailRows(rows', consumed + {r}, n, trails[n])
              && TrailStatus(rows', consumed + {r}, trails[n]) == TrailStatus(rows, consumed, trails[n])
    {
      TrailStable(rows, consumed, n, trails[n], r, x);
    }
  }

  lemma CreationFits(rows: seq<Event>, consumed: set<nat>, orders: OrderStore.Orders, trails: Trails, r: nat, x: Event)
    requires Fits(rows, consumed, orders, trails) && r < |rows| && rows[r].OrderCreated? && r !in consumed
    requires x.order == rows[r].order && (x.StockDeducted? || x.StockDeductFailed?)
    ensures Fits(rows + [x], consumed + {r}, orders, FollowMessage(trails, rows[r], |rows|))
  {
    assert OnTrail(rows[r], r, trails);
    var no := rows[r].order;
    var t' := trails[no].(reply := Some(|rows|));
    CreationMovesTrail(rows, consumed, no, trails[no], x);
    FitsPut(rows, consumed, orders, trails, r, x, no, orders[no], t');
    assert orders[no := orders[no]] == orders;
  }

  lemma CreationMovesTrail(rows: seq<Event>, consumed: set<nat>, no: OrderNo, t: Trail, x: Event)
    requires TrailRows(rows, consumed, no, t) && t.created !in consumed && x.order == no
    requires x.StockDeducted? || x.StockDeductFailed?
    requires forall r | r in consumed :: r < |rows|
    ensures Extends(t, t.(reply := Some(|rows|)))
    ensures TrailRows(rows + [x], consumed + {t.created}, no, t.(reply := Some(|rows|)))
    ensures TrailStatus(rows + [x], consumed + {t.created}, t.(reply := Some(|rows|))) == TrailStatus(rows, consumed, t)
  {
  }

  lemma DeductionFits(rows: seq<Event>, consumed: set<nat>, orders: OrderStore.Orders, trails: Trails, r: nat, x: Event)
    requires Fits(rows, consumed, orders, trails) && r < |rows| && rows[r].StockDeducted? && r !in consumed
    requires x.order == rows[r].order && x.PaymentRequested?
    ensures rows[r].order in orders && orders[rows[r].order].status.Pending?
    ensures var no := rows[r].order;
            Fits(rows + [x], consumed + {r}, orders[no := orders[no].(status := OrderStore.AwaitingPayment)],
                 FollowMessage(trails, rows[r], |rows|))
  {
    assert OnTrail(rows[r], r, trails);
    var no := rows[r].order;
    var t' := trails[no].(request := Some(|rows|));
    DeductionMovesTrail(rows, consumed, no, trails[no], r, x);
    FitsPut(rows, consumed, orders, trails, r, x, no, orders[no].(status := OrderStore.AwaitingPayment), t');
  }

  lemma DeductionMovesTrail(rows: seq<Event>, consumed: set<nat>, no: OrderNo, t: Trail, r: nat, x: Event)
    requires TrailRows(rows, consumed, no, t) && t.reply == Some(r) && r !in consumed && rows[r].StockDeducted?
    requires x.order == no && x.PaymentRequested? && forall i | i in consumed :: i < |rows|
    ensures TrailStatus(rows, consumed, t).Pending?
    ensures Extends(t, t.(request := Some(|rows|)))
    ensures TrailRows(rows + [x], consumed + {r}, no, t.(request := Some(|rows|)))
    ensures TrailStatus(rows + [x], consumed + {r}, t.(request := Some(|rows|))).AwaitingPayment?
  {
  }

  lemma ShortageFits(rows: seq<Event>, consumed: set<nat>, orders: OrderStore.Orders, trails: Trails, r: nat, x: Event)
    requires Fits(rows, consumed, orders, trails) && r < |rows| && rows[r].StockDeductFailed? && x.OrderCancelled?
    ensures rows[r].order in orders && !Disrupts(orders, rows[r])
    ensures var no := rows[r].order;
            Fits(rows + [x], consumed + {r}, orders[no := orders[no].(status := OrderStore.Cancelled)], trails)
  {
    assert OnTrail(rows[r], r, trails);
    var no := rows[r].order;
    ShortageEndsTrail(rows, consumed, no, trails[no], r, x);
    FitsPut(rows, consumed, orders, trails, r, x, no, orders[no].(status := OrderStore.Cancelled), trails[no]);
    assert trails[no := trails[no]] == trails;
  }

  lemma ShortageEndsTrail(rows: seq<Event>, consumed: set<nat>, no: OrderNo, t: Trail, r: nat, x: Event)
    requires TrailRows(rows, consumed, no, t) && t.reply == Some(r) && rows[r].StockDeductFailed?
    ensures TrailStatus(rows, consumed, t).Pending? || TrailStatus(rows, consumed, t).Cancelled?
    ensures TrailRows(rows + [x], consumed + {r}, no, t) && TrailStatus(rows + [x], consumed + {r}, t).Cancelled?
  {
  }

  lemma RequestFits(rows: seq<Event>, consumed: set<nat>, orders: OrderStore.Orders, trails: Trails, r: nat, x: Event)
    requires Fits(rows, consumed, orders, trails) && r < |rows| && rows[r].PaymentRequested? && r !in consumed
    requires x.order == rows[r].order && (x.PaymentSucceeded? || x.PaymentFailed?)
    ensures rows[r].order in trails && trails[rows[r].order].result.None?
    ensures Fits(rows + [x], consumed + {r}, orders, FollowMessage(trails, rows[r], |rows|))
  {
    assert OnTrail(rows[r], r, trails);
    var no := rows[r].order;
    var t' := trails[no].(result := Some(|rows|));
    RequestMovesTrail(rows, consumed, no, trails[no], r, x);
    FitsPut(rows, consumed, orders, trails, r, x, no, orders[no], t');
    assert orders[no := orders[no]] == orders;
  }

  lemma RequestMovesTrail(rows: seq<Event>, consumed: set<nat>, no: OrderNo, t: Trail, r: nat, x: Event)
    requires TrailRows(rows, consumed, no, t) && t.request == Some(r) && r !in consumed && x.order == no
    requires (x.PaymentSucceeded? || x.PaymentFailed?) && forall i | i in consumed :: i < |rows|
    ensures t.result.None? && Extends(t, t.(result := Some(|rows|)))
    ensures TrailRows(rows + [x], consumed + {r}, no, t.(result := Some(|rows|)))
    ensures TrailStatus(rows + [x], consumed + {r}, t.(result := Some(|rows|))) == TrailStatus(rows, consumed, t)
  {
  }

  lemma ResultFits(rows: seq<Event>, consumed: set<nat>, orders: OrderStore.Orders, trails: Trails, r: nat, x: Event)
    requires Fits(rows, consumed, orders, trails) && r < |rows| && (rows[r].PaymentSucceeded? || rows[r].PaymentFailed?)
    requires x.OrderCompleted? || x.OrderCancelled?
    ensures rows[r].order in orders && !Disrupts(orders, rows[r])
    ensures var no := rows[r].order;
            Fits(rows + [x], consumed + {r}, orders[no := orders[no].(status := ResultStatus(rows[r]))], trails)
  {
    assert OnTrail(rows[r], r, trails);
    var no := rows[r].order;
    ResultEndsTrail(rows, consumed, no, trails[no], r, x);
    FitsPut(rows, consumed, orders, trails, r, x, no, orders[no].(status := ResultStatus(rows[r])), trails[no]);
    assert trails[no := trails[no]] == trails;
  }

  function ResultStatus(e: Event): OrderStore.Status {
    if e.PaymentSucceeded? then OrderStore.Paid else OrderStore.Cancelled
  }

  lemma ResultEndsTrail(rows: seq<Event>, consumed: set<nat>, no: OrderNo, t: Trail, r: nat, x: Event)
    requires TrailRows(rows, consumed, no, t) && t.result == Some(r)
    ensures TrailStatus(rows, consumed, t).AwaitingPayment? || TrailStatus(rows, consumed, t) == ResultStatus(rows[r])
    ensures TrailRows(rows + [x], consumed + {r}, no, t)
              && TrailStatus(rows + [x], consumed + {r}, t) == ResultStatus(rows[r])
  {
  }

  lemma NewOrderFits(rows: seq<Event>, consumed: set<nat>, orders: OrderStore.Orders, trails: Trails, no: OrderNo,
                     o: OrderStore.Order, x: Event)
    requires Fits(rows, consumed, orders, trails) && no !in orders && o.status.Pending?
    requires x.OrderCreated? && x.order == no
    ensures Fits(rows + [x], consumed, orders[no := o], trails[no := Trail(|rows|, None, None, None)])
  {
    var rows' := rows + [x];
    RowsOnTrail(rows, trails, no, Trail(|rows|, None, None, None), x);
    NewTrail(rows, consumed, no, x);
    forall n | n in trails
      ensures TrailRows(rows', consumed, n, trails[n])
              && TrailStatus(rows', consumed, trails[n]) == TrailStatus(rows, consumed, trails[n])
    {
      TrailKeeps(rows, consumed, n, trails[n], x);
    }
  }

  lemma NewTrail(rows: seq<Event>, consumed: set<nat>, no: OrderNo, x: Event)
    requires x.OrderCreated? && x.order == no && forall r | r in consumed :: r < |rows|
    ensures TrailRows(rows + [x], consumed, no, Trail(|rows|, None, None, None))
    ensures TrailStatus(rows + [x], consumed, Trail(|rows|, None, None, None)).Pending?
  {
  }

  lemma TrailKeeps(rows: seq<Event>, consumed: set<nat>, no: OrderNo, t: Trail, x: Event)
    requires TrailRows(rows, consumed, no, t)
    ensures TrailRows(rows + [x], consumed, no, t)
    ensures TrailStatus(rows + [x], consumed, t) == TrailStatus(rows, consumed, t)
  {
  }

  // ---------------------------------------------------------------- steps and runs

  lemma PaymentsAfterDelivery(s: State, r: nat, h: nat, charged: bool)
    requires Enabled(s, Deliver(r, h, charged))
    ensures var e := s.rows[r];
            Apply(s, Deliver(r, h, charged)).payments
            == s.payments + (if e.PaymentRequested? then [Payment(e.order, e.user, e.amount, charged)] else [])
  {
  }

  lemma PaidOnceStays(payments: seq<Payment>, trails: Trails, no: OrderNo, t': Trail)
    requires PaidOnce(payments, trails) && (no in trails ==> Extends(trails[no], t'))
    ensures PaidOnce(payments, trails[no := t'])
  {
  }

  lemma PaidOnceGrows(payments: seq<Payment>, trails: Trails, pay: Payment, at: nat)
    requires PaidOnce(payments, trails) && pay.order in trails && trails[pay.order].result.None?
    ensures PaidOnce(payments + [pay], trails[pay.order := trails[pay.order].(result := Some(at))])
  {
  }

  /** The trails of the orders after a message: what the message's handler emits is where its order goes on. */
  lemma MessageFits(s: State, trails: Trails, r: nat, charged: bool)
    requires Fits(s.rows, s.consumed, s.orders, trails) && r < |s.rows|
    requires r in s.consumed ==> KindOf(s.rows[r]) !in HANDOVERS
    ensures !Disrupts(s.orders, s.rows[r])
    ensures var e := s.rows[r];
            var orders' := if TopicConsumer(e).OrderService? then OrderStore.React(s.orders, e).orders else s.orders;
            Fits(s.rows + Emitted(s, e, charged), s.consumed + {r}, orders', FollowMessage(trails, e, |s.rows|))
  {
    var e := s.rows[r];
    var no := e.order;
    assert OnTrail(e, r, trails);
    match e {
      case OrderCreated(_, _, product, quantity, _) =>
        var reply := Emitted(s, e, charged)[0];
        CreationFits(s.rows, s.consumed, s.orders, trails, r, reply);
        assert Emitted(s, e, charged) == [reply];
      case StockDeducted(_, _, _) =>
        DeductionFits(s.rows, s.consumed, s.orders, trails, r,
            PaymentRequested(no, s.orders[no].user, s.orders[no].total));
      case StockDeductFailed(_, product) =>
        ShortageFits(s.rows, s.consumed, s.orders, trails, r,
                     OrderCancelled(no, s.orders[no].user, product, s.orders[no].quantity));
      case PaymentRequested(_, _, amount) =>
        var result := if charged then PaymentSucceeded(no, amount) else PaymentFailed(no, amount);
        RequestFits(s.rows, s.consumed, s.orders, trails, r, result);
      case PaymentSucceeded(_, _) =>
        ResultFits(s.rows, s.consumed, s.orders, trails, r,
            OrderCompleted(no, s.orders[no].product, s.orders[no].quantity));
      case PaymentFailed(_, _) =>
        ResultFits(s.rows, s.consumed, s.orders, trails, r,
                   OrderCancelled(no, s.orders[no].user, s.orders[no].product, s.orders[no].quantity));
      case OrderCompleted(_, _, _) =>
        AsideFits(s.rows, s.consumed, s.orders, trails, r);
        assert s.rows + Emitted(s, e, charged) == s.rows;
      case OrderCancelled(_, _, _, _) =>
        AsideFits(s.rows, s.consumed, s.orders, trails, r);
        assert s.rows + Emitted(s, e, charged) == s.rows;
    }
  }

  ghost predicate StateFits(s: State, trails: Trails) {
    Fits(s.rows, s.consumed, s.orders, trails) && PaidOnce(s.payments, trails)
  }

  lemma DeliverFits(s: State, trails: Trails, r: nat, h: nat, charged: bool)
    requires StateFits(s, trails) && Enabled(s, Deliver(r, h, charged))
    requires r in s.consumed ==> KindOf(s.rows[r]) !in HANDOVERS
    ensures StateFits(Apply(s, Deliver(r, h, charged)), FollowMessage(trails, s.rows[r], |s.rows|))
    ensures !Disrupts(s.orders, s.rows[r])
  {
    var e := s.rows[r];
    MessageFits(s, trails, r, charged);
    DeliverFrame(s, r, h, charged);
    DeliveryConsumes(s, r, h, charged);
    PaymentsAfterDelivery(s, r, h, charged);
    assert OnTrail(e, r, trails);
    if e.PaymentRequested? {
      RequestFits(s.rows, s.consumed, s.orders, trails, r, PaymentSucceeded(e.order, e.amount));
      PaidOnceGrows(s.payments, trails, Payment(e.order, e.user, e.amount, charged), |s.rows|);
    } else {
      MessageKeepsPaidOnce(s, trails, r);
      assert s.payments + [] == s.payments;
    }
  }

  lemma MessageKeepsPaidOnce(s: State, trails: Trails, r: nat)
    requires StateFits(s, trails) && r < |s.rows| && !s.rows[r].PaymentRequested?
    requires r in s.consumed ==> KindOf(s.rows[r]) !in HANDOVERS
    ensures PaidOnce(s.payments, FollowMessage(trails, s.rows[r], |s.rows|))
  {
    var e := s.rows[r];
    assert OnTrail(e, r, trails);
    if e.order in trails {
      assert TrailRows(s.rows, s.consumed, e.order, trails[e.order]);
      if e.OrderCreated? {
        PaidOnceStays(s.payments, trails, e.order, trails[e.order].(reply := Some(|s.rows|)));
      } else if e.StockDeducted? {
        PaidOnceStays(s.payments, trails, e.order, trails[e.order].(request := Some(|s.rows|)));
      }
    }
  }

  lemma CommitFits(s: State, trails: Trails, c: nat, no: OrderNo)
    requires StateFits(s, trails) && Enabled(s, Transact(c, no, false)) && Commits(s, s.calls[c], no, false)
    ensures StateFits(Apply(s, Transact(c, no, false)), trails[no := Trail(|s.rows|, None, None, None)])
  {
    var call := s.calls[c];
    var x := OrderCreated(no, call.user, call.product, call.quantity, NewOrder(call).total);
    NewOrderFits(s.rows, s.consumed, s.orders, trails, no, NewOrder(call), x);
    PaidOnceStays(s.payments, trails, no, Trail(|s.rows|, None, None, None));
    CommitEffect(s, c, no);
  }

  lemma CommitEffect(s: State, c: nat, no: OrderNo)
    requires Enabled(s, Transact(c, no, false)) && Commits(s, s.calls[c], no, false)
    ensures var s', call := Apply(s, Transact(c, no, false)), s.calls[c];
            && no !in s.orders && s'.consumed == s.consumed && s'.payments == s.payments
            && s'.orders == s.orders[no := NewOrder(call)]
            && s'.rows == s.rows + [OrderCreated(no, call.user, call.product, call.quantity, NewOrder(call).total)]
  {
  }

  lemma OthersLeaveOrders(s: State, step: Step)
    requires Enabled(s, step) && !step.Deliver?
    requires step.Transact? ==> !Commits(s, s.calls[step.call], step.order, step.failed)
    ensures var s' := Apply(s, step);
            s'.rows == s.rows && s'.consumed == s.consumed && s'.orders == s.orders && s'.payments == s.payments
  {
    OthersConsumeNothing(s, step);
    OthersPayNothing(s, step);
  }

  lemma OthersConsumeNothing(s: State, step: Step)
    requires Enabled(s, step) && !step.Deliver?
    ensures Apply(s, step).consumed == s.consumed
  {
    if step.Continue? {
      ContinueConsumesNothing(s, step.handler, step.executed);
    }
  }

  lemma OthersPayNothing(s: State, step: Step)
    requires Enabled(s, step) && !step.Deliver?
    ensures Apply(s, step).payments == s.payments
  {
    if step.Continue? {
      ContinuePaysNothing(s, step.handler, step.executed);
    }
  }

  lemma ContinuePaysNothing(s: State, h: nat, executed: bool)
    requires Enabled(s, Continue(h, executed))
    ensures Apply(s, Continue(h, executed)).payments == s.payments
  {
  }

  lemma StepFits(s: State, trails: Trails, step: Step, kinds: set<MessageKind>)
    requires StateFits(s, trails) && Enabled(s, step) && RepeatsKind(s, step, kinds) && kinds !! HANDOVERS
    ensures StateFits(Apply(s, step), FollowTrails(s, trails, step)) && KeepsMachine(s, Apply(s, step))
  {
    StepKeepsMachine(s, step);
    if step.Deliver? {
      DeliverFits(s, trails, step.row, step.handler, step.charged);
    } else if step.Transact? && Commits(s, s.calls[step.call], step.order, step.failed) {
      assert step == Transact(step.call, step.order, false);
      CommitFits(s, trails, step.call, step.order);
    } else {
      OthersLeaveOrders(s, step);
    }
  }

  ghost function TrailsAfter(s0: State, steps: seq<Step>): Trails
    requires Runs(s0, steps)
  {
    if steps == [] then map[] else FollowTrails(After(s0, Front(steps)), TrailsAfter(s0, Front(steps)), Last(steps))
  }

  /** As long as no hand-over is repeated, every step of a run keeps the documented status machine and no order is
      charged twice, however often anything else is delivered, lost or reordered. */
  lemma {:induction false} HandoversOnce(s0: State, steps: seq<Step>, kinds: set<MessageKind>)
    requires Init(s0) && Runs(s0, steps) && RepeatsOnly(s0, steps, kinds) && kinds !! HANDOVERS
    ensures StateFits(After(s0, steps), TrailsAfter(s0, steps))
    ensures MachineKept(s0, steps) && OnePayment(After(s0, steps).payments)
    decreases |steps|
  {
    if steps != [] {
      LastStep(s0, steps);
      HandoversOnce(s0, Front(steps), kinds);
      StepFits(After(s0, Front(steps)), TrailsAfter(s0, Front(steps)), Last(steps), kinds);
    }
  }
}

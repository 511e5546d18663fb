/** What holds of the saga however often, however late and in whatever order messages are delivered, and
    however often the relays publish a row. */
module SagaAnyDelivery {
  import opened Events
  import opened SagaProtocol
  import OrderStore
  import InventoryStore

  // ---------------------------------------------------------------- causes

  /** Message e reports something that message cause made happen. */
  predicate CauseOf(cause: Event, e: Event) {
    cause.order == e.order &&
    match e
    case OrderCreated(_, _, _, _, _) => false
    case StockDeducted(_, _, _) | StockDeductFailed(_, _) => cause.OrderCreated?
    case PaymentRequested(_, _, _) => cause.StockDeducted?
    case PaymentSucceeded(_, _) | PaymentFailed(_, _) => cause.PaymentRequested?
    case OrderCompleted(_, _, _) => cause.PaymentSucceeded?
    case OrderCancelled(_, _, _, _) => cause.StockDeductFailed? || cause.PaymentFailed?
  }

  /** A cause of e is among the first n publications. */
  ghost predicate CausedBefore(rows: seq<Event>, log: seq<nat>, n: nat, e: Event)
    requires n <= |log|
  {
    exists i :: 0 <= i < n && log[i] < |rows| && CauseOf(rows[log[i]], e)
  }

  /** Publications point at rows; the cause of every row has been published, and before the row was. */
  ghost predicate Causal(rows: seq<Event>, log: seq<nat>) {
    && (forall i | 0 <= i < |log| :: log[i] < |rows|)
    && (forall r | 0 <= r < |rows| :: rows[r].OrderCreated? || CausedBefore(rows, log, |log|, rows[r]))
    && (forall i | 0 <= i < |log| && log[i] < |rows| ::
          rows[log[i]].OrderCreated? || CausedBefore(rows, log, i, rows[log[i]]))
  }

  lemma PublishKeepsCausal(rows: seq<Event>, log: seq<nat>, r: nat)
    requires Causal(rows, log) && r < |rows|
    ensures Causal(rows, log + [r])
  {
    var log' := log + [r];
    forall e, n | 0 <= n <= |log| && CausedBefore(rows, log, n, e) ensures CausedBefore(rows, log', n, e) {
      var i :| 0 <= i < n && log[i] < |rows| && CauseOf(rows[log[i]], e);
      assert log'[i] == log[i];
    }
    forall e | CausedBefore(rows, log, |log|, e) ensures CausedBefore(rows, log', |log'|, e) {
      var i :| 0 <= i < |log| && log[i] < |rows| && CauseOf(rows[log[i]], e);
      assert log'[i] == log[i];
    }
  }

  lemma AppendKeepsCausal(rows: seq<Event>, log: seq<nat>, e: Event)
    requires Causal(rows, log)
    requires e.OrderCreated? || CausedBefore(rows, log, |log|, e)
    ensures Causal(rows + [e], log)
  {
    var rows' := rows + [e];
    forall x, n | 0 <= n <= |log| && CausedBefore(rows, log, n, x) ensures CausedBefore(rows', log, n, x) {
      var i :| 0 <= i < n && log[i] < |rows| && CauseOf(rows[log[i]], x);
      assert rows'[log[i]] == rows[log[i]];
    }
  }

  /** The row a delivery adds, if any. */
  function Emitted(s: State, e: Event, charged: bool): seq<Event> {
    match TopicConsumer(e)
    case InventoryService => InventoryStore.React(s.inventory, e).emitted
    case PaymentService =>
      [if charged then PaymentSucceeded(e.order, e.amount) else PaymentFailed(e.order, e.amount)]
    case OrderService => OrderStore.React(s.orders, e).emitted
  }

  /** Only statuses have changed. */
  ghost predicate OnlyStatuses(orders: OrderStore.Orders, orders': OrderStore.Orders) {
    && orders'.Keys == orders.Keys
    && forall no | no in orders :: orders'[no] == orders[no].(status := orders'[no].status)
  }

  lemma DeliverFrame(s: State, r: nat, h: nat, charged: bool)
    requires Enabled(s, Deliver(r, h, charged))
    ensures var s', e := Apply(s, Deliver(r, h, charged)), s.rows[r];
            && s'.log == s.log && s'.rows == s.rows + Emitted(s, e, charged)
            && s'.orders == if TopicConsumer(e).OrderService? then OrderStore.React(s.orders, e).orders else s.orders
  {
    OrdersAfterDelivery(s, r, h, charged);
    RowsAfterDelivery(s, r, h, charged);
  }

  lemma OrdersAfterDelivery(s: State, r: nat, h: nat, charged: bool)
    requires Enabled(s, Deliver(r, h, charged))
    ensures Apply(s, Deliver(r, h, charged)).orders
            == if TopicConsumer(s.rows[r]).OrderService? then OrderStore.React(s.orders, s.rows[r]).orders else s.orders
  {
  }

  lemma ReactionKeepsOrders(orders: OrderStore.Orders, e: Event)
    ensures OnlyStatuses(orders, OrderStore.React(orders, e).orders)
  {
  }

  lemma DeliverKeepsOrders(s: State, r: nat, h: nat, charged: bool)
    requires Enabled(s, Deliver(r, h, charged))
    ensures OnlyStatuses(s.orders, Apply(s, Deliver(r, h, charged)).orders)
  {
    OrdersAfterDelivery(s, r, h, charged);
    ReactionKeepsOrders(s.orders, s.rows[r]);
  }

  lemma OtherMessageLeavesStock(s: State, r: nat, h: nat, charged: bool)
    requires Enabled(s, Deliver(r, h, charged)) && !TopicConsumer(s.rows[r]).InventoryService?
    ensures var s' := Apply(s, Deliver(r, h, charged)); s'.stock == s.stock && s'.inventory == s.inventory
  {
  }

  lemma RowsAfterDelivery(s: State, r: nat, h: nat, charged: bool)
    requires Enabled(s, Deliver(r, h, charged))
    ensures var s' := Apply(s, Deliver(r, h, charged));
            s'.log == s.log && s'.rows == s.rows + Emitted(s, s.rows[r], charged)
  {
  }

  lemma DeliveryConsumes(s: State, r: nat, h: nat, charged: bool)
    requires Enabled(s, Deliver(r, h, charged))
    ensures Apply(s, Deliver(r, h, charged)).consumed == s.consumed + {r}
  {
  }

  lemma DeliverLeavesCalls(s: State, r: nat, h: nat, charged: bool)
    requires Enabled(s, Deliver(r, h, charged))
    ensures Apply(s, Deliver(r, h, charged)).calls == s.calls
  {
  }

  lemma DeliverLeavesKeys(s: State, r: nat, h: nat, charged: bool)
    requires Enabled(s, Deliver(r, h, charged))
    ensures Apply(s, Deliver(r, h, charged)).keys == s.keys
  {
  }

  /** What a delivery does to the handlers. */
  predicate HandlersMove(handlers: map<nat, Handler>, handlers': map<nat, Handler>, e: Event, h: nat) {
    if e.OrderCancelled? then handlers' == handlers[h := RestoreRedis(e.order, e.user, e.product, e.quantity)]
    else handlers' == handlers
         || (h in handlers' && handlers' == handlers[h := handlers'[h]] && handlers'[h].WriteVerdict?)
  }

  lemma HandlersAfterDelivery(s: State, r: nat, h: nat, charged: bool)
    requires Enabled(s, Deliver(r, h, charged))
    ensures HandlersMove(s.handlers, Apply(s, Deliver(r, h, charged)).handlers, s.rows[r], h)
  {
    match TopicConsumer(s.rows[r]) {
      case InventoryService => InventoryHandlers(s, r, h, charged);
      case PaymentService => PaymentHandlers(s, r, h, charged);
      case OrderService => OrderHandlers(s, r, h, charged);
    }
  }

  lemma InventoryHandlers(s: State, r: nat, h: nat, charged: bool)
    requires Enabled(s, Deliver(r, h, charged)) && TopicConsumer(s.rows[r]).InventoryService?
    ensures HandlersMove(s.handlers, Apply(s, Deliver(r, h, charged)).handlers, s.rows[r], h)
  {
  }

  lemma PaymentHandlers(s: State, r: nat, h: nat, charged: bool)
    requires Enabled(s, Deliver(r, h, charged)) && TopicConsumer(s.rows[r]).PaymentService?
    ensures HandlersMove(s.handlers, Apply(s, Deliver(r, h, charged)).handlers, s.rows[r], h)
  {
  }

  lemma OrderHandlers(s: State, r: nat, h: nat, charged: bool)
    requires Enabled(s, Deliver(r, h, charged)) && TopicConsumer(s.rows[r]).OrderService?
    ensures HandlersMove(s.handlers, Apply(s, Deliver(r, h, charged)).handlers, s.rows[r], h)
  {
  }

  lemma ContinueLeavesCalls(s: State, h: nat, executed: bool)
    requires Enabled(s, Continue(h, executed))
    ensures Apply(s, Continue(h, executed)).calls == s.calls
  {
  }

  lemma OthersKeepHandlers(s: State, step: Step)
    requires Enabled(s, step) && !step.Continue? && !step.Deliver?
    ensures Apply(s, step).handlers == s.handlers
  {
  }

  lemma ContinueLeavesRows(s: State, h: nat, executed: bool)
    requires Enabled(s, Continue(h, executed))
    ensures var s' := Apply(s, Continue(h, executed)); s'.rows == s.rows && s'.consumed == s.consumed
  {
    ContinueConsumesNothing(s, h, executed);
  }

  lemma ContinueConsumesNothing(s: State, h: nat, executed: bool)
    requires Enabled(s, Continue(h, executed))
    ensures Apply(s, Continue(h, executed)).consumed == s.consumed
  {
  }

  lemma InventoryAfterDelivery(s: State, r: nat, h: nat, charged: bool)
    requires Enabled(s, Deliver(r, h, charged)) && TopicConsumer(s.rows[r]).InventoryService?
    ensures var s' := Apply(s, Deliver(r, h, charged));
            && s'.inventory == InventoryStore.React(s.inventory, s.rows[r]).stock
            && s'.stock == s.stock && s'.orders == s.orders && s'.calls == s.calls
  {
  }

  lemma RestoreAfterDelivery(s: State, r: nat, h: nat, charged: bool)
    requires Enabled(s, Deliver(r, h, charged)) && s.rows[r].OrderCancelled?
    ensures var e, handlers := s.rows[r], Apply(s, Deliver(r, h, charged)).handlers;
            h in handlers && handlers[h] == RestoreRedis(e.order, e.user, e.product, e.quantity)
  {
  }

  lemma RestoreSettles(s: State, h: nat, executed: bool)
    requires h in s.handlers && s.handlers[h].RestoreRedis?
    ensures var s', job := Apply(s, Continue(h, executed)), s.handlers[h];
            && s'.inventory == s.inventory && s'.orders == s.orders && s'.calls == s.calls
            && s'.stock == if executed then AddStock(s.stock, job.product, job.quantity) else s.stock
  {
  }

  /** A delivery adds at most one row, and the delivered row is its cause. */
  lemma EmittedHasCause(s: State, e: Event, charged: bool)
    ensures var out := Emitted(s, e, charged);
            out == [] || (out == [out[0]] && CauseOf(e, out[0]))
  {
  }

  lemma DeliverAppends(s: State, r: nat, h: nat, charged: bool)
    requires Enabled(s, Deliver(r, h, charged))
    ensures var s' := Apply(s, Deliver(r, h, charged));
            && s'.log == s.log
            && (s'.rows == s.rows || exists e :: CauseOf(s.rows[r], e) && s'.rows == s.rows + [e])
  {
    DeliverFrame(s, r, h, charged);
    EmittedHasCause(s, s.rows[r], charged);
    assert s.rows + [] == s.rows;
  }

  lemma OtherAppends(s: State, step: Step)
    requires Enabled(s, step) && !step.Deliver?
    ensures var s' := Apply(s, step);
            && (step.Publish? ==> s'.log == s.log + [step.row] && s'.rows == s.rows)
            && (!step.Publish? ==>
                  && s'.log == s.log
                  && (s'.rows == s.rows || exists e: Event :: e.OrderCreated? && s'.rows == s.rows + [e]))
  {
  }

  lemma {:induction false} RunIsCausal(s0: State, steps: seq<Step>)
    requires Init(s0) && Runs(s0, steps)
    ensures Causal(After(s0, steps).rows, After(s0, steps).log)
    decreases |steps|
  {
    if steps != [] {
      RunIsCausal(s0, Front(steps));
      StepKeepsCausal(After(s0, Front(steps)), Last(steps));
    }
  }

  lemma StepKeepsCausal(s: State, step: Step)
    requires Enabled(s, step) && Causal(s.rows, s.log)
    ensures Causal(Apply(s, step).rows, Apply(s, step).log)
  {
    var s' := Apply(s, step);
    if step.Deliver? {
      DeliverAppends(s, step.row, step.handler, step.charged);
      if s'.rows != s.rows {
        var e :| CauseOf(s.rows[step.row], e) && s'.rows == s.rows + [e];
        DeliveredIsCause(s.rows, s.log, step.row, e);
        AppendKeepsCausal(s.rows, s.log, e);
      }
    } else {
      OtherAppends(s, step);
      if step.Publish? {
        PublishKeepsCausal(s.rows, s.log, step.row);
      } else if s'.rows != s.rows {
        var e: Event :| e.OrderCreated? && s'.rows == s.rows + [e];
        AppendKeepsCausal(s.rows, s.log, e);
      }
    }
  }

  lemma DeliveredIsCause(rows: seq<Event>, log: seq<nat>, r: nat, e: Event)
    requires r in log && r < |rows| && CauseOf(rows[r], e)
    ensures CausedBefore(rows, log, |log|, e)
  {
    var i :| 0 <= i < |log| && log[i] == r;
    assert CauseOf(rows[log[i]], e);
  }

  /** The i-th publication. */
  function Published(s: State, i: nat): Event
    requires i < |s.log| && s.log[i] < |s.rows|
  {
    s.rows[s.log[i]]
  }

  ghost predicate LogPoints(s: State) {
    forall i | 0 <= i < |s.log| :: s.log[i] < |s.rows|
  }

  /** Every publication other than ORDER_CREATED has a cause published strictly before it, in any run. */
  lemma EveryPublicationHasACause(s0: State, steps: seq<Step>, i: nat)
    requires Init(s0) && Runs(s0, steps) && i < |After(s0, steps).log|
    ensures LogPoints(After(s0, steps))
    ensures var s := After(s0, steps);
            Published(s, i).OrderCreated? || exists j :: 0 <= j < i && CauseOf(Published(s, j), Published(s, i))
  {
    RunIsCausal(s0, steps);
    var s := After(s0, steps);
    if !Published(s, i).OrderCreated? {
      assert CausedBefore(s.rows, s.log, i, s.rows[s.log[i]]);
      var j :| 0 <= j < i && s.log[j] < |s.rows| && CauseOf(s.rows[s.log[j]], s.rows[s.log[i]]);
      assert CauseOf(Published(s, j), Published(s, i));
    }
  }

  datatype Kind = Creation | PaymentRequest | Failure

  predicate IsOf(e: Event, kind: Kind) {
    match kind
    case Creation => e.OrderCreated?
    case PaymentRequest => e.PaymentRequested?
    case Failure => e.StockDeductFailed? || e.PaymentFailed?
  }

  /** A message of the order, of the given kind, among the publications before n. */
  ghost predicate PublishedBefore(s: State, n: nat, no: OrderNo, kind: Kind)
    requires LogPoints(s) && n <= |s.log|
  {
    exists j :: 0 <= j < n && Published(s, j).order == no && IsOf(Published(s, j), kind)
  }

  /** Causal publication order of one order's messages: before a PAYMENT_REQUESTED comes its ORDER_CREATED, before
      an ORDER_COMPLETED its PAYMENT_REQUESTED (and so its ORDER_CREATED), and before an ORDER_CANCELLED a
      STOCK_DEDUCT_FAILED or a PAYMENT_FAILED. Relays may skip rows, and publish and deliver them any number of
      times. */
  lemma PublicationOrder(s0: State, steps: seq<Step>, i: nat)
    requires Init(s0) && Runs(s0, steps) && i < |After(s0, steps).log|
    ensures LogPoints(After(s0, steps))
    ensures var s := After(s0, steps);
            var e := Published(s, i);
            match e
            case PaymentRequested(no, _, _) => PublishedBefore(s, i, no, Creation)
            case OrderCompleted(no, _, _) =>
              && PublishedBefore(s, i, no, Creation)
              && PublishedBefore(s, i, no, PaymentRequest)
            case OrderCancelled(no, _, _, _) =>
              && PublishedBefore(s, i, no, Creation)
              && PublishedBefore(s, i, no, Failure)
            case _ => true
  {
    EveryPublicationHasACause(s0, steps, i);
    var s := After(s0, steps);
    var e := Published(s, i);
    if !e.OrderCreated? {
      var j := CauseAt(s0, steps, i);
      FirstCause(s0, steps, i);
      var c := Published(s, j);
      if c.PaymentSucceeded? {
        var k := CauseAt(s0, steps, j);
        assert Published(s, k).order == e.order && Published(s, k).PaymentRequested?;
      }
    }
  }

  lemma CauseAt(s0: State, steps: seq<Step>, i: nat) returns (j: nat)
    requires Init(s0) && Runs(s0, steps) && i < |After(s0, steps).log|
    requires LogPoints(After(s0, steps)) && !Published(After(s0, steps), i).OrderCreated?
    ensures j < i && CauseOf(Published(After(s0, steps), j), Published(After(s0, steps), i))
  {
    EveryPublicationHasACause(s0, steps, i);
    var s := After(s0, steps);
    j :| 0 <= j < i && CauseOf(Published(s, j), Published(s, i));
  }

  /** Following causes backwards always ends at the ORDER_CREATED of the same order. */
  lemma {:induction false} FirstCause(s0: State, steps: seq<Step>, i: nat)
    requires Init(s0) && Runs(s0, steps) && i < |After(s0, steps).log|
    requires LogPoints(After(s0, steps)) && !Published(After(s0, steps), i).OrderCreated?
    ensures PublishedBefore(After(s0, steps), i, Published(After(s0, steps), i).order, Creation)
    decreases i
  {
    var s := After(s0, steps);
    var j := CauseAt(s0, steps, i);
    if !Published(s, j).OrderCreated? {
      FirstCause(s0, steps, j);
      var k :| 0 <= k < j && Published(s, k).order == Published(s, j).order && IsOf(Published(s, k), Creation);
      assert Published(s, k).order == Published(s, i).order;
    }
  }

  // ---------------------------------------------------------------- the order outbox as a log of statuses

  /** The status an order-service row reports. */
  function ReportedStatus(e: Event): Option<OrderStore.Status> {
    match e
    case OrderCreated(_, _, _, _, _) => Some(OrderStore.Pending)
    case PaymentRequested(_, _, _) => Some(OrderStore.AwaitingPayment)
    case OrderCompleted(_, _, _) => Some(OrderStore.Paid)
    case OrderCancelled(_, _, _, _) => Some(OrderStore.Cancelled)
    case _ => None
  }

  /** Replaying the outbox rows of one order, oldest first: the last reported status stands. */
  function Replay(rows: seq<Event>, no: OrderNo): Option<OrderStore.Status> {
    if rows == [] then None
    else
      var last := rows[|rows| - 1];
      if last.order == no && ReportedStatus(last).Some? then ReportedStatus(last) else Replay(rows[..|rows| - 1], no)
  }

  lemma ReplayAppend(rows: seq<Event>, e: Event, no: OrderNo)
    ensures Replay(rows + [e], no)
            == if e.order == no && ReportedStatus(e).Some? then ReportedStatus(e) else Replay(rows, no)
  {
    assert (rows + [e])[..|rows|] == rows;
  }

  /** The status column is what a replay of the outbox gives, for every order and every non-order. */
  ghost predicate Faithful(orders: OrderStore.Orders, rows: seq<Event>) {
    forall no: OrderNo :: Replay(rows, no) == if no in orders then Some(orders[no].status) else None
  }

  /** A transaction that writes a status writes the row that reports it; other transactions report nothing. */
  ghost predicate Reports(orders: OrderStore.Orders, rows: seq<Event>, orders': OrderStore.Orders, rows': seq<Event>) {
    || (orders' == orders && rows' == rows)
    || exists e ::
         && rows' == rows + [e]
         && (if ReportedStatus(e).None? then orders' == orders
             else e.order in orders' && orders' == orders[e.order := orders'[e.order]]
                  && Some(orders'[e.order].status) == ReportedStatus(e))
  }

  lemma ReportsKeepFaith(orders: OrderStore.Orders, rows: seq<Event>, orders': OrderStore.Orders, rows': seq<Event>)
    requires Faithful(orders, rows) && Reports(orders, rows, orders', rows')
    ensures Faithful(orders', rows')
  {
    if rows' != rows || orders' != orders {
      var e :| && rows' == rows + [e]
               && (if ReportedStatus(e).None? then orders' == orders
                   else e.order in orders' && orders' == orders[e.order := orders'[e.order]]
                        && Some(orders'[e.order].status) == ReportedStatus(e));
      forall no: OrderNo ensures Replay(rows', no) == if no in orders' then Some(orders'[no].status) else None {
        ReplayAppend(rows, e, no);
      }
    }
  }

  lemma EmittedReports(s: State, e: Event, charged: bool)
    ensures var orders' := if TopicConsumer(e).OrderService? then OrderStore.React(s.orders, e).orders else s.orders;
            var out := Emitted(s, e, charged);
            || (orders' == s.orders && out == [])
            || (out == [out[0]]
                && if ReportedStatus(out[0]).None? then orders' == s.orders
                   else out[0].order in orders' && orders' == s.orders[out[0].order := orders'[out[0].order]]
                        && Some(orders'[out[0].order].status) == ReportedStatus(out[0]))
  {
  }

  lemma DeliverReports(s: State, r: nat, h: nat, charged: bool)
    requires Enabled(s, Deliver(r, h, charged))
    ensures var s' := Apply(s, Deliver(r, h, charged)); Reports(s.orders, s.rows, s'.orders, s'.rows)
  {
    DeliverFrame(s, r, h, charged);
    EmittedReports(s, s.rows[r], charged);
    assert s.rows + [] == s.rows;
  }

  lemma OtherReports(s: State, step: Step)
    requires Enabled(s, step) && !step.Deliver?
    ensures var s' := Apply(s, step); Reports(s.orders, s.rows, s'.orders, s'.rows)
  {
    if step.Transact? && Commits(s, s.calls[step.call], step.order, step.failed) {
      var call := s.calls[step.call];
      var e := OrderCreated(step.order, call.user, call.product, call.quantity, NewOrder(call).total);
      assert Apply(s, step).rows == s.rows + [e];
    } else {
      assert Apply(s, step).orders == s.orders && Apply(s, step).rows == s.rows;
    }
  }

  /** The order outbox is a faithful log: in every reachable state, whatever was lost, repeated or reordered,
      replaying an order's outbox rows gives exactly its status. */
  lemma {:induction false} OutboxIsFaithful(s0: State, steps: seq<Step>)
    requires Init(s0) && Runs(s0, steps)
    ensures Faithful(After(s0, steps).orders, After(s0, steps).rows)
    decreases |steps|
  {
    if steps != [] {
      OutboxIsFaithful(s0, Front(steps));
      var s, step := After(s0, Front(steps)), Last(steps);
      if step.Deliver? {
        DeliverReports(s, step.row, step.handler, step.charged);
      } else {
        OtherReports(s, step);
      }
      ReportsKeepFaith(s.orders, s.rows, Apply(s, step).orders, Apply(s, step).rows);
    }
  }
}

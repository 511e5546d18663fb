/** Runs in which messages may be repeated. Handlers do not look at event ids, so a repeated message runs its effects
    again. This module says which kinds of messages a run repeats, and when a step keeps the documented status
    machine. */
module SagaRepeats {
  import opened Events
  import opened SagaProtocol
  import opened SagaAnyDelivery
  import OrderStore
  import InventoryStore

  // ---------------------------------------------------------------- the documented status machine, in any state

  /** The moves the design document draws: 0 to 1, 0 to 3, 1 to 2 and 1 to 3. */
  predicate DocumentedMove(a: OrderStore.Status, b: OrderStore.Status) {
    a == b || (a.Pending? && (b.AwaitingPayment? || b.Cancelled?)) || (a.AwaitingPayment? && (b.Paid? || b.Cancelled?))
  }

  /** Every order stays and moves along the machine. */
  ghost predicate KeepsMachine(s: State, s': State) {
    forall no | no in s.orders :: no in s'.orders && DocumentedMove(s.orders[no].status, s'.orders[no].status)
  }

  /** The message arrives at an order whose status it must not touch. */
  predicate Disrupts(orders: OrderStore.Orders, e: Event) {
    e.order in orders &&
    var status := orders[e.order].status;
    match e
    case StockDeducted(_, _, _) => status.Paid? || status.Cancelled?
    case PaymentSucceeded(_, _) => status.Pending? || status.Cancelled?
    case StockDeductFailed(_, _) | PaymentFailed(_, _) => status.Paid?
    case _ => false
  }

  lemma ReactionKeepsMachine(orders: OrderStore.Orders, e: Event)
    ensures var orders' := OrderStore.React(orders, e).orders;
            (forall no | no in orders :: no in orders' && DocumentedMove(orders[no].status, orders'[no].status))
            <==> !Disrupts(orders, e)
  {
    var orders' := OrderStore.React(orders, e).orders;
    if Disrupts(orders, e) {
      assert e.order in orders && !DocumentedMove(orders[e.order].status, orders'[e.order].status);
    }
  }

  lemma OthersKeepOrders(s: State, step: Step)
    requires Enabled(s, step) && !step.Deliver?
    ensures forall no | no in s.orders :: no in Apply(s, step).orders && Apply(s, step).orders[no] == s.orders[no]
  {
    if !step.Transact? {
      assert Apply(s, step).orders == s.orders;
    }
  }

  /** In any state at all, a step keeps the machine exactly if it does not deliver a message to an order that has
      already gone past, or not yet reached, the status the message is about. */
  lemma StepKeepsMachine(s: State, step: Step)
    requires Enabled(s, step)
    ensures KeepsMachine(s, Apply(s, step)) <==> !(step.Deliver? && Disrupts(s.orders, s.rows[step.row]))
  {
    if step.Deliver? {
      OrdersAfterDelivery(s, step.row, step.handler, step.charged);
      ReactionKeepsMachine(s.orders, s.rows[step.row]);
    } else {
      OthersKeepOrders(s, step);
    }
  }

  /** Every step of the run kept the machine. */
  ghost predicate MachineKept(s0: State, steps: seq<Step>)
    requires Runs(s0, steps)
    decreases |steps|
  {
    steps == [] || (MachineKept(s0, Front(steps)) && KeepsMachine(After(s0, Front(steps)), After(s0, steps)))
  }

  // ---------------------------------------------------------------- which messages a run repeats

  datatype MessageKind =
    Creations | Requests | Completions | Cancellations | Deductions | Shortages | Successes | Failures

  function KindOf(e: Event): MessageKind {
    match e
    case OrderCreated(_, _, _, _, _) => Creations
    case PaymentRequested(_, _, _) => Requests
    case OrderCompleted(_, _, _) => Completions
    case OrderCancelled(_, _, _, _) => Cancellations
    case StockDeducted(_, _, _) => Deductions
    case StockDeductFailed(_, _) => Shortages
    case PaymentSucceeded(_, _) => Successes
    case PaymentFailed(_, _) => Failures
  }

  /** If the step delivers a row again, the row is of one of the kinds. */
  predicate RepeatsKind(s: State, step: Step, kinds: set<MessageKind>)
    requires Enabled(s, step)
  {
    step.Deliver? && step.row in s.consumed ==> KindOf(s.rows[step.row]) in kinds
  }

  /** Rows of these kinds may be delivered any number of times, all others at most once. */
  predicate RepeatsOnly(s0: State, steps: seq<Step>, kinds: set<MessageKind>)
    requires Runs(s0, steps)
    decreases |steps|
  {
    steps == [] || (RepeatsOnly(s0, Front(steps), kinds) && RepeatsKind(After(s0, Front(steps)), Last(steps), kinds))
  }

  lemma {:induction false} NoRepeatsIsOnce(s0: State, steps: seq<Step>)
    requires Runs(s0, steps)
    ensures RepeatsOnly(s0, steps, {}) <==> AtMostOnce(s0, steps)
    decreases |steps|
  {
    if steps != [] {
      NoRepeatsIsOnce(s0, Front(steps));
    }
  }

  lemma {:induction false} MoreKinds(s0: State, steps: seq<Step>, kinds: set<MessageKind>, more: set<MessageKind>)
    requires Runs(s0, steps) && RepeatsOnly(s0, steps, kinds) && kinds <= more
    ensures RepeatsOnly(s0, steps, more)
    decreases |steps|
  {
    if steps != [] {
      MoreKinds(s0, Front(steps), kinds, more);
    }
  }

  /** The messages that hand an order over to the next service: creation, deduction and payment request. */
  const HANDOVERS: set<MessageKind> := {Creations, Deductions, Requests}
}

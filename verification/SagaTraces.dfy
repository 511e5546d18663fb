/** What the outbox rows left by a run tell about it, whatever was repeated: that an order has left the status machine,
    or has been charged twice. */
module SagaTraces {
  import opened Events
  import opened SagaProtocol
  import opened SagaAnyDelivery
  import opened SagaRepeats
  import opened SagaTrails
  import OrderStore

  // ---------------------------------------------------------------- rows grow

  /** Steps only append rows, and only a delivery consumes one. */
  lemma RowsGrow(s: State, step: Step)
    requires Enabled(s, step)
    ensures var s' := Apply(s, step);
            && s.rows <= s'.rows
            && s'.consumed == if step.Deliver? then s.consumed + {step.row} else s.consumed
  {
    if step.Deliver? {
      DeliveryGrowsRows(s, step.row, step.handler, step.charged);
    } else if step.Continue? {
      ContinueLeavesRows(s, step.handler, step.executed);
    }
  }

  lemma DeliveryGrowsRows(s: State, r: nat, h: nat, charged: bool)
    requires Enabled(s, Deliver(r, h, charged))
    ensures var s' := Apply(s, Deliver(r, h, charged)); s.rows <= s'.rows && s'.consumed == s.consumed + {r}
  {
    DeliverFrame(s, r, h, charged);
    DeliveryConsumes(s, r, h, charged);
  }

  // ---------------------------------------------------------------- completed orders

  ghost predicate CompletedArePaid(rows: seq<Event>, orders: OrderStore.Orders) {
    forall r | 0 <= r < |rows| && rows[r].OrderCompleted? ::
      rows[r].order in orders && orders[rows[r].order].status.Paid?
  }

  /** An ORDER_COMPLETED is written for an order that has just been paid. */
  lemma CompletionIsOfPaid(s: State, r: nat, h: nat, charged: bool)
    requires Enabled(s, Deliver(r, h, charged))
    ensures var s', x := Apply(s, Deliver(r, h, charged)), Emitted(s, s.rows[r], charged);
            && |x| <= 1
            && forall e | e in x && e.OrderCompleted? :: e.order in s'.orders && s'.orders[e.order].status.Paid?
  {
    OrdersAfterDelivery(s, r, h, charged);
  }

  lemma OthersCompleteNothing(s: State, step: Step)
    requires Enabled(s, step) && !step.Deliver?
    ensures var s' := Apply(s, step);
            && (s'.rows == s.rows
                || (|s'.rows| == |s.rows| + 1 && s.rows <= s'.rows && s'.rows[|s.rows|].OrderCreated?))
            && forall no | no in s.orders :: no in s'.orders && s'.orders[no] == s.orders[no]
  {
    if step.Transact? && Commits(s, s.calls[step.call], step.order, step.failed) {
      assert step == Transact(step.call, step.order, false);
      CommitEffect(s, step.call, step.order);
    } else {
      OthersLeaveOrders(s, step);
    }
  }

  lemma StepCompletes(s: State, step: Step)
    requires Enabled(s, step) && CompletedArePaid(s.rows, s.orders) && KeepsMachine(s, Apply(s, step))
    ensures CompletedArePaid(Apply(s, step).rows, Apply(s, step).orders)
  {
    if step.Deliver? {
      DeliverFrame(s, step.row, step.handler, step.charged);
      CompletionIsOfPaid(s, step.row, step.handler, step.charged);
    } else {
      OthersCompleteNothing(s, step);
    }
  }

  /** As long as a run keeps the machine, the orders that have an ORDER_COMPLETED are paid. */
  lemma {:induction false} CompletedIsPaid(s0: State, steps: seq<Step>)
    requires Init(s0) && Runs(s0, steps) && MachineKept(s0, steps)
    ensures CompletedArePaid(After(s0, steps).rows, After(s0, steps).orders)
    decreases |steps|
  {
    if steps != [] {
      LastStep(s0, steps);
      CompletedIsPaid(s0, Front(steps));
      StepCompletes(After(s0, Front(steps)), Last(steps));
    }
  }

  // ---------------------------------------------------------------- payments and their results

  /** The row reports a payment of the order. */
  predicate IsResult(e: Event, no: OrderNo) {
    (e.PaymentSucceeded? || e.PaymentFailed?) && e.order == no
  }

  function ResultsOf(rows: seq<Event>, no: OrderNo): nat {
    if rows == [] then 0
    else ResultsOf(rows[..|rows| - 1], no) + (if IsResult(rows[|rows| - 1], no) then 1 else 0)
  }

  function ChargesOf(payments: seq<Payment>, no: OrderNo): nat {
    if payments == [] then 0
    else ChargesOf(payments[..|payments| - 1], no) + (if payments[|payments| - 1].order == no then 1 else 0)
  }

  lemma ResultsPush(rows: seq<Event>, e: Event, no: OrderNo)
    ensures ResultsOf(rows + [e], no) == ResultsOf(rows, no) + (if IsResult(e, no) then 1 else 0)
  {
    assert (rows + [e])[..|rows|] == rows;
  }

  lemma ChargesPush(payments: seq<Payment>, pay: Payment, no: OrderNo)
    ensures ChargesOf(payments + [pay], no) == ChargesOf(payments, no) + (if pay.order == no then 1 else 0)
  {
    assert (payments + [pay])[..|payments|] == payments;
  }

  lemma DeliveryReportsPayments(s: State, r: nat, h: nat, charged: bool, no: OrderNo)
    requires Enabled(s, Deliver(r, h, charged)) && ChargesOf(s.payments, no) == ResultsOf(s.rows, no)
    ensures var s' := Apply(s, Deliver(r, h, charged)); ChargesOf(s'.payments, no) == ResultsOf(s'.rows, no)
  {
    var e := s.rows[r];
    DeliverFrame(s, r, h, charged);
    PaymentsAfterDelivery(s, r, h, charged);
    EmittedIsShort(s, e, charged);
    var x := Emitted(s, e, charged);
    if x == [] {
      assert s.rows + x == s.rows && s.payments + [] == s.payments;
    } else {
      ResultsPush(s.rows, x[0], no);
      assert s.payments + [] == s.payments;
      if e.PaymentRequested? {
        ChargesPush(s.payments, Payment(e.order, e.user, e.amount, charged), no);
      }
    }
  }

  lemma EmittedIsShort(s: State, e: Event, charged: bool)
    ensures var x := Emitted(s, e, charged);
            x == [] || (x == [x[0]] && (IsResult(x[0], x[0].order) <==> e.PaymentRequested?) && x[0].order == e.order)
    ensures e.PaymentRequested? ==> Emitted(s, e, charged) != []
  {
  }

  /** Every payment row has its own result row, in any run. */
  lemma {:induction false} EveryChargeIsReported(s0: State, steps: seq<Step>, no: OrderNo)
    requires Init(s0) && Runs(s0, steps)
    ensures ChargesOf(After(s0, steps).payments, no) == ResultsOf(After(s0, steps).rows, no)
    decreases |steps|
  {
    if steps != [] {
      LastStep(s0, steps);
      EveryChargeIsReported(s0, Front(steps), no);
      var s, step := After(s0, Front(steps)), Last(steps);
      if step.Deliver? {
        DeliveryReportsPayments(s, step.row, step.handler, step.charged, no);
      } else {
        OthersPayNothing(s, step);
        OthersCompleteNothing(s, step);
        var rows := Apply(s, step).rows;
        if rows != s.rows {
          assert rows == s.rows + [rows[|s.rows|]];
          ResultsPush(s.rows, rows[|s.rows|], no);
        }
      }
    }
  }

  lemma {:induction false} ResultsCounted(rows: seq<Event>, no: OrderNo, ks: set<nat>)
    requires forall k | k in ks :: k < |rows| && IsResult(rows[k], no)
    ensures ResultsOf(rows, no) >= |ks|
    decreases |rows|
  {
    if rows == [] {
      assert ks == {};
    } else {
      var last := |rows| - 1;
      forall k | k in ks - {last} ensures k < last && IsResult(rows[..last][k], no) {
      }
      ResultsCounted(rows[..last], no, ks - {last});
    }
  }

  lemma {:induction false} OneCharge(payments: seq<Payment>, no: OrderNo)
    requires OnePayment(payments)
    ensures ChargesOf(payments, no) <= 1
    ensures (forall i | 0 <= i < |payments| :: payments[i].order != no) ==> ChargesOf(payments, no) == 0
    decreases |payments|
  {
    if payments != [] {
      OneCharge(payments[..|payments| - 1], no);
    }
  }

  /** Two result rows of an order mean two payments for it. */
  lemma TwoResultsTwoPayments(s0: State, steps: seq<Step>, no: OrderNo, i: nat, j: nat)
    requires Init(s0) && Runs(s0, steps) && i < j < |After(s0, steps).rows|
    requires IsResult(After(s0, steps).rows[i], no) && IsResult(After(s0, steps).rows[j], no)
    ensures !OnePayment(After(s0, steps).payments)
  {
    EveryChargeIsReported(s0, steps, no);
    ResultsCounted(After(s0, steps).rows, no, {i, j});
    if OnePayment(After(s0, steps).payments) {
      OneCharge(After(s0, steps).payments, no);
    }
  }
}

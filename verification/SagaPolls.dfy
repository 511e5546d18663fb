/** What clients who poll for their order are told: when the answer is final, and how a slow Seckill call can hide
    it. */
module SagaPolls {
  import opened Events
  import opened SagaProtocol
  import opened SagaLedger
  import opened SagaInvariant
  import opened SagaSafety
  import opened SagaKeys
  import opened SagaRepeats
  import opened SagaTrails
  import opened SagaAnyDelivery
  import OrderStore
  import InventoryStore

  // ---------------------------------------------------------------- the call of an order

  /** The order a call has created. */
  function Served(call: Call): Option<OrderNo> {
    match call.pc
    case WritePending(no) => Some(no)
    case Done(Accepted(no)) => Some(no)
    case _ => None
  }

  /** Every order was created by exactly one call, which has yet to write PENDING or is done. */
  ghost predicate OneCallEach(orders: OrderStore.Orders, calls: map<nat, Call>) {
    && (forall c | c in calls && Served(calls[c]).Some? :: Served(calls[c]).value in orders)
    && (forall c, d | c in calls && d in calls && c != d && Served(calls[c]).Some? ::
          Served(calls[c]) != Served(calls[d]))
    && (forall no | no in orders :: exists c :: c in calls && Served(calls[c]) == Some(no))
  }

  /** A call that moves without creating an order serves what it served. */
  lemma JumpServes(orders: OrderStore.Orders, calls: map<nat, Call>, c: nat, call: Call)
    requires OneCallEach(orders, calls) && Served(call) == if c in calls then Served(calls[c]) else None
    ensures OneCallEach(orders, calls[c := call])
  {
    var calls' := calls[c := call];
    forall no | no in orders ensures exists d :: d in calls' && Served(calls'[d]) == Some(no) {
      var d :| d in calls && Served(calls[d]) == Some(no);
      assert Served(calls'[d]) == Some(no);
    }
  }

  lemma CommitServes(orders: OrderStore.Orders, calls: map<nat, Call>, c: nat, call: Call, no: OrderNo,
                     o: OrderStore.Order)
    requires OneCallEach(orders, calls) && c in calls && Served(calls[c]).None? && no !in orders
             && Served(call) == Some(no)
    ensures OneCallEach(orders[no := o], calls[c := call])
  {
    var calls' := calls[c := call];
    forall n | n in orders[no := o] ensures exists d :: d in calls' && Served(calls'[d]) == Some(n) {
      if n == no {
        assert Served(calls'[c]) == Some(no);
      } else {
        var d :| d in calls && Served(calls[d]) == Some(n);
        assert Served(calls'[d]) == Some(n);
      }
    }
  }

  lemma CallStepServes(s: State, step: Step)
    requires Enabled(s, step) && CallStep(step)
    ensures var s' := Apply(s, step);
            && s'.orders == s.orders && step.call in s'.calls && s'.calls == s.calls[step.call := s'.calls[step.call]]
            && Served(s'.calls[step.call]) == if step.call in s.calls then Served(s.calls[step.call]) else None
  {
  }

  lemma OthersLeaveCalls(s: State, step: Step)
    requires Enabled(s, step) && !CallStep(step) && !step.Transact?
    ensures Apply(s, step).calls == s.calls
  {
    if step.Deliver? {
      DeliverLeavesCalls(s, step.row, step.handler, step.charged);
    } else if step.Continue? {
      ContinueLeavesCalls(s, step.handler, step.executed);
    }
  }

  lemma OthersLeaveNumbers(s: State, step: Step)
    requires Enabled(s, step) && !step.Transact?
    ensures Apply(s, step).orders.Keys == s.orders.Keys
  {
    if step.Deliver? {
      DeliverKeepsOrders(s, step.row, step.handler, step.charged);
    } else {
      assert Apply(s, step).orders == s.orders;
    }
  }

  lemma OneCallEachStays(orders: OrderStore.Orders, orders': OrderStore.Orders, calls: map<nat, Call>)
    requires OneCallEach(orders, calls) && orders'.Keys == orders.Keys
    ensures OneCallEach(orders', calls)
  {
  }

  lemma StepServes(s: State, step: Step)
    requires Enabled(s, step) && OneCallEach(s.orders, s.calls)
    ensures OneCallEach(Apply(s, step).orders, Apply(s, step).calls)
  {
    if CallStep(step) {
      CallStepServes(s, step);
      JumpServes(s.orders, s.calls, step.call, Apply(s, step).calls[step.call]);
    } else if step.Transact? {
      var c, no := step.call, step.order;
      TransactEffect(s, EMPTY_LEDGER, c, no, step.failed);
      if Commits(s, s.calls[c], no, step.failed) {
        CommitServes(s.orders, s.calls, c, s.calls[c].(pc := WritePending(no)), no, NewOrder(s.calls[c]));
      } else {
        JumpServes(s.orders, s.calls, c, s.calls[c].(pc := RollBackRedis));
      }
    } else {
      OthersLeaveCalls(s, step);
      OthersLeaveNumbers(s, step);
      OneCallEachStays(s.orders, Apply(s, step).orders, s.calls);
    }
  }

  /** In every run, however messages are delivered, each order belongs to exactly one call. */
  lemma {:induction false} OneCallPerOrder(s0: State, steps: seq<Step>)
    requires Init(s0) && Runs(s0, steps)
    ensures OneCallEach(After(s0, steps).orders, After(s0, steps).calls)
    decreases |steps|
  {
    if steps != [] {
      OneCallPerOrder(s0, Front(steps));
      StepServes(After(s0, Front(steps)), Last(steps));
    }
  }

  // ---------------------------------------------------------------- when an answer is final

  /** The call still has to write PENDING for the order. */
  predicate OwesPending(call: Call, no: OrderNo) {
    call.pc == WritePending(no)
  }

  /** What a step can do to the stored result of an order. */
  lemma ResultsAfter(s: State, step: Step, no: OrderNo)
    requires Enabled(s, step) && no in Apply(s, step).results
    ensures var result := Apply(s, step).results[no];
            || (no in s.results && s.results[no] == result)
            || (step.SetPending? && OwesPending(s.calls[step.call], no))
            || (exists h :: h in s.handlers && s.handlers[h] == WriteVerdict(no, result))
  {
    if step.Continue? {
      ContinueResults(s, step.handler, step.executed, no);
    } else if step.Deliver? {
      DeliverWritesNoResult(s, step.row, step.handler, step.charged);
    } else if !step.SetPending? && !step.ExpireResult? {
      OthersWriteNoResult(s, step);
    }
  }

  lemma ContinueResults(s: State, h: nat, executed: bool, no: OrderNo)
    requires Enabled(s, Continue(h, executed)) && no in Apply(s, Continue(h, executed)).results
    ensures var result := Apply(s, Continue(h, executed)).results[no];
            (no in s.results && s.results[no] == result) || s.handlers[h] == WriteVerdict(no, result)
  {
  }

  lemma OthersWriteNoResult(s: State, step: Step)
    requires Enabled(s, step)
    requires !step.Continue? && !step.Deliver? && !step.SetPending? && !step.ExpireResult?
    ensures Apply(s, step).results == s.results
  {
  }

  /** Only a call that commits an order comes to owe it PENDING. */
  lemma OwesAfter(s: State, step: Step, c: nat, no: OrderNo)
    requires Enabled(s, step) && c in Apply(s, step).calls && OwesPending(Apply(s, step).calls[c], no)
    ensures no !in s.orders || (c in s.calls && OwesPending(s.calls[c], no))
  {
    if CallStep(step) {
      CallStepOwes(s, step);
    } else if step.Transact? {
      TransactEffect(s, EMPTY_LEDGER, step.call, step.order, step.failed);
    } else {
      OthersLeaveCalls(s, step);
    }
  }

  lemma CallStepOwes(s: State, step: Step)
    requires Enabled(s, step) && CallStep(step)
    ensures var s' := Apply(s, step);
            && step.call in s'.calls && s'.calls == s.calls[step.call := s'.calls[step.call]]
            && !s'.calls[step.call].pc.WritePending?
  {
  }

  /** The order is paid or cancelled, Redis says nothing else, and no call owes it PENDING. */
  ghost predicate Told(s: State, no: OrderNo, verdict: OrderStore.Verdict) {
    && no in s.orders && !verdict.InProgress? && OrderStore.VerdictOf(s.orders[no].status) == verdict
    && (no in s.results ==> s.results[no] == verdict)
    && (forall c | c in s.calls :: !OwesPending(s.calls[c], no))
  }

  lemma ToldStays(s0: State, s: State, g: Ledger, step: Step, no: OrderNo, verdict: OrderStore.Verdict)
    requires Reachable(s0, s, g) && Enabled(s, step) && FirstDelivery(s, step) && Told(s, no, verdict)
    ensures Told(Apply(s, step), no, verdict)
  {
    var s' := Apply(s, step);
    StatusStep(s0, s, g, step, no);
    ReachableAgrees(s0, s, g);
    if no in s'.results {
      ResultsAfter(s, step, no);
    }
    forall c | c in s'.calls ensures !OwesPending(s'.calls[c], no) {
      if OwesPending(s'.calls[c], no) {
        OwesAfter(s, step, c, no);
      }
    }
  }

  lemma {:induction false} ToldForGood(s0: State, s: State, g: Ledger, more: seq<Step>, no: OrderNo,
                                       verdict: OrderStore.Verdict)
    returns (g': Ledger)
    requires Reachable(s0, s, g) && Told(s, no, verdict) && Runs(s, more) && AtMostOnce(s, more)
    ensures Reachable(s0, After(s, more), g') && Told(After(s, more), no, verdict)
    decreases |more|
  {
    if more == [] {
      g' := g;
    } else {
      LastStep(s, more);
      LastOnce(s, more);
      var g1 := ToldForGood(s0, s, g, Front(more), no, verdict);
      ToldStays(s0, After(s, Front(more)), g1, Last(more), no, verdict);
      ReachNext(s0, After(s, Front(more)), g1, Last(more));
      g' := Follow(After(s, Front(more)), g1, Last(more));
    }
  }

  /** The poll answers the verdict now and after any further run, whether or not Redis answers it. */
  ghost predicate AnswersForGood(s: State, no: OrderNo, verdict: OrderStore.Verdict) {
    forall more, redisFails: bool | Runs(s, more) && AtMostOnce(s, more) ::
      OrderStore.Poll(After(s, more).results, After(s, more).orders, no, redisFails) == verdict
  }

  /** A PENDING that is still owed hides the verdict when it is written. */
  lemma OwedPendingHides(s: State, c: nat, no: OrderNo)
    requires c in s.calls && OwesPending(s.calls[c], no)
    ensures Runs(s, [SetPending(c, true)]) && AtMostOnce(s, [SetPending(c, true)])
    ensures var s' := After(s, [SetPending(c, true)]);
            OrderStore.Poll(s'.results, s'.orders, no, false) == OrderStore.InProgress
  {
    var none: seq<Step> := [];
    assert Runs(s, none) && AtMostOnce(s, none) && After(s, none) == s;
    Extend(s, none, SetPending(c, true));
    ExtendOnce(s, none, SetPending(c, true));
    assert none + [SetPending(c, true)] == [SetPending(c, true)];
  }

  /** After the verdict of an order has been written, polls answer it from then on, through any Redis failures and
      expiries, exactly if the Seckill call that created the order was already done at that moment. */
  lemma PollIsFinalExactly(s0: State, s: State, g: Ledger, h: nat)
    requires Reachable(s0, s, g) && h in s.handlers && s.handlers[h].WriteVerdict?
    ensures var no, verdict := s.handlers[h].order, s.handlers[h].verdict;
            AnswersForGood(Apply(s, Continue(h, true)), no, verdict)
            <==> forall c | c in s.calls && Served(s.calls[c]) == Some(no) :: s.calls[c].pc.Done?
  {
    var no, verdict, s' := s.handlers[h].order, s.handlers[h].verdict, Apply(s, Continue(h, true));
    ReachableAgrees(s0, s, g);
    ReachNext(s0, s, g, Continue(h, true));
    VerdictIsStored(s, h);
    if c :| c in s.calls && Served(s.calls[c]) == Some(no) && !s.calls[c].pc.Done? {
      OwedPendingHides(s', c, no);
      var more := [SetPending(c, true)];
      assert OrderStore.Poll(After(s', more).results, After(s', more).orders, no, false) != verdict;
    } else {
      NobodyOwes(s.calls, no);
      assert Told(s', no, verdict);
      forall more, redisFails: bool | Runs(s', more) && AtMostOnce(s', more)
        ensures OrderStore.Poll(After(s', more).results, After(s', more).orders, no, redisFails) == verdict
      {
        var g' := ToldForGood(s0, s', Follow(s, g, Continue(h, true)), more, no, verdict);
      }
    }
  }

  lemma NobodyOwes(calls: map<nat, Call>, no: OrderNo)
    requires forall c | c in calls && Served(calls[c]) == Some(no) :: calls[c].pc.Done?
    ensures forall c | c in calls :: !OwesPending(calls[c], no)
  {
  }

  lemma VerdictIsStored(s: State, h: nat)
    requires h in s.handlers && s.handlers[h].WriteVerdict?
    ensures var s' := Apply(s, Continue(h, true));
            && s'.results == s.results[s.handlers[h].order := s.handlers[h].verdict]
            && s'.orders == s.orders && s'.calls == s.calls
  {
  }

  // ---------------------------------------------------------------- what polls answer in the end

  /** The step writes the verdict of the order. */
  predicate WritesVerdict(s: State, step: Step, no: OrderNo) {
    && step.Continue? && step.executed
    && step.handler in s.handlers && s.handlers[step.handler].WriteVerdict? && s.handlers[step.handler].order == no
  }

  /** The step writes PENDING for the order. */
  predicate WritesPending(s: State, step: Step, no: OrderNo) {
    step.SetPending? && step.executed && step.call in s.calls && OwesPending(s.calls[step.call], no)
  }

  /** The run has written the verdict of the order. */
  predicate VerdictWritten(s0: State, steps: seq<Step>, no: OrderNo)
    requires Runs(s0, steps)
    decreases |steps|
  {
    steps != [] &&
    (VerdictWritten(s0, Front(steps), no) || WritesVerdict(After(s0, Front(steps)), Last(steps), no))
  }

  /** PENDING was written after the verdict, and the stored result has not expired since. */
  predicate Overtaken(s0: State, steps: seq<Step>, no: OrderNo)
    requires Runs(s0, steps)
    decreases |steps|
  {
    steps != [] &&
    var s, step := After(s0, Front(steps)), Last(steps);
    if WritesPending(s, step, no) then VerdictWritten(s0, Front(steps), no)
    else if WritesVerdict(s, step, no) || step == ExpireResult(no) then false
    else Overtaken(s0, Front(steps), no)
  }

  predicate Decided(status: OrderStore.Status) {
    status.Paid? || status.Cancelled?
  }

  /** The stored result is PENDING, once the verdict has been written, exactly if it was overtaken; and the verdict of
      a decided order has been written or is about to be. */
  ghost predicate Recorded(s: State, no: OrderNo, written: bool, overtaken: bool) {
    && (overtaken ==> no in s.results && s.results[no].InProgress?)
    && (written && no in s.results && s.results[no].InProgress? ==> overtaken)
    && (no in s.orders && Decided(s.orders[no].status) ==> written || VerdictDue(s.handlers, no))
  }

  ghost predicate VerdictDue(handlers: map<nat, Handler>, no: OrderNo) {
    exists h :: h in handlers && handlers[h].WriteVerdict? && handlers[h].order == no
  }

  /** What a step makes of the stored result of an order. */
  lemma StoredAfter(s: State, step: Step, no: OrderNo)
    requires Enabled(s, step) && RedisAnswers(step) && VerdictsAgree(s)
    ensures var results := Apply(s, step).results;
            if WritesPending(s, step, no) then no in results && results[no].InProgress?
            else if WritesVerdict(s, step, no) then no in results && !results[no].InProgress?
            else if step == ExpireResult(no) then no !in results
            else (no in results <==> no in s.results) && (no in results ==> results[no] == s.results[no])
  {
    if step.Continue? {
      ContinueStores(s, step.handler, no);
    } else if step.Deliver? {
      DeliverWritesNoResult(s, step.row, step.handler, step.charged);
    } else if !step.SetPending? && !step.ExpireResult? {
      OthersWriteNoResult(s, step);
    }
  }

  lemma ContinueStores(s: State, h: nat, no: OrderNo)
    requires Enabled(s, Continue(h, true)) && VerdictsAgree(s)
    ensures var results := Apply(s, Continue(h, true)).results;
            if WritesVerdict(s, Continue(h, true), no) then no in results && !results[no].InProgress?
            else (no in results <==> no in s.results) && (no in results ==> results[no] == s.results[no])
  {
  }

  /** A verdict that is due stays due until it is written. */
  lemma DueAfter(s: State, step: Step, no: OrderNo)
    requires Enabled(s, step) && RedisAnswers(step) && VerdictDue(s.handlers, no) && !WritesVerdict(s, step, no)
    ensures VerdictDue(Apply(s, step).handlers, no)
  {
    var h :| h in s.handlers && s.handlers[h].WriteVerdict? && s.handlers[h].order == no;
    if step.Continue? {
      ContinueKeepsOthers(s, step.handler, h);
    } else if step.Deliver? {
      DeliverKeepsHandlers(s, step.row, step.handler, step.charged, h);
    } else {
      OthersKeepHandlers(s, step);
    }
  }

  lemma ContinueKeepsOthers(s: State, h: nat, other: nat)
    requires Enabled(s, Continue(h, true)) && other in s.handlers && other != h
    ensures var handlers := Apply(s, Continue(h, true)).handlers;
            other in handlers && handlers[other] == s.handlers[other]
  {
  }

  lemma DeliverKeepsHandlers(s: State, r: nat, h: nat, charged: bool, other: nat)
    requires Enabled(s, Deliver(r, h, charged)) && other in s.handlers
    ensures var handlers := Apply(s, Deliver(r, h, charged)).handlers;
            other in handlers && handlers[other] == s.handlers[other]
  {
    HandlersAfterDelivery(s, r, h, charged);
  }

  /** An order that a step decides has its verdict due. */
  lemma DecidedIsDue(s: State, step: Step, no: OrderNo)
    requires Enabled(s, step)
    requires var orders := Apply(s, step).orders; no in orders && Decided(orders[no].status)
    requires !(no in s.orders && Decided(s.orders[no].status))
    ensures VerdictDue(Apply(s, step).handlers, no) && !step.Continue?
  {
    if step.Deliver? {
      DeliveryDecides(s, step.row, step.handler, step.charged, no);
    } else {
      OthersDecideNothing(s, step);
    }
  }

  lemma OthersDecideNothing(s: State, step: Step)
    requires Enabled(s, step) && !step.Deliver?
    ensures var orders := Apply(s, step).orders;
            forall no | no in orders && Decided(orders[no].status) :: no in s.orders && orders[no] == s.orders[no]
  {
    if step.Transact? {
      TransactEffect(s, EMPTY_LEDGER, step.call, step.order, step.failed);
    } else {
      OthersLeaveOrders(s, step);
    }
  }

  lemma DeliveryDecides(s: State, r: nat, h: nat, charged: bool, no: OrderNo)
    requires Enabled(s, Deliver(r, h, charged))
    requires var orders := Apply(s, Deliver(r, h, charged)).orders; no in orders && Decided(orders[no].status)
    requires !(no in s.orders && Decided(s.orders[no].status))
    ensures VerdictDue(Apply(s, Deliver(r, h, charged)).handlers, no)
  {
    OrdersAfterDelivery(s, r, h, charged);
    ReactionDecides(s.orders, s.rows[r], no);
    VerdictAfterDelivery(s, r, h, charged);
  }

  lemma ReactionDecides(orders: OrderStore.Orders, e: Event, no: OrderNo)
    requires var orders' := OrderStore.React(orders, e).orders; no in orders' && Decided(orders'[no].status)
    requires !(no in orders && Decided(orders[no].status))
    ensures e.order == no && OrderStore.React(orders, e).verdict.Some?
  {
  }

  lemma VerdictAfterDelivery(s: State, r: nat, h: nat, charged: bool)
    requires Enabled(s, Deliver(r, h, charged)) && TopicConsumer(s.rows[r]).OrderService?
    requires OrderStore.React(s.orders, s.rows[r]).verdict.Some?
    ensures var handlers := Apply(s, Deliver(r, h, charged)).handlers;
            h in handlers && handlers[h].WriteVerdict? && handlers[h].order == s.rows[r].order
  {
  }

  lemma StepRecords(s0: State, steps: seq<Step>, no: OrderNo)
    requires Init(s0) && Runs(s0, steps) && AtMostOnce(s0, steps) && RedisKeepsAnswering(steps) && steps != []
    requires var before := Front(steps);
             Runs(s0, before) && Recorded(After(s0, before), no, VerdictWritten(s0, before, no),
                 Overtaken(s0, before, no))
    requires VerdictsAgree(After(s0, Front(steps))) && RedisAnswers(Last(steps))
    ensures Recorded(After(s0, steps), no, VerdictWritten(s0, steps, no), Overtaken(s0, steps, no))
  {
    var s, step := After(s0, Front(steps)), Last(steps);
    LastStep(s0, steps);
    StoredAfter(s, step, no);
    var s' := Apply(s, step);
    if no in s'.orders && Decided(s'.orders[no].status) && !VerdictWritten(s0, steps, no) {
      if no in s.orders && Decided(s.orders[no].status) {
        DueAfter(s, step, no);
      } else {
        DecidedIsDue(s, step, no);
      }
    }
  }

  lemma {:induction false} RunRecords(s0: State, steps: seq<Step>, no: OrderNo)
    requires Init(s0) && Runs(s0, steps) && AtMostOnce(s0, steps) && RedisKeepsAnswering(steps)
    ensures Recorded(After(s0, steps), no, VerdictWritten(s0, steps, no), Overtaken(s0, steps, no))
    decreases |steps|
  {
    if steps != [] {
      FrontKeepsAnswering(steps);
      LastOnce(s0, steps);
      RunRecords(s0, Front(steps), no);
      RunAgrees(s0, Front(steps));
      StepRecords(s0, steps, no);
    }
  }

  /** Once every handler has finished, a decided order's buyer is told its verdict exactly if PENDING was not written
      after it; if it was, the answer is PENDING until the result expires or Redis fails. */
  lemma FinishedPolls(s0: State, steps: seq<Step>, no: OrderNo, redisFails: bool)
    requires Init(s0) && Runs(s0, steps) && AtMostOnce(s0, steps) && RedisKeepsAnswering(steps)
    requires forall h | h in After(s0, steps).handlers :: After(s0, steps).handlers[h].Finished?
    requires no in After(s0, steps).orders && Decided(After(s0, steps).orders[no].status)
    ensures var s := After(s0, steps);
            OrderStore.Poll(s.results, s.orders, no, redisFails)
            == if Overtaken(s0, steps, no) && !redisFails then OrderStore.InProgress
               else OrderStore.VerdictOf(s.orders[no].status)
  {
    RunRecords(s0, steps, no);
    RunAgrees(s0, steps);
  }

  /** Once its result has expired, an order's buyer is told what the order row says: PENDING does not hide it for longer
      than that. */
  lemma ExpiryReveals(s: State, no: OrderNo, redisFails: bool)
    ensures var s' := Apply(s, ExpireResult(no));
            OrderStore.Poll(s'.results, s'.orders, no, redisFails)
            == if no in s.orders then OrderStore.VerdictOf(s.orders[no].status) else OrderStore.InProgress
  {
  }
}

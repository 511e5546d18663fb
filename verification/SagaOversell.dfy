/** Why the sale is not oversold even if some messages are repeated, or the inventory is not in order: Redis alone
    guards it. An order takes its units from the counter once, and as long as its cancellation is handled once it gives
    them back once, so what is promised stays within what Redis started with, whatever happens to the inventory. */
module SagaOversell {
  import opened Events
  import opened SagaProtocol
  import opened SagaLedger
  import opened SagaInvariant
  import opened SagaSafety
  import opened SagaAnyDelivery
  import opened SagaRepeats
  import opened SagaTurns
  import opened SagaTrails
  import opened SagaEnds
  import opened Totals
  import OrderStore
  import InventoryStore

  // ---------------------------------------------------------------- the Redis counter

  /** Units an order has taken from Redis and not given back. */
  function HeldUnits(no: OrderNo, o: OrderStore.Order, ends: Ends, p: ProductId): int {
    if o.product == p && !(no in ends && ends[no].Home?) then o.quantity else 0
  }

  function Held(orders: OrderStore.Orders, ends: Ends, p: ProductId): map<nat, int> {
    map no | no in orders :: HeldUnits(no, orders[no], ends, p)
  }

  lemma HeldPut(orders: OrderStore.Orders, ends: Ends, no: OrderNo, o: OrderStore.Order, ends': Ends, p: ProductId)
    requires forall n | n in orders && n != no :: (n in ends && ends[n].Home?) <==> (n in ends' && ends'[n].Home?)
    ensures Total(Held(orders[no := o], ends', p))
            == Total(Held(orders, ends, p)) - (if no in orders then HeldUnits(no, orders[no], ends, p) else 0)
               + HeldUnits(no, o, ends', p)
  {
    assert Held(orders[no := o], ends', p) == Held(orders, ends, p)[no := HeldUnits(no, o, ends', p)];
    TotalPut(Held(orders, ends, p), no, HeldUnits(no, o, ends', p));
  }

  /** Every unit of the initial counter is in the counter, overdrawn by a call, lost to a Redis error, taken by a call
      in progress, or held by an order. */
  ghost predicate CounterBalanced(s0: State, s: State, g: Ledger, ends: Ends, p: ProductId) {
    var counter := StockOf(s, p) + CallsHold(s.calls, p, Overdrawn) + LeakOf(g, p);
    && counter >= 0 && LeakOf(g, p) >= 0
    && counter + CallsHold(s.calls, p, InTransit) + Total(Held(s.orders, ends, p)) == StockOf(s0, p)
  }

  ghost predicate CountersBalanced(s0: State, s: State, g: Ledger, ends: Ends) {
    && (forall p: ProductId :: CounterBalanced(s0, s, g, ends, p))
    && CallsValid(s) && (forall no | no in s.orders :: s.orders[no].quantity >= 1)
  }

  /** A step of a call that leaves the orders alone. */
  lemma CallKeepsCounters(s0: State, s: State, g: Ledger, ends: Ends, s': State, g': Ledger, c: nat)
    requires CountersBalanced(s0, s, g, ends) && OnlyCall(s, g, s', g', c)
    requires forall p: ProductId :: UnitsKept(s, g, s', g', c, p)
    ensures CountersBalanced(s0, s', g', ends)
  {
    forall p: ProductId ensures CounterBalanced(s0, s', g', ends, p) {
      assert CounterBalanced(s0, s, g, ends, p) && UnitsKept(s, g, s', g', c, p);
      CallsHoldPut(s.calls, c, s'.calls[c], p, Overdrawn);
      CallsHoldPut(s.calls, c, s'.calls[c], p, InTransit);
      TotalBounds(CallEntries(s'.calls, p, Overdrawn));
    }
  }

  lemma CommitFrame(s: State, g: Ledger, c: nat, no: OrderNo)
    requires Enabled(s, Transact(c, no, false)) && Commits(s, s.calls[c], no, false)
    ensures var s', g' := Apply(s, Transact(c, no, false)), Follow(s, g, Transact(c, no, false));
            s'.stock == s.stock && g'.leaked == g.leaked
            && s'.calls == s.calls[c := s.calls[c].(pc := WritePending(no))]
  {
  }

  /** A commit hands the units of the call to the order. */
  lemma CommitKeepsCounters(s0: State, s: State, g: Ledger, ends: Ends, c: nat, no: OrderNo)
    requires CountersBalanced(s0, s, g, ends) && EndsFit(s, ends)
    requires Enabled(s, Transact(c, no, false)) && Commits(s, s.calls[c], no, false)
    ensures CountersBalanced(s0, Apply(s, Transact(c, no, false)), Follow(s, g, Transact(c, no, false)), ends)
  {
    var s', g' := Apply(s, Transact(c, no, false)), Follow(s, g, Transact(c, no, false));
    var o, call' := NewOrder(s.calls[c]), s.calls[c].(pc := WritePending(no));
    CommitEffect(s, c, no);
    CommitFrame(s, g, c, no);
    forall p: ProductId ensures CounterBalanced(s0, s', g', ends, p) {
      assert CounterBalanced(s0, s, g, ends, p);
      CallsHoldPut(s.calls, c, call', p, Overdrawn);
      CallsHoldPut(s.calls, c, call', p, InTransit);
      HeldPut(s.orders, ends, no, o, ends, p);
    }
  }

  /** Deliveries move no units in Redis. */
  lemma SameCounters(s0: State, s: State, g: Ledger, ends: Ends, s': State, g': Ledger, ends': Ends)
    requires CountersBalanced(s0, s, g, ends) && OnlyStatuses(s.orders, s'.orders)
    requires s'.stock == s.stock && s'.calls == s.calls && g'.leaked == g.leaked
    requires SameHomes(ends, ends')
    ensures CountersBalanced(s0, s', g', ends')
  {
    forall p: ProductId ensures CounterBalanced(s0, s', g', ends', p) {
      assert CounterBalanced(s0, s, g, ends, p);
      assert Held(s'.orders, ends', p) == Held(s.orders, ends, p);
    }
  }

  /** A restoration gives the units of the order back, to the counter or to the leak. */
  lemma RestoreKeepsCounters(s0: State, s: State, g: Ledger, ends: Ends, s': State, g': Ledger, no: OrderNo,
                             executed: bool)
    requires CountersBalanced(s0, s, g, ends) && no in s.orders && !(no in ends && ends[no].Home?)
    requires s'.calls == s.calls && s'.orders == s.orders && GivenBack(s, g, s', g', s.orders[no], executed)
    ensures CountersBalanced(s0, s', g', ends[no := Home])
  {
    var ends' := ends[no := Home];
    forall p: ProductId ensures CounterBalanced(s0, s', g', ends', p) {
      assert CounterBalanced(s0, s, g, ends, p);
      RestoredHeld(s.orders, ends, no, p);
      RestoredStock(s, g, s', g', s.orders[no], executed, p);
    }
  }

  /** The units of an order are added to the counter, or lost. */
  predicate GivenBack(s: State, g: Ledger, s': State, g': Ledger, o: OrderStore.Order, executed: bool) {
    && s'.stock == (if executed then AddStock(s.stock, o.product, o.quantity) else s.stock)
    && g'.leaked == (if executed then g.leaked else Leak(g, o.product, o.quantity).leaked)
  }

  lemma RestoredHeld(orders: OrderStore.Orders, ends: Ends, no: OrderNo, p: ProductId)
    requires no in orders && !(no in ends && ends[no].Home?)
    ensures Total(Held(orders, ends[no := Home], p))
            == Total(Held(orders, ends, p)) - (if orders[no].product == p then orders[no].quantity else 0)
  {
    HeldPut(orders, ends, no, orders[no], ends[no := Home], p);
    assert orders[no := orders[no]] == orders;
  }

  lemma RestoredStock(s: State, g: Ledger, s': State, g': Ledger, o: OrderStore.Order, executed: bool, p: ProductId)
    requires GivenBack(s, g, s', g', o, executed) && o.quantity >= 0
    ensures LeakOf(g', p) >= LeakOf(g, p)
    ensures StockOf(s', p) + LeakOf(g', p)
            == StockOf(s, p) + LeakOf(g, p) + (if o.product == p then o.quantity else 0)
  {
  }

  lemma DeliveryLeavesCounters(s: State, g: Ledger, r: nat, h: nat, charged: bool)
    requires Enabled(s, Deliver(r, h, charged))
    ensures Apply(s, Deliver(r, h, charged)).stock == s.stock
    ensures Follow(s, g, Deliver(r, h, charged)).leaked == g.leaked
  {
  }

  lemma ContinueCounters(s: State, g: Ledger, h: nat, executed: bool)
    requires Enabled(s, Continue(h, executed))
    ensures var s', g' := Apply(s, Continue(h, executed)), Follow(s, g, Continue(h, executed));
            if !s.handlers[h].RestoreRedis? then s'.stock == s.stock && g'.leaked == g.leaked
            else
              var job := s.handlers[h];
              && s'.stock == (if executed then AddStock(s.stock, job.product, job.quantity) else s.stock)
              && g'.leaked == (if executed then g.leaked else Leak(g, job.product, job.quantity).leaked)
  {
  }

  lemma ContinueKeepsCounters(s0: State, s: State, g: Ledger, ends: Ends, h: nat, executed: bool)
    requires CountersBalanced(s0, s, g, ends) && EndsFit(s, ends) && Enabled(s, Continue(h, executed))
    ensures var step := Continue(h, executed);
            CountersBalanced(s0, Apply(s, step), Follow(s, g, step), FollowEnds(s, ends, step))
  {
    var step := Continue(h, executed);
    ContinueFrames(s, h, executed);
    ContinueCounters(s, g, h, executed);
    if s.handlers[h].RestoreRedis? {
      RestoringHandler(s.rows, s.consumed, s.handlers, s.orders, ends, h, Finished);
      RestoreKeepsCounters(s0, s, g, ends, Apply(s, step), Follow(s, g, step), s.handlers[h].order, executed);
    } else {
      SameCounters(s0, s, g, ends, Apply(s, step), Follow(s, g, step), ends);
    }
  }

  lemma DeliverKeepsCounters(s0: State, s: State, g: Ledger, trails: Trails, ends: Ends, r: nat, h: nat, charged: bool)
    requires CountersBalanced(s0, s, g, ends) && StateFits(s, trails) && EndsFit(s, ends)
    requires Enabled(s, Deliver(r, h, charged)) && (r in s.consumed ==> KindOf(s.rows[r]) in SALES)
    ensures var step := Deliver(r, h, charged);
            CountersBalanced(s0, Apply(s, step), Follow(s, g, step), FollowEnds(s, ends, step))
  {
    var step := Deliver(r, h, charged);
    OrdersAfterDelivery(s, r, h, charged);
    ReactionKeepsOrders(s.orders, s.rows[r]);
    DeliverLeavesCalls(s, r, h, charged);
    DeliveryLeavesCounters(s, g, r, h, charged);
    NobodyGoesHome(s, trails, ends, r, h, charged);
    SameCounters(s0, s, g, ends, Apply(s, step), Follow(s, g, step), FollowEnds(s, ends, step));
  }

  /** A message brings no units home. */
  lemma NobodyGoesHome(s: State, trails: Trails, ends: Ends, r: nat, h: nat, charged: bool)
    requires StateFits(s, trails) && EndsFit(s, ends) && Enabled(s, Deliver(r, h, charged))
    requires r in s.consumed ==> KindOf(s.rows[r]) in SALES
    ensures SameHomes(ends, FollowEnds(s, ends, Deliver(r, h, charged)))
  {
    var e := s.rows[r];
    if e.OrderCancelled? {
      assert e.order in ends && ends[e.order] == Written(r);
    } else if Cancels(s, e) {
      NotYetCancelled(s, trails, r);
      assert e.order !in ends;
    }
    MessageLeavesHomes(s.orders, ends, e, h, |s.rows|);
  }

  lemma MessageLeavesHomes(orders: OrderStore.Orders, ends: Ends, e: Event, h: nat, at: nat)
    requires (e.StockDeductFailed? || e.PaymentFailed? || e.OrderCancelled?) && e.order in orders ==>
               !(e.order in ends && ends[e.order].Home?)
    requires e.OrderCancelled? ==> e.order in orders
    ensures SameHomes(ends, EndsAfterMessage(orders, ends, e, h, at))
  {
  }

  ghost predicate SameHomes(ends: Ends, ends': Ends) {
    forall no :: (no in ends && ends[no].Home?) <==> (no in ends' && ends'[no].Home?)
  }

  lemma OthersLeaveCounters(s: State, g: Ledger, step: Step)
    requires Enabled(s, step) && (step.Publish? || step.ExpireKey? || step.ExpireResult?)
    ensures var s' := Apply(s, step);
            s'.stock == s.stock && s'.calls == s.calls && s'.orders == s.orders && Follow(s, g, step) == g
  {
  }

  lemma StepKeepsCounters(s0: State, s: State, g: Ledger, trails: Trails, ends: Ends, step: Step,
                          kinds: set<MessageKind>)
    requires CountersBalanced(s0, s, g, ends) && StateFits(s, trails) && EndsFit(s, ends)
    requires Enabled(s, step) && RepeatsKind(s, step, kinds) && kinds <= SALES
    ensures CountersBalanced(s0, Apply(s, step), Follow(s, g, step), FollowEnds(s, ends, step))
  {
    if CallStep(step) {
      CallStepMoves(s, g, step);
      CallKeepsCounters(s0, s, g, ends, Apply(s, step), Follow(s, g, step), step.call);
    } else if step.Transact? {
      if Commits(s, s.calls[step.call], step.order, step.failed) {
        assert step == Transact(step.call, step.order, false);
        CommitKeepsCounters(s0, s, g, ends, step.call, step.order);
      } else {
        TransactFails(s, g, step.call, step.order, step.failed);
        CallKeepsCounters(s0, s, g, ends, Apply(s, step), Follow(s, g, step), step.call);
      }
    } else if step.Deliver? {
      DeliverKeepsCounters(s0, s, g, trails, ends, step.row, step.handler, step.charged);
    } else if step.Continue? {
      ContinueKeepsCounters(s0, s, g, ends, step.handler, step.executed);
    } else {
      OthersLeaveCounters(s, g, step);
      SameCounters(s0, s, g, ends, Apply(s, step), Follow(s, g, step), ends);
    }
  }

  // ---------------------------------------------------------------- runs with any inventory

  ghost function LedgerAfterTurns(s0: State, turns: seq<Turn>): Ledger
    requires Taken(s0, turns)
  {
    if turns == [] then EMPTY_LEDGER
    else
      var n := |turns| - 1;
      Follow(BeforeLast(s0, turns), LedgerAfterTurns(s0, turns[..n]), turns[n].step)
  }

  ghost function TrailsAfterTurns(s0: State, turns: seq<Turn>): Trails
    requires Taken(s0, turns)
  {
    if turns == [] then map[]
    else
      var n := |turns| - 1;
      FollowTrails(BeforeLast(s0, turns), TrailsAfterTurns(s0, turns[..n]), turns[n].step)
  }

  ghost function EndsAfterTurns(s0: State, turns: seq<Turn>): Ends
    requires Taken(s0, turns)
  {
    if turns == [] then map[]
    else
      var n := |turns| - 1;
      FollowEnds(BeforeLast(s0, turns), EndsAfterTurns(s0, turns[..n]), turns[n].step)
  }

  /** Neither the counters nor the tracks of orders depend on the inventory. */
  lemma InventoryDoesNotMatter(s0: State, s: State, g: Ledger, trails: Trails, ends: Ends, stock: InventoryStore.Stock)
    ensures StateFits(s, trails) ==> StateFits(Found(s, stock), trails)
    ensures EndsFit(s, ends) ==> EndsFit(Found(s, stock), ends)
    ensures CountersBalanced(s0, s, g, ends) ==> CountersBalanced(s0, Found(s, stock), g, ends)
  {
    EndsWithoutInventory(s, ends, stock);
    if CountersBalanced(s0, s, g, ends) {
      CountersWithoutInventory(s0, s, g, ends, stock);
    }
  }

  lemma EndsWithoutInventory(s: State, ends: Ends, stock: InventoryStore.Stock)
    ensures EndsFit(s, ends) ==> EndsFit(Found(s, stock), ends)
  {
  }

  lemma CountersWithoutInventory(s0: State, s: State, g: Ledger, ends: Ends, stock: InventoryStore.Stock)
    requires CountersBalanced(s0, s, g, ends)
    ensures CountersBalanced(s0, Found(s, stock), g, ends)
  {
    forall p: ProductId ensures CounterBalanced(s0, Found(s, stock), g, ends, p) {
      assert CounterBalanced(s0, s, g, ends, p);
    }
  }

  lemma CountersAtFirst(s0: State)
    requires Init(s0)
    ensures CountersBalanced(s0, s0, EMPTY_LEDGER, map[])
  {
    forall p: ProductId ensures CounterBalanced(s0, s0, EMPTY_LEDGER, map[], p) {
      assert CallEntries(s0.calls, p, InTransit) == map[] && CallEntries(s0.calls, p, Overdrawn) == map[];
      assert Held(s0.orders, map[], p) == map[];
    }
  }

  /** As long as no hand-over is repeated, no order is charged twice, whatever the inventory does. */
  lemma {:induction false} TrailsOverTurns(s0: State, turns: seq<Turn>, kinds: set<MessageKind>)
    requires Init(s0) && Taken(s0, turns) && TurnsRepeatOnly(s0, turns, kinds) && kinds !! HANDOVERS
    ensures StateFits(AfterTurns(s0, turns), TrailsAfterTurns(s0, turns))
    ensures OnePayment(AfterTurns(s0, turns).payments)
    decreases |turns|
  {
    if turns != [] {
      var n := |turns| - 1;
      TrailsOverTurns(s0, turns[..n], kinds);
      var trails := TrailsAfterTurns(s0, turns[..n]);
      InventoryDoesNotMatter(s0, AfterTurns(s0, turns[..n]), EMPTY_LEDGER, trails, map[], turns[n].stock);
      StepFits(BeforeLast(s0, turns), trails, turns[n].step, kinds);
    }
  }

  /** Every unit of the initial counter is in the counter, with a call, lost to a Redis error, or held by an order that
      has not been restored; and each cancelled order is restored once. */
  lemma {:induction false} CountersOverTurns(s0: State, turns: seq<Turn>, kinds: set<MessageKind>)
    requires Init(s0) && Taken(s0, turns) && TurnsRepeatOnly(s0, turns, kinds) && kinds <= SALES
    ensures EndsFit(AfterTurns(s0, turns), EndsAfterTurns(s0, turns))
    ensures CountersBalanced(s0, AfterTurns(s0, turns), LedgerAfterTurns(s0, turns), EndsAfterTurns(s0, turns))
    decreases |turns|
  {
    if turns == [] {
      CountersAtFirst(s0);
    } else {
      var n := |turns| - 1;
      var early := turns[..n];
      CountersOverTurns(s0, early, kinds);
      TrailsOverTurns(s0, early, kinds);
      var g, trails, ends := LedgerAfterTurns(s0, early), TrailsAfterTurns(s0, early), EndsAfterTurns(s0, early);
      InventoryDoesNotMatter(s0, AfterTurns(s0, early), g, trails, ends, turns[n].stock);
      StepKeepsEnds(BeforeLast(s0, turns), trails, ends, turns[n].step, kinds);
      StepKeepsCounters(s0, BeforeLast(s0, turns), g, trails, ends, turns[n].step, kinds);
    }
  }

  /** No promised order has given its units back, so promises stay within what Redis started with. */
  lemma PromisesWithinCounter(s0: State, s: State, g: Ledger, ends: Ends, p: ProductId)
    requires CountersBalanced(s0, s, g, ends) && EndsFit(s, ends)
    ensures Total(PromisedUnits(s.orders, p)) <= StockOf(s0, p)
  {
    assert CounterBalanced(s0, s, g, ends, p);
    TotalBounds(CallEntries(s.calls, p, InTransit));
    TotalMonotone(PromisedUnits(s.orders, p), Held(s.orders, ends, p));
  }

  /** No oversell, whatever the inventory does, even if messages about paid orders are repeated: in every run that
      repeats nothing but PAYMENT_SUCCESS and ORDER_COMPLETED, what is promised stays within what Redis was loaded
      with. */
  lemma RedisGuardsTheSale(s0: State, turns: seq<Turn>, kinds: set<MessageKind>, p: ProductId)
    requires Init(s0) && Taken(s0, turns) && TurnsRepeatOnly(s0, turns, kinds) && kinds <= SALES
    ensures Total(PromisedUnits(AfterTurns(s0, turns).orders, p)) <= StockOf(s0, p) <= AvailableOf(s0, p)
  {
    CountersOverTurns(s0, turns, kinds);
    PromisesWithinCounter(s0, AfterTurns(s0, turns), LedgerAfterTurns(s0, turns), EndsAfterTurns(s0, turns), p);
  }

  /** A STOCK_DEDUCT_FAILED cannot be repeated unless something else is: there is none. */
  lemma {:induction false} ShortagesAlone(s0: State, steps: seq<Step>)
    requires Init(s0) && Runs(s0, steps) && RepeatsOnly(s0, steps, {Shortages})
    ensures AtMostOnce(s0, steps)
    decreases |steps|
  {
    if steps != [] {
      var before, step := Front(steps), Last(steps);
      LastStep(s0, steps);
      ShortagesAlone(s0, before);
      RunNeverFailsStock(s0, before);
      NoShortageToRepeat(After(s0, before), step);
    }
  }

  lemma NoShortageToRepeat(s: State, step: Step)
    requires Enabled(s, step) && RepeatsKind(s, step, {Shortages}) && forall e | e in s.rows :: !e.StockDeductFailed?
    ensures FirstDelivery(s, step)
  {
    assert step.Deliver? ==> s.rows[step.row] in s.rows;
  }
}

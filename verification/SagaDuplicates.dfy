/** How far at-most-once delivery is needed: which kinds of messages may be repeated without leaving the documented
    status machine, charging twice, running short or overselling, over whole runs; and what one repeated message does to
    the books. */
module SagaDuplicates {
  import opened Events
  import opened SagaProtocol
  import opened SagaLedger
  import opened SagaInvariant
  import opened SagaSafety
  import opened SagaAnyDelivery
  import opened SagaRepeats
  import opened SagaTurns
  import opened SagaTrails
  import opened SagaEnds
  import opened SagaOversell
  import opened SagaTraces
  import opened SagaShop
  import R = SagaScripts
  import E = SagaExamples
  import opened Totals
  import OrderStore
  import InventoryStore

  // ---------------------------------------------------------------- consumed rows are behind their order

  /** The stage whose row e is. */
  function StageOf(e: Event): (stage: Stage)
    requires !e.StockDeductFailed?
    ensures Open(stage)
  {
    match e
    case OrderCreated(_, _, _, _, _) => Created
    case StockDeducted(_, _, _) => Reserved
    case PaymentRequested(_, _, _) => Requested
    case PaymentSucceeded(_, _) => Charged(true)
    case PaymentFailed(_, _) => Charged(false)
    case OrderCompleted(_, _, _) => Completed
    case OrderCancelled(_, _, _, _) => Stage.Cancelled
  }

  /** A later stage is reached through an earlier one. */
  predicate Behind(a: Stage, b: Stage) {
    match a
    case Created => !b.Created?
    case Reserved => !b.Created? && !b.Reserved?
    case Requested => Charge(b).Some?
    case Charged(ok) => Charge(b) == Some(ok) && !b.Charged?
    case Completed => b.Confirmed?
    case Cancelled => b.Returned? || b.Restored? || b.Released?
    case _ => false
  }

  /** The row carried its order once, and the order has moved on. */
  predicate Passed(e: Event, orders: OrderStore.Orders, tracks: map<OrderNo, Track>) {
    && !e.StockDeductFailed? && e.order in orders && e.order in tracks
    && e == Token(e.order, orders[e.order], StageOf(e)) && Behind(StageOf(e), tracks[e.order].stage)
  }

  ghost predicate ConsumedRowsPassed(s: State, g: Ledger) {
    forall r | r in s.consumed && r < |s.rows| :: Passed(s.rows[r], s.orders, g.tracks)
  }

  lemma BehindMoves(a: Stage, b: Stage, c: Stage)
    requires StageMove(b, c) && (Behind(a, b) || (a == b && b != c))
    requires Open(a)
    ensures Behind(a, c)
  {
  }

  lemma PassedStays(e: Event, orders: OrderStore.Orders, tracks: map<OrderNo, Track>, orders': OrderStore.Orders,
                    tracks': map<OrderNo, Track>)
    requires Passed(e, orders, tracks) && TracksMove(orders, tracks, orders', tracks')
    ensures Passed(e, orders', tracks')
  {
    BehindMoves(StageOf(e), tracks[e.order].stage, tracks'[e.order].stage);
  }

  lemma TokenStage(no: OrderNo, o: OrderStore.Order, stage: Stage)
    requires Open(stage)
    ensures !Token(no, o, stage).StockDeductFailed? && StageOf(Token(no, o, stage)) == stage
              && Token(no, o, stage).order == no
  {
  }

  lemma DeliveredRowPassed(s0: State, s: State, g: Ledger, r: nat, h: nat, charged: bool)
    requires Init(s0) && Books(s0, s, g) && Tracked(s, g) && Enabled(s, Deliver(r, h, charged)) && r !in s.consumed
    ensures Passed(s.rows[r], Apply(s, Deliver(r, h, charged)).orders, FollowDeliver(s, g, r, h, charged).tracks)
  {
    RowIsWaiting(s0, s, g, r);
    FirstDeliveryAdvances(s0, s, g, r, h, charged);
    var no := s.rows[r].order;
    TokenStage(no, s.orders[no], g.tracks[no].stage);
  }

  lemma StepKeepsPassed(s0: State, s: State, g: Ledger, step: Step)
    requires Init(s0) && Books(s0, s, g) && Tracked(s, g) && Enabled(s, step) && FirstDelivery(s, step)
    requires ConsumedRowsPassed(s, g)
    ensures ConsumedRowsPassed(Apply(s, step), Follow(s, g, step))
  {
    var s', g' := Apply(s, step), Follow(s, g, step);
    RowsGrow(s, step);
    StepMoves(s0, s, g, step);
    forall r | r in s'.consumed && r < |s'.rows|
      ensures Passed(s'.rows[r], s'.orders, g'.tracks)
    {
      if r in s.consumed {
        PassedStays(s.rows[r], s.orders, g.tracks, s'.orders, g'.tracks);
      } else {
        DeliveredRowPassed(s0, s, g, r, step.handler, step.charged);
      }
    }
  }

  lemma {:induction false} RunKeepsPassed(s0: State, steps: seq<Step>)
    requires Init(s0) && Runs(s0, steps) && AtMostOnce(s0, steps)
    ensures ConsumedRowsPassed(After(s0, steps), LedgerAfter(s0, steps))
    decreases |steps|
  {
    if steps != [] {
      RunKeepsPassed(s0, Front(steps));
      RunKeeps(s0, Front(steps));
      StepKeepsPassed(s0, After(s0, Front(steps)), LedgerAfter(s0, Front(steps)), Last(steps));
    }
  }

  // ---------------------------------------------------------------- which messages may be repeated

  /** The documented status machine survives repeats of these kinds of messages, in every run. */
  ghost predicate MachineSurvives(kinds: set<MessageKind>) {
    forall s0, steps | Init(s0) && Runs(s0, steps) && RepeatsOnly(s0, steps, kinds) :: MachineKept(s0, steps)
  }

  /** So does "at most one payment row per order". */
  ghost predicate PaymentsSurvive(kinds: set<MessageKind>) {
    forall s0, steps | Init(s0) && Runs(s0, steps) && RepeatsOnly(s0, steps, kinds) ::
        OnePayment(After(s0, steps).payments)
  }

  /** Over whole runs: repeated messages leave the documented status machine intact exactly if no hand-over, that is no
      ORDER_CREATED, STOCK_DEDUCTED or PAYMENT_REQUESTED, is among them. Every other message may be repeated at will. */
  lemma RepeatKeepsStatuses(kinds: set<MessageKind>)
    ensures MachineSurvives(kinds) <==> kinds !! HANDOVERS
  {
    if kinds !! HANDOVERS {
      forall s0, steps | Init(s0) && Runs(s0, steps) && RepeatsOnly(s0, steps, kinds) ensures MachineKept(s0, steps) {
        HandoversOnce(s0, steps, kinds);
      }
    } else {
      var s0, steps := GoesAstray(kinds);
    }
  }

  /** A run in which one repeated hand-over makes an order leave Paid, and charges it twice. */
  lemma GoesAstray(kinds: set<MessageKind>) returns (s0: State, steps: seq<Step>)
    requires !(kinds !! HANDOVERS)
    ensures Init(s0) && Runs(s0, steps) && RepeatsOnly(s0, steps, kinds)
    ensures !MachineKept(s0, steps) && !OnePayment(After(s0, steps).payments)
  {
    var least, units, scene, i, j := {Requests}, 1, R.Opening(1), 3, 5;
    if Creations in kinds {
      least, units, i, j := {Creations}, 2, 4, 7;
      scene := E.CreationRepeated();
    } else if Deductions in kinds {
      least, j := {Deductions}, 6;
      scene := E.DeductionRepeated();
    } else {
      scene := E.RequestRepeated();
    }
    s0 := Shop(units);
    R.ShopOpens(units);
    steps := E.PlayedAstray(s0, least, R.Opening(units), scene, i, j);
    MoreKinds(s0, steps, least, kinds);
  }

  /** Over whole runs: no order is ever charged twice, whatever is repeated, exactly if no hand-over is. */
  lemma RepeatKeepsPayments(kinds: set<MessageKind>)
    ensures PaymentsSurvive(kinds) <==> kinds !! HANDOVERS
  {
    if kinds !! HANDOVERS {
      forall s0, steps | Init(s0) && Runs(s0, steps) && RepeatsOnly(s0, steps, kinds)
        ensures OnePayment(After(s0, steps).payments)
      {
        HandoversOnce(s0, steps, kinds);
      }
    } else {
      var s0, steps := GoesAstray(kinds);
    }
  }

  // ---------------------------------------------------------------- what one repeated message does to the books

  ghost predicate Repeats(s0: State, s: State, g: Ledger, r: nat, h: nat, charged: bool) {
    Reachable(s0, s, g) && Enabled(s, Deliver(r, h, charged)) && r in s.consumed
  }

  lemma RepeatedRowPassed(s0: State, s: State, g: Ledger, r: nat, h: nat, charged: bool)
    requires Repeats(s0, s, g, r, h, charged)
    ensures Init(s0) && Books(s0, s, g) && Tracked(s, g) && Passed(s.rows[r], s.orders, g.tracks)
  {
    var steps := RunTo(s0, s, g);
    RunKeeps(s0, steps);
    RunKeepsPassed(s0, steps);
  }

  /** The state after a message has been handled, and Redis incremented if it cancels an order and Redis answers. */
  function Settle(s: State, r: nat, h: nat, charged: bool, executed: bool): State
    requires Enabled(s, Deliver(r, h, charged))
  {
    var s1 := Apply(s, Deliver(r, h, charged));
    if s.rows[r].OrderCancelled? && Enabled(s1, Continue(h, executed)) then Apply(s1, Continue(h, executed)) else s1
  }

  /** A repeated message leaves the books of the sale in balance, with every order where the ledger has it, exactly if
      it moves no unit: an ORDER_CREATED that finds too little available, an ORDER_COMPLETED that finds too little
      locked, an ORDER_CANCELLED that finds too little locked and whose increment does not reach Redis, or any
      message that is not for the inventory. */
  lemma RepeatKeepsBooks(s0: State, s: State, g: Ledger, r: nat, h: nat, charged: bool, executed: bool)
    requires Repeats(s0, s, g, r, h, charged)
    ensures Books(s0, Settle(s, r, h, charged, executed), g) <==>
              match s.rows[r]
              case OrderCreated(_, _, p, q, _) => AvailableOf(s, p) < q
              case OrderCompleted(_, p, q) => LockedOf(s, p) < q
              case OrderCancelled(_, _, p, q) => LockedOf(s, p) < q && !executed
              case _ => true
  {
    RepeatedRowPassed(s0, s, g, r, h, charged);
    if TopicConsumer(s.rows[r]).InventoryService? {
      SettleStock(s, r, h, charged, executed);
      BooksAfterRepeat(s0, s, Settle(s, r, h, charged, executed), g, s.rows[r], executed);
    } else {
      OtherMessageLeavesStock(s, r, h, charged);
      DeliverLeavesCalls(s, r, h, charged);
      OrdersAfterDelivery(s, r, h, charged);
      StatusesDoNotCount(s0, s, Settle(s, r, h, charged, executed), g);
    }
  }

  /** The books do not depend on statuses. */
  lemma StatusesDoNotCount(s0: State, s: State, s': State, g: Ledger)
    requires Books(s0, s, g) && s'.stock == s.stock && s'.inventory == s.inventory && s'.calls == s.calls
    requires s'.orders.Keys == s.orders.Keys
    requires forall no | no in s.orders :: s'.orders[no] == s.orders[no].(status := s'.orders[no].status)
    ensures Books(s0, s', g)
  {
    forall p: ProductId ensures Balanced(s0, s', g, p) {
      assert Balanced(s0, s, g, p);
      forall account: Account
        ensures OrdersHold(s'.orders, g.tracks, p, account) == OrdersHold(s.orders, g.tracks, p, account)
      {
        assert OrderEntries(s'.orders, g.tracks, p, account) == OrderEntries(s.orders, g.tracks, p, account);
      }
    }
  }

  function Units(e: Event): int {
    match e
    case OrderCreated(_, _, _, q, _) => q
    case OrderCompleted(_, _, q) => q
    case OrderCancelled(_, _, _, q) => q
    case _ => 0
  }

  /** Whether the message moves units between the columns of its product's row. */
  predicate MovesUnits(s: State, e: Event) {
    match e
    case OrderCreated(_, _, p, q, _) => AvailableOf(s, p) >= q
    case OrderCompleted(_, p, q) => LockedOf(s, p) >= q
    case OrderCancelled(_, _, p, q) => LockedOf(s, p) >= q
    case _ => false
  }

  /** What handling the message does to stock and Redis, provided it is about at least one unit. */
  ghost predicate StockSettled(s: State, s': State, e: Event, executed: bool) {
    && s'.orders == s.orders && s'.calls == s.calls && s'.inventory.Keys == s.inventory.Keys
    && (!MovesUnits(s, e) ==> s'.inventory == s.inventory)
    && (e.OrderCreated? && MovesUnits(s, e) ==> LockedOf(s', e.product) == LockedOf(s, e.product) + e.quantity)
    && ((e.OrderCompleted? || e.OrderCancelled?) && MovesUnits(s, e) ==>
          LockedOf(s', e.product) == LockedOf(s, e.product) - e.quantity)
    && s'.stock == if e.OrderCancelled? && executed then AddStock(s.stock, e.product, e.quantity) else s.stock
  }

  lemma SettleStock(s: State, r: nat, h: nat, charged: bool, executed: bool)
    requires Enabled(s, Deliver(r, h, charged)) && TopicConsumer(s.rows[r]).InventoryService?
    requires Units(s.rows[r]) >= 1
    ensures StockSettled(s, Settle(s, r, h, charged, executed), s.rows[r], executed)
  {
    var s1, e := Apply(s, Deliver(r, h, charged)), s.rows[r];
    InventoryAfterDelivery(s, r, h, charged);
    ReactionMovesUnits(s, e);
    if e.OrderCancelled? {
      RestoreAfterDelivery(s, r, h, charged);
      RestoreSettles(s1, h, executed);
    }
  }

  /** The inventory's reaction, by columns. */
  lemma ReactionMovesUnits(s: State, e: Event)
    requires TopicConsumer(e).InventoryService? && Units(e) >= 1
    ensures var stock := InventoryStore.React(s.inventory, e).stock;
            && stock.Keys == s.inventory.Keys
            && (!MovesUnits(s, e) ==> stock == s.inventory)
            && (MovesUnits(s, e) ==>
                  e.product in stock && stock[e.product].locked
                  == LockedOf(s, e.product) + (if e.OrderCreated? then e.quantity else -e.quantity))
  {
  }

  lemma BooksAfterRepeat(s0: State, s: State, s': State, g: Ledger, e: Event, executed: bool)
    requires Books(s0, s, g) && StockSettled(s, s', e, executed) && Units(e) >= 1
    ensures Books(s0, s', g) <==> !MovesUnits(s, e) && !(e.OrderCancelled? && executed)
  {
    if MovesUnits(s, e) {
      assert Balanced(s0, s, g, e.product);
      assert !Balanced(s0, s', g, e.product);
    } else if e.OrderCancelled? && executed {
      assert Balanced(s0, s, g, e.product);
      assert !Balanced(s0, s', g, e.product);
    } else {
      SameBooks(s0, s, s', g);
    }
  }

  // ---------------------------------------------------------------- a run

  /** With one STOCK_DEDUCTED delivered twice, an order that has been paid awaits payment again. */
  lemma PaidOrderReopened() returns (s0: State, s: State, g: Ledger, r: nat, h: nat)
    ensures Repeats(s0, s, g, r, h, false)
    ensures var s' := Apply(s, Deliver(r, h, false));
            5 in s.orders && 5 in s'.orders && s.orders[5].status.Paid? && s'.orders[5].status.AwaitingPayment?
  {
    s0, r := Shop(1), 1;
    var steps := PaidAndPublished();
    NoRepeatsIsOnce(s0, steps);
    RunReaches(s0, steps);
    s, g := After(s0, steps), LedgerAfter(s0, steps);
    h := FreshKey(s.handlers.Keys);
    OrdersAfterDelivery(s, r, h, false);
  }

  /** Order 5 is paid, and its STOCK_DEDUCTED, in row 1, has been handled and is published. */
  lemma PaidAndPublished() returns (steps: seq<Step>)
    ensures Runs(Shop(1), steps) && RepeatsOnly(Shop(1), steps, {})
    ensures var s := After(Shop(1), steps);
            && 5 in s.orders && s.orders[5].status.Paid? && 1 < |s.rows| && s.rows[1] == StockDeducted(5, 1, 1)
            && 1 in s.consumed && 1 in s.log
  {
    steps := E.PaidRun();
    var s := After(Shop(1), steps);
    steps := TakeStep(Shop(1), steps, {}, Publish(1), s.(log := s.log + [1]));
  }

  // ---------------------------------------------------------------- running short

  /** No order ever comes to an inventory that has too little, although these kinds of messages are repeated. */
  ghost predicate StockSuffices(kinds: set<MessageKind>) {
    forall s0, steps, e | Init(s0) && Runs(s0, steps) && RepeatsOnly(s0, steps, kinds) && e in After(s0, steps).rows ::
      !e.StockDeductFailed?
  }

  /** Redis never offers more than the inventory has available. */
  ghost predicate CouplingSurvives(kinds: set<MessageKind>) {
    forall s0, steps, p: ProductId | Init(s0) && Runs(s0, steps) && RepeatsOnly(s0, steps, kinds) ::
      StockOf(After(s0, steps), p) <= AvailableOf(After(s0, steps), p)
  }

  /** A scene in which Redis offers a unit that the inventory has not; user 10 and order 10 are not known yet. */
  lemma ComesUncovered(kinds: set<MessageKind>) returns (units: nat, least: set<MessageKind>, scene: R.Scene)
    requires !(kinds <= {Shortages})
    ensures least <= kinds && R.Playable(R.Opening(units), least, scene) && E.Uncovered(scene)
    ensures |scene.rows| == scene.v.count && forall r | r in scene.consumed :: r < |scene.rows|
    ensures 10 !in scene.v.users.Values && 10 !in scene.v.users && 10 !in scene.v.spots
  {
    var k :| k in kinds && k != Shortages;
    least := {k};
    match k {
      case Creations => units := 2; scene := E.CreationRepeated();
      case Deductions => units := 1; scene := E.DeductionRepeated();
      case Requests => units := 1; scene := E.RequestRepeated();
      case Cancellations => units := 1; scene := E.CancellationRepeated();
      case Failures => units := 1; scene := E.FailureRepeated();
      case Completions => units := 2; scene := E.CompletionRepeated();
      case Successes => units := 2; scene := E.SuccessRepeated();
    }
  }

  /** A STOCK_DEDUCT_FAILED cannot be repeated unless something else is: there is none. */
  lemma OnlyShortages(s0: State, steps: seq<Step>, kinds: set<MessageKind>)
    requires Init(s0) && Runs(s0, steps) && RepeatsOnly(s0, steps, kinds) && kinds <= {Shortages}
    ensures AtMostOnce(s0, steps) && Reachable(s0, After(s0, steps), LedgerAfter(s0, steps))
  {
    MoreKinds(s0, steps, kinds, {Shortages});
    ShortagesAlone(s0, steps);
    RunReaches(s0, steps);
  }

  /** Over whole runs: no order finds too little stock exactly if nothing is repeated, or nothing but a
      STOCK_DEDUCT_FAILED, which then never occurs. Any other repeated message can make one fail. */
  lemma RepeatKeepsStock(kinds: set<MessageKind>)
    ensures StockSuffices(kinds) <==> kinds <= {Shortages}
  {
    if kinds <= {Shortages} {
      forall s0, steps, e | Init(s0) && Runs(s0, steps) && RepeatsOnly(s0, steps, kinds) && e in After(s0, steps).rows
        ensures !e.StockDeductFailed?
      {
        OnlyShortages(s0, steps, kinds);
        RunNeverFailsStock(s0, steps);
      }
    } else {
      var units, least, scene := ComesUncovered(kinds);
      R.ShopOpens(units);
      var steps := E.PlayedShort(Shop(units), least, R.Opening(units), scene, 10, 10);
      MoreKinds(Shop(units), steps, least, kinds);
      assert StockDeductFailed(10, 1).StockDeductFailed?;
    }
  }

  /** Over whole runs: Redis stays within the available stock under exactly the same condition. */
  lemma RepeatKeepsCoupling(kinds: set<MessageKind>)
    ensures CouplingSurvives(kinds) <==> kinds <= {Shortages}
  {
    if kinds <= {Shortages} {
      forall s0, steps, p: ProductId | Init(s0) && Runs(s0, steps) && RepeatsOnly(s0, steps, kinds)
        ensures StockOf(After(s0, steps), p) <= AvailableOf(After(s0, steps), p)
      {
        OnlyShortages(s0, steps, kinds);
        RunKeeps(s0, steps);
        Covered(s0, After(s0, steps), LedgerAfter(s0, steps), p);
      }
    } else {
      var units, least, scene := ComesUncovered(kinds);
      R.ShopOpens(units);
      var steps := E.PlayedUncovered(Shop(units), least, R.Opening(units), scene);
      MoreKinds(Shop(units), steps, least, kinds);
    }
  }

  lemma Covered(s0: State, s: State, g: Ledger, p: ProductId)
    requires Reachable(s0, s, g) && CallsValid(s) && OrdersTracked(s.orders, g.tracks)
    ensures StockOf(s, p) <= AvailableOf(s, p)
  {
    Coupling(s0, s, g, p);
    TotalBounds(CallEntries(s.calls, p, Overdrawn));
    TotalBounds(CallEntries(s.calls, p, InTransit));
    TotalBounds(OrderEntries(s.orders, g.tracks, p, InTransit));
  }

  // ---------------------------------------------------------------- overselling

  /** What is promised stays within the initial stock, although these kinds of messages are repeated. */
  ghost predicate PromisesSurvive(kinds: set<MessageKind>) {
    forall s0, steps, p: ProductId | Init(s0) && Runs(s0, steps) && RepeatsOnly(s0, steps, kinds) ::
      Total(PromisedUnits(After(s0, steps).orders, p)) <= AvailableOf(s0, p)
  }

  /** Over whole runs: the sale is not oversold exactly if nothing is repeated but messages about paid orders, or
      nothing but STOCK_DEDUCT_FAILED, which by itself never occurs. */
  lemma RepeatKeepsPromises(kinds: set<MessageKind>)
    ensures PromisesSurvive(kinds) <==> kinds <= SALES || kinds <= {Shortages}
  {
    if kinds <= SALES {
      forall s0, steps, p: ProductId | Init(s0) && Runs(s0, steps) && RepeatsOnly(s0, steps, kinds)
        ensures Total(PromisedUnits(After(s0, steps).orders, p)) <= AvailableOf(s0, p)
      {
        var turns := PlainTurns(s0, steps, kinds);
        RedisGuardsTheSale(s0, turns, kinds, p);
      }
    } else if kinds <= {Shortages} {
      forall s0, steps, p: ProductId | Init(s0) && Runs(s0, steps) && RepeatsOnly(s0, steps, kinds)
        ensures Total(PromisedUnits(After(s0, steps).orders, p)) <= AvailableOf(s0, p)
      {
        OnlyShortages(s0, steps, kinds);
        NoOversell(s0, After(s0, steps), LedgerAfter(s0, steps), p);
      }
    } else {
      var units, steps := OversellingRun(kinds);
    }
  }

  lemma OversellingRun(kinds: set<MessageKind>) returns (units: nat, steps: seq<Step>)
    requires !(kinds <= SALES || kinds <= {Shortages})
    ensures Runs(Shop(units), steps) && RepeatsOnly(Shop(units), steps, kinds)
    ensures Total(PromisedUnits(After(Shop(units), steps).orders, 1)) > units == AvailableOf(Shop(units), 1)
  {
    var least, scene, takers;
    units, least, scene, takers := OversellsSomehow(kinds);
    R.ShopOpens(units);
    steps := R.Act(Shop(units), least, R.Opening(units), scene);
    E.Oversold(After(Shop(units), steps), scene, takers, units);
    MoreKinds(Shop(units), steps, least, kinds);
  }

  /** A run that repeats one ORDER_CANCELLED, and in which one unit is promised to two buyers. */
  lemma UnitSoldTwice() returns (steps: seq<Step>)
    ensures Runs(Shop(1), steps) && RepeatsOnly(Shop(1), steps, {Cancellations})
    ensures Total(PromisedUnits(After(Shop(1), steps).orders, 1)) > 1
  {
    var scene, takers := E.CancellationOversells();
    R.ShopOpens(1);
    steps := R.Act(Shop(1), {Cancellations}, R.Opening(1), scene);
    E.Oversold(After(Shop(1), steps), scene, takers, 1);
  }

  lemma OversellsSomehow(kinds: set<MessageKind>)
    returns (units: nat, least: set<MessageKind>, scene: R.Scene, takers: set<OrderNo>)
    requires !(kinds <= SALES || kinds <= {Shortages})
    ensures least <= kinds && R.Playable(R.Opening(units), least, scene) && E.Overpromises(scene, takers, units)
  {
    units := 1;
    if Creations in kinds {
      least := {Creations};
      scene, takers := E.CreationOversells();
    } else if Deductions in kinds {
      least := {Deductions};
      scene, takers := E.DeductionOversells();
    } else if Requests in kinds {
      least := {Requests};
      scene, takers := E.RequestOversells();
    } else if Failures in kinds {
      least := {Failures};
      scene, takers := E.FailureOversells();
    } else if Cancellations in kinds {
      least := {Cancellations};
      scene, takers := E.CancellationOversells();
    } else {
      units := 3;
      OnlySalesAndShortages(kinds);
      if Completions in kinds {
        least := {Completions, Shortages};
        scene, takers := E.CompletionAndShortageOversell();
      } else {
        least := {Successes, Shortages};
        scene, takers := E.SuccessAndShortageOversell();
      }
    }
  }

  lemma OnlySalesAndShortages(kinds: set<MessageKind>)
    requires !(kinds <= SALES || kinds <= {Shortages})
    requires Creations !in kinds && Deductions !in kinds && Requests !in kinds
    requires Failures !in kinds && Cancellations !in kinds
    ensures Shortages in kinds && (Completions in kinds || Successes in kinds)
  {
    var k :| k in kinds && k !in SALES;
    EveryKind(k);
    var l :| l in kinds && l != Shortages;
    EveryKind(l);
  }

  lemma EveryKind(k: MessageKind)
    ensures k == Creations || k == Requests || k == Deductions || k == Failures || k == Cancellations
            || k == Shortages || k == Completions || k == Successes
  {
  }

  // ---------------------------------------------------------------- overselling, whatever the inventory does

  /** What is promised stays within the initial stock, although these kinds of messages are repeated and the inventory
      may become anything at any time. */
  ghost predicate PromisesSurviveTurns(kinds: set<MessageKind>) {
    forall s0, turns, p: ProductId | Init(s0) && Taken(s0, turns) && TurnsRepeatOnly(s0, turns, kinds) ::
      Total(PromisedUnits(AfterTurns(s0, turns).orders, p)) <= AvailableOf(s0, p)
  }

  /** If nothing at all is known of the inventory, a STOCK_DEDUCT_FAILED does occur, and must not be repeated either:
      the sale is then not oversold exactly if nothing is repeated but messages about paid orders. */
  lemma RepeatKeepsPromisesAnyway(kinds: set<MessageKind>)
    ensures PromisesSurviveTurns(kinds) <==> kinds <= SALES
  {
    if kinds <= SALES {
      forall s0, turns, p: ProductId | Init(s0) && Taken(s0, turns) && TurnsRepeatOnly(s0, turns, kinds)
        ensures Total(PromisedUnits(AfterTurns(s0, turns).orders, p)) <= AvailableOf(s0, p)
      {
        RedisGuardsTheSale(s0, turns, kinds, p);
      }
    } else if Shortages in kinds {
      var turns := ShortageSellsTwice(kinds);
    } else {
      var units, steps := OversellingRun(kinds);
      var turns := PlainTurns(Shop(units), steps, kinds);
    }
  }

  function Shelf(available: int): InventoryStore.Stock {
    map[1 := InventoryStore.Row(available, available, 0, 0)]
  }

  lemma ShortageSellsTwice(kinds: set<MessageKind>) returns (turns: seq<Turn>)
    requires Shortages in kinds
    ensures Taken(Shop(1), turns) && TurnsRepeatOnly(Shop(1), turns, kinds)
    ensures Total(PromisedUnits(AfterTurns(Shop(1), turns).orders, 1)) > 1 == AvailableOf(Shop(1), 1)
  {
    var scene;
    turns, scene := ShortageTurns(kinds);
    var s1 := Found(AfterTurns(Shop(1), turns), Shelf(2));
    var restocked := scene.(v := scene.v.(available := 2));
    assert R.Opens(s1, restocked);
    var last, takers := E.BothSold(kinds, restocked);
    var more := R.Act(s1, kinds, restocked, last);
    E.Oversold(After(s1, more), last, takers, 1);
    assert more != [];
    turns := RunsAreTurns(Shop(1), turns, Shelf(2), more, kinds);
  }

  lemma ShortageTurns(kinds: set<MessageKind>) returns (turns: seq<Turn>, scene: R.Scene)
    requires Shortages in kinds
    ensures Taken(Shop(1), turns) && TurnsRepeatOnly(Shop(1), turns, kinds)
    ensures R.Opens(AfterTurns(Shop(1), turns), scene)
    ensures scene.v.redis == 2 && scene.v.available == 0 && scene.v.locked == 0 && |scene.rows| == scene.v.count
    ensures scene.v.users == map[5 := 7] && scene.v.spots.Keys == {5}
  {
    scene := E.ShortageCancelsTwice();
    var s1 := Found(Shop(1), Shelf(0));
    assert R.Opens(s1, E.EMPTY_SHELF);
    var steps := R.Act(s1, {Shortages}, E.EMPTY_SHELF, scene);
    MoreKinds(s1, steps, {Shortages}, kinds);
    assert steps != [];
    turns := RunsAreTurns(Shop(1), [], Shelf(0), steps, kinds);
  }
}

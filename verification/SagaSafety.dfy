/** What the ledger invariant means for users of the saga: no oversell, legal statuses, and agreement
    between the order, payment and Redis records, in every state an at-most-once run can reach. */
module SagaSafety {
  import opened Events
  import opened SagaProtocol
  import opened SagaLedger
  import opened SagaInvariant
  import opened Totals
  import OrderStore
  import InventoryStore

  // ---------------------------------------------------------------- stock

  /** Units of a product in orders that await payment or are paid. */
  function PromisedUnits(orders: OrderStore.Orders, p: ProductId): map<nat, int> {
    map no | no in orders :: if orders[no].product == p && Promised(orders[no].status) then orders[no].quantity else 0
  }

  predicate Promised(status: OrderStore.Status) {
    status.AwaitingPayment? || status.Paid?
  }

  /** Redis never promises more than the database has: counter, overdrafts, reservations of calls, orders not
      yet deducted and units returned but not yet restored stay within the available stock. */
  lemma Coupling(s0: State, s: State, g: Ledger, p: ProductId)
    requires Reachable(s0, s, g)
    ensures StockOf(s, p) + CallsHold(s.calls, p, Overdrawn) + CallsHold(s.calls, p, InTransit)
            + OrdersHold(s.orders, g.tracks, p, InTransit) + LeakOf(g, p) <= AvailableOf(s, p)
    ensures StockOf(s, p) + CallsHold(s.calls, p, Overdrawn) + LeakOf(g, p) >= 0 && LeakOf(g, p) >= 0
  {
    ReachableKeeps(s0, s, g);
    assert Balanced(s0, s, g, p);
  }

  /** Hence every guard on the inventory row holds: an ORDER_CREATED not yet handled finds enough available
      stock, a first ORDER_COMPLETED or ORDER_CANCELLED finds enough locked stock. */
  lemma GuardsHold(s0: State, s: State, g: Ledger, r: nat)
    requires Reachable(s0, s, g) && r < |s.rows| && r !in s.consumed
    ensures match s.rows[r]
            case OrderCreated(_, _, p, q, _) => InventoryStore.Deduct(s.inventory, p, q).1.Deducted?
            case OrderCompleted(_, p, q) => p in s.inventory && InventoryStore.ConfirmDeduction(s.inventory[p], q).Some?
            case OrderCancelled(_, _, p, q) => p in s.inventory && InventoryStore.ReturnStock(s.inventory[p], q).Some?
            case _ => true
  {
    ReachableKeeps(s0, s, g);
    RowIsWaiting(s0, s, g, r);
  }

  /** No step of an at-most-once run writes STOCK_DEDUCT_FAILED. */
  lemma RowsAdded(s0: State, s: State, g: Ledger, step: Step)
    requires Init(s0) && Books(s0, s, g) && Tracked(s, g) && Enabled(s, step) && FirstDelivery(s, step)
    ensures var s' := Apply(s, step);
            s'.rows == s.rows || exists e: Event :: !e.StockDeductFailed? && s'.rows == s.rows + [e]
  {
    match step {
      case Transact(c, no, failed) =>
      case Deliver(r, h, charged) =>
        FirstDeliveryAdvances(s0, s, g, r, h, charged);
        var no := s.rows[r].order;
        var next := NextStage(g.tracks[no].stage, charged);
        if Open(next) {
          assert !Token(no, s.orders[no], next).StockDeductFailed?;
        } else {
          assert s.rows + [] == s.rows;
        }
      case Continue(_, _) =>
      case _ =>
    }
  }

  lemma {:induction false} RunNeverFailsStock(s0: State, steps: seq<Step>)
    requires Init(s0) && Runs(s0, steps) && AtMostOnce(s0, steps)
    ensures forall e | e in After(s0, steps).rows :: !e.StockDeductFailed?
    decreases |steps|
  {
    if steps != [] {
      var before := Front(steps);
      RunNeverFailsStock(s0, before);
      RunKeeps(s0, before);
      RowsAdded(s0, After(s0, before), LedgerAfter(s0, before), Last(steps));
    }
  }

  lemma StockNeverFails(s0: State, s: State, g: Ledger)
    requires Reachable(s0, s, g)
    ensures forall e | e in s.rows :: !e.StockDeductFailed?
  {
    var steps := RunTo(s0, s, g);
    RunNeverFailsStock(s0, steps);
  }

  lemma PromisesWithinStock(orders: OrderStore.Orders, tracks: map<OrderNo, Track>, p: ProductId)
    requires OrdersTracked(orders, tracks)
    ensures Total(PromisedUnits(orders, p))
            <= OrdersHold(orders, tracks, p, Locked) + OrdersHold(orders, tracks, p, Sold)
  {
    var promised := PromisedUnits(orders, p);
    var locked, sold := OrderEntries(orders, tracks, p, Locked), OrderEntries(orders, tracks, p, Sold);
    var both := map no | no in orders && no in tracks :: locked[no] + sold[no];
    TotalSum(locked, sold, both);
    forall no | no in promised ensures promised[no] <= both[no] {
      PromisedIsHeld(orders[no], tracks[no], p);
    }
    TotalMonotone(promised, both);
  }

  lemma PromisedIsHeld(o: OrderStore.Order, t: Track, p: ProductId)
    requires o.quantity >= 1 && o.status == StatusOf(t.stage)
    ensures OrderUnits(o, t, p, Locked) + OrderUnits(o, t, p, Sold)
            >= if o.product == p && Promised(o.status) then o.quantity else 0
  {
  }

  lemma BooksAreSane(s0: State, s: State, g: Ledger, p: ProductId)
    requires Balanced(s0, s, g, p) && OrdersTracked(s.orders, g.tracks) && CallsValid(s)
    requires AvailableOf(s0, p) >= StockOf(s0, p)
    ensures 0 <= AvailableOf(s, p) && 0 <= LockedOf(s, p) && 0 <= OrdersHold(s.orders, g.tracks, p, Sold)
  {
    HoldBounds(s, g, p, InTransit);
    HoldBounds(s, g, p, Locked);
    HoldBounds(s, g, p, Sold);
  }

  /** No oversell, end to end: what is promised to customers never exceeds the stock the sale started with. */
  lemma NoOversell(s0: State, s: State, g: Ledger, p: ProductId)
    requires Reachable(s0, s, g)
    ensures Total(PromisedUnits(s.orders, p)) <= AvailableOf(s0, p)
  {
    ReachableKeeps(s0, s, g);
    assert Balanced(s0, s, g, p);
    BooksAreSane(s0, s, g, p);
    PromisesWithinStock(s.orders, g.tracks, p);
  }

  /** Locked stock is what orders deducted but neither confirmed nor returned hold, no column is ever negative, and
      nothing comes into the stock that was not there. */
  lemma LockedIsHeld(s0: State, s: State, g: Ledger, p: ProductId)
    requires Reachable(s0, s, g)
    ensures LockedOf(s, p) == OrdersHold(s.orders, g.tracks, p, Locked)
    ensures 0 <= AvailableOf(s, p) && 0 <= LockedOf(s, p) && AvailableOf(s, p) + LockedOf(s, p) <= AvailableOf(s0, p)
  {
    ReachableKeeps(s0, s, g);
    assert Balanced(s0, s, g, p);
    BooksAreSane(s0, s, g, p);
  }

  // ---------------------------------------------------------------- statuses

  /** The moves an order makes along the saga. */
  predicate StageMove(a: Stage, b: Stage) {
    || a == b
    || (a.Created? && b.Reserved?) || (a.Reserved? && b.Requested?) || (a.Requested? && b.Charged?)
    || (a == Charged(true) && b.Completed?) || (a == Charged(false) && b.Cancelled?)
    || (a.Completed? && b.Confirmed?) || (a.Cancelled? && b.Returned?)
    || (a.Returned? && b.Restored?) || (a.Restored? && b.Released?)
  }

  /** What the payment service decided about an order, once it has. */
  function Charge(stage: Stage): Option<bool> {
    match stage
    case Created | Reserved | Requested => None
    case Charged(ok) => Some(ok)
    case Completed | Confirmed => Some(true)
    case _ => Some(false)
  }

  /** Orders stay, keep everything but their status, and move along the saga; new ones start at its beginning. */
  ghost predicate TracksMove(orders: OrderStore.Orders, tracks: map<OrderNo, Track>, orders': OrderStore.Orders,
                             tracks': map<OrderNo, Track>) {
    && (forall no | no in orders && no in tracks ::
          && no in orders' && no in tracks' && StageMove(tracks[no].stage, tracks'[no].stage)
          && orders'[no] == orders[no].(status := orders'[no].status))
    && (forall no | no in tracks' && no !in tracks :: tracks'[no].stage.Created?)
  }

  /** No order is charged by the step. */
  ghost predicate Uncharged(tracks: map<OrderNo, Track>, tracks': map<OrderNo, Track>) {
    forall no | no in tracks && no in tracks' :: Charge(tracks'[no].stage) == Charge(tracks[no].stage)
  }

  predicate Charges(s: State, step: Step) {
    step.Deliver? && step.row < |s.rows| && s.rows[step.row].PaymentRequested?
  }

  ghost predicate StepMovesTracks(s: State, g: Ledger, step: Step)
    requires Enabled(s, step)
  {
    && TracksMove(s.orders, g.tracks, Apply(s, step).orders, Follow(s, g, step).tracks)
    && (!Charges(s, step) ==>
          && Uncharged(g.tracks, Follow(s, g, step).tracks)
          && Apply(s, step).payments == s.payments)
  }

  lemma StepMoves(s0: State, s: State, g: Ledger, step: Step)
    requires Init(s0) && Books(s0, s, g) && Tracked(s, g) && Enabled(s, step) && FirstDelivery(s, step)
    ensures StepMovesTracks(s, g, step)
  {
    match step {
      case Transact(c, no, failed) => TransactMovesTrack(s, g, c, no, failed);
      case Deliver(r, h, charged) => DeliverMovesTrack(s0, s, g, r, h, charged);
      case Continue(h, executed) => ContinueMovesTrack(s, g, h, executed);
      case Publish(_) | ExpireKey(_) | ExpireResult(_) =>
      case _ => CallStepMovesNoTrack(s, g, step);
    }
  }

  lemma CallStepMovesNoTrack(s: State, g: Ledger, step: Step)
    requires Tracked(s, g) && Enabled(s, step) && CallStep(step)
    ensures StepMovesTracks(s, g, step)
  {
    assert Apply(s, step).orders == s.orders && Follow(s, g, step).tracks == g.tracks;
  }

  lemma TransactMovesTrack(s: State, g: Ledger, c: nat, no: OrderNo, failed: bool)
    requires Tracked(s, g) && Enabled(s, Transact(c, no, failed))
    ensures StepMovesTracks(s, g, Transact(c, no, failed))
  {
    TransactEffect(s, g, c, no, failed);
    if Commits(s, s.calls[c], no, failed) {
      InsertMovesTracks(s.orders, g.tracks, no, NewOrder(s.calls[c]), |s.rows|);
    }
  }

  lemma InsertMovesTracks(orders: OrderStore.Orders, tracks: map<OrderNo, Track>, no: OrderNo, o: OrderStore.Order,
                          at: nat)
    requires orders.Keys == tracks.Keys && no !in orders
    ensures TracksMove(orders, tracks, orders[no := o], tracks[no := Track(Created, at)])
    ensures Uncharged(tracks, tracks[no := Track(Created, at)])
  {
  }

  lemma DeliverPayments(s: State, r: nat, h: nat, charged: bool)
    requires Enabled(s, Deliver(r, h, charged)) && !s.rows[r].PaymentRequested?
    ensures Apply(s, Deliver(r, h, charged)).payments == s.payments
  {
  }

  lemma AdvanceMovesTrack(orders: OrderStore.Orders, tracks: map<OrderNo, Track>, no: OrderNo, charged: bool,
                          status: OrderStore.Status, t: Track)
    requires OrdersTracked(orders, tracks) && no in orders && Open(tracks[no].stage)
    requires t.stage == NextStage(tracks[no].stage, charged)
    ensures TracksMove(orders, tracks, orders[no := orders[no].(status := status)], tracks[no := t])
    ensures !tracks[no].stage.Requested? ==> Uncharged(tracks, tracks[no := t])
  {
  }

  lemma DeliverMovesTrack(s0: State, s: State, g: Ledger, r: nat, h: nat, charged: bool)
    requires Init(s0) && Books(s0, s, g) && Tracked(s, g) && Enabled(s, Deliver(r, h, charged)) && r !in s.consumed
    ensures StepMovesTracks(s, g, Deliver(r, h, charged))
  {
    FirstDeliveryAdvances(s0, s, g, r, h, charged);
    RowIsWaiting(s0, s, g, r);
    var no := s.rows[r].order;
    var t := FollowDeliver(s, g, r, h, charged).tracks[no];
    AdvanceMovesTrack(s.orders, g.tracks, no, charged, StatusOf(t.stage), t);
    if !s.rows[r].PaymentRequested? {
      DeliverPayments(s, r, h, charged);
    }
  }

  lemma CleanUpMovesTrack(orders: OrderStore.Orders, tracks: map<OrderNo, Track>, no: OrderNo, t: Track)
    requires orders.Keys == tracks.Keys && no in tracks && StageMove(tracks[no].stage, t.stage)
    requires CleaningUp(tracks[no].stage)
    ensures TracksMove(orders, tracks, orders, tracks[no := t]) && Uncharged(tracks, tracks[no := t])
  {
  }

  lemma ContinueMovesTrack(s: State, g: Ledger, h: nat, executed: bool)
    requires Tracked(s, g) && Enabled(s, Continue(h, executed))
    ensures StepMovesTracks(s, g, Continue(h, executed))
  {
    ContinueFrame(s, h, executed);
    if !s.handlers[h].WriteVerdict? {
      var no := s.handlers[h].order;
      assert s.handlers[h] == Chore(no, s.orders[no], g.tracks[no].stage);
      CleanUpMovesTrack(s.orders, g.tracks, no, FollowContinue(s, g, h, executed).tracks[no]);
    }
  }

  lemma ContinueFrame(s: State, h: nat, executed: bool)
    requires Enabled(s, Continue(h, executed))
    ensures var s' := Apply(s, Continue(h, executed)); s'.orders == s.orders && s'.payments == s.payments
  {
  }

  /** One step's worth of the documented status machine. STOCK_DEDUCT_FAILED being unreachable,
      Pending never moves straight to Cancelled. */
  predicate StatusMove(a: OrderStore.Status, b: OrderStore.Status) {
    a == b || (a.Pending? && b.AwaitingPayment?) || (a.AwaitingPayment? && (b.Paid? || b.Cancelled?))
  }

  lemma TrackMoveIsStatusMove(orders: OrderStore.Orders, tracks: map<OrderNo, Track>, orders': OrderStore.Orders,
                              tracks': map<OrderNo, Track>, no: OrderNo)
    requires OrdersTracked(orders, tracks) && OrdersTracked(orders', tracks')
             && TracksMove(orders, tracks, orders', tracks')
    requires no in orders
    ensures no in orders' && StatusMove(orders[no].status, orders'[no].status)
    ensures orders'[no] == orders[no].(status := orders'[no].status)
  {
  }

  lemma StepKeepsStatus(s0: State, s: State, g: Ledger, step: Step, no: OrderNo)
    requires Init(s0) && Books(s0, s, g) && Tracked(s, g) && Enabled(s, step) && FirstDelivery(s, step)
             && no in s.orders
    ensures no in Apply(s, step).orders
    ensures var o, o' := s.orders[no], Apply(s, step).orders[no];
            StatusMove(o.status, o'.status) && o' == o.(status := o'.status)
  {
    StepKeeps(s0, s, g, step);
    StepMoves(s0, s, g, step);
    TrackMoveIsStatusMove(s.orders, g.tracks, Apply(s, step).orders, Follow(s, g, step).tracks, no);
  }

  /** Although every status write is unconditional, a step only ever moves an order along the status machine,
      and changes nothing else of it. */
  lemma StatusStep(s0: State, s: State, g: Ledger, step: Step, no: OrderNo)
    requires Reachable(s0, s, g) && Enabled(s, step) && FirstDelivery(s, step) && no in s.orders
    ensures no in Apply(s, step).orders
    ensures var o, o' := s.orders[no], Apply(s, step).orders[no];
            StatusMove(o.status, o'.status) && o' == o.(status := o'.status)
  {
    ReachableKeeps(s0, s, g);
    StepKeepsStatus(s0, s, g, step, no);
  }

  /** Over whole runs: an order row is never lost, only its status changes, and Paid and Cancelled are final. */
  lemma {:induction false} StatusOverRuns(s0: State, steps: seq<Step>, i: nat, no: OrderNo)
    requires Init(s0) && Runs(s0, steps) && AtMostOnce(s0, steps) && i <= |steps|
    ensures Runs(s0, steps[..i])
    ensures no in After(s0, steps[..i]).orders ==>
              && no in After(s0, steps).orders
              && StatusOver(After(s0, steps[..i]).orders[no], After(s0, steps).orders[no])
    decreases |steps|
  {
    PrefixRuns(s0, steps, i);
    if i == |steps| {
      assert steps[..i] == steps;
    } else {
      assert Front(steps)[..i] == steps[..i];
      StatusOverRuns(s0, Front(steps), i, no);
      if no in After(s0, steps[..i]).orders {
        RunKeeps(s0, Front(steps));
        StepKeepsStatus(s0, After(s0, Front(steps)), LedgerAfter(s0, Front(steps)), Last(steps), no);
      }
    }
  }

  /** What can have become of an order after any number of steps. */
  predicate StatusOver(early: OrderStore.Order, late: OrderStore.Order) {
    && late == early.(status := late.status)
    && (early.status.Paid? || early.status.Cancelled? ==> late == early)
    && (early.status.AwaitingPayment? ==> !late.status.Pending?)
  }

  // ---------------------------------------------------------------- agreement between the services

  /** One payment row for every order that has been charged, none for the others. */
  ghost predicate PaymentsAgree(payments: seq<Payment>, orders: OrderStore.Orders, tracks: map<OrderNo, Track>) {
    && (forall i | 0 <= i < |payments| ::
          var pay := payments[i];
          pay.order in orders && pay.order in tracks && Charge(tracks[pay.order].stage) == Some(pay.succeeded)
          && pay.amount == orders[pay.order].total && pay.user == orders[pay.order].user)
    && (forall i, j | 0 <= i < j < |payments| :: payments[i].order != payments[j].order)
    && (forall no | no in tracks && Charge(tracks[no].stage).Some? ::
          exists i :: 0 <= i < |payments| && payments[i].order == no)
  }

  predicate Truthful(verdict: OrderStore.Verdict, orders: OrderStore.Orders, no: OrderNo) {
    match verdict
    case InProgress => true
    case Success => no in orders && orders[no].status.Paid?
    case Failed => no in orders && orders[no].status.Cancelled?
  }

  /** Verdicts in Redis, and verdicts about to be written, match the order's status. */
  ghost predicate VerdictsAgree(s: State) {
    && (forall no | no in s.results :: Truthful(s.results[no], s.orders, no))
    && (forall h | h in s.handlers && s.handlers[h].WriteVerdict? ::
          Truthful(s.handlers[h].verdict, s.orders, s.handlers[h].order) && !s.handlers[h].verdict.InProgress?)
  }

  /** Payments stay in agreement while orders move without being charged. */
  lemma PaymentsStable(payments: seq<Payment>, orders: OrderStore.Orders, tracks: map<OrderNo, Track>,
                       orders': OrderStore.Orders, tracks': map<OrderNo, Track>)
    requires PaymentsAgree(payments, orders, tracks) && orders.Keys == tracks.Keys
    requires TracksMove(orders, tracks, orders', tracks') && Uncharged(tracks, tracks')
    ensures PaymentsAgree(payments, orders', tracks')
  {
    forall no | no in tracks' && Charge(tracks'[no].stage).Some?
      ensures exists i :: 0 <= i < |payments| && payments[i].order == no
    {
      assert no in tracks && Charge(tracks[no].stage).Some?;
    }
  }

  /** A charge adds the one payment row of its order. */
  lemma PaymentsAdded(payments: seq<Payment>, orders: OrderStore.Orders, tracks: map<OrderNo, Track>, no: OrderNo,
                      ok: bool, at: nat)
    requires PaymentsAgree(payments, orders, tracks) && orders.Keys == tracks.Keys
    requires no in orders && tracks[no].stage.Requested?
    ensures PaymentsAgree(payments + [Payment(no, orders[no].user, orders[no].total, ok)], orders,
                          tracks[no := Track(Charged(ok), at)])
  {
    var payments' := payments + [Payment(no, orders[no].user, orders[no].total, ok)];
    var tracks' := tracks[no := Track(Charged(ok), at)];
    forall n | n in tracks' && Charge(tracks'[n].stage).Some?
      ensures exists i :: 0 <= i < |payments'| && payments'[i].order == n
    {
      if n == no {
        assert payments'[|payments|].order == no;
      } else {
        var i :| 0 <= i < |payments| && payments[i].order == n;
        assert payments'[i].order == n;
      }
    }
  }

  lemma ChargeAddsPayment(s: State, g: Ledger, r: nat, h: nat, charged: bool, no: OrderNo)
    requires Enabled(s, Deliver(r, h, charged)) && Waiting(s, r, no, Requested)
    requires no in g.tracks && g.tracks[no] == Track(Requested, r)
    ensures var s', g' := Apply(s, Deliver(r, h, charged)), Follow(s, g, Deliver(r, h, charged));
            && s'.orders == s.orders && g'.tracks == g.tracks[no := Track(Charged(charged), |s.rows|)]
            && s'.payments == s.payments + [Payment(no, s.orders[no].user, s.orders[no].total, charged)]
  {
  }

  lemma StepPayments(s0: State, s: State, g: Ledger, step: Step)
    requires Init(s0) && Books(s0, s, g) && Tracked(s, g) && Enabled(s, step) && FirstDelivery(s, step)
    requires PaymentsAgree(s.payments, s.orders, g.tracks)
    ensures PaymentsAgree(Apply(s, step).payments, Apply(s, step).orders, Follow(s, g, step).tracks)
  {
    if Charges(s, step) {
      var r, h, charged := step.row, step.handler, step.charged;
      var no := s.rows[r].order;
      RowIsWaiting(s0, s, g, r);
      assert g.tracks[no].stage.Requested?;
      ChargeAddsPayment(s, g, r, h, charged, no);
      PaymentsAdded(s.payments, s.orders, g.tracks, no, charged, |s.rows|);
    } else {
      StepMoves(s0, s, g, step);
      PaymentsStable(s.payments, s.orders, g.tracks, Apply(s, step).orders, Follow(s, g, step).tracks);
    }
  }

  /** The verdicts in Redis and in handlers that a step can add. */
  ghost predicate VerdictsFrom(s: State, s': State) {
    && (forall no | no in s'.results ::
          || (no in s.results && s'.results[no] == s.results[no])
          || s'.results[no].InProgress?
          || (exists h :: h in s.handlers && s.handlers[h] == WriteVerdict(no, s'.results[no])))
    && (forall h | h in s'.handlers && s'.handlers[h].WriteVerdict? ::
          || (h in s.handlers && s'.handlers[h] == s.handlers[h])
          || (Truthful(s'.handlers[h].verdict, s'.orders, s'.handlers[h].order) && !s'.handlers[h].verdict.InProgress?))
  }

  lemma StepVerdictsFrom(s0: State, s: State, g: Ledger, step: Step)
    requires Init(s0) && Books(s0, s, g) && Tracked(s, g) && Enabled(s, step) && FirstDelivery(s, step)
    ensures VerdictsFrom(s, Apply(s, step))
  {
    match step {
      case Deliver(r, h, charged) =>
        FirstDeliveryAdvances(s0, s, g, r, h, charged);
        DeliverWritesNoResult(s, r, h, charged);
        DeliveredVerdicts(s, Apply(s, step), r, h, s.rows[r].order, g.tracks[s.rows[r].order].stage, charged);
      case Continue(h, executed) => ContinueVerdicts(s, h, executed);
      case Transact(_, _, _) =>
      case ExpireResult(_) =>
      case Publish(_) =>
      case ExpireKey(_) =>
      case _ => CallStepVerdicts(s, step);
    }
  }

  lemma CallStepVerdicts(s: State, step: Step)
    requires Enabled(s, step) && CallStep(step)
    ensures VerdictsFrom(s, Apply(s, step))
  {
    assert Apply(s, step).handlers == s.handlers;
  }

  lemma DeliveredVerdicts(s: State, s': State, r: nat, h: nat, no: OrderNo, stage: Stage, charged: bool)
    requires no in s.orders && Open(stage) && Delivered(s, s', r, h, no, stage, charged) && s'.results == s.results
    ensures VerdictsFrom(s, s')
  {
  }

  lemma DeliverWritesNoResult(s: State, r: nat, h: nat, charged: bool)
    requires Enabled(s, Deliver(r, h, charged))
    ensures Apply(s, Deliver(r, h, charged)).results == s.results
  {
  }

  lemma ContinueVerdicts(s: State, h: nat, executed: bool)
    requires Enabled(s, Continue(h, executed))
    ensures VerdictsFrom(s, Apply(s, Continue(h, executed)))
  {
  }

  lemma VerdictsStable(s: State, s': State)
    requires VerdictsAgree(s) && VerdictsFrom(s, s')
    requires forall no | no in s.orders && (s.orders[no].status.Paid? || s.orders[no].status.Cancelled?) ::
               no in s'.orders && s'.orders[no].status == s.orders[no].status
    ensures VerdictsAgree(s')
  {
  }

  lemma StepVerdicts(s0: State, s: State, g: Ledger, step: Step)
    requires Init(s0) && Books(s0, s, g) && Tracked(s, g) && Enabled(s, step) && FirstDelivery(s, step)
    requires VerdictsAgree(s)
    ensures VerdictsAgree(Apply(s, step))
  {
    var s', g' := Apply(s, step), Follow(s, g, step);
    StepKeeps(s0, s, g, step);
    StepMoves(s0, s, g, step);
    forall no | no in s.orders && (s.orders[no].status.Paid? || s.orders[no].status.Cancelled?)
      ensures no in s'.orders && s'.orders[no].status == s.orders[no].status
    {
      TrackMoveIsStatusMove(s.orders, g.tracks, s'.orders, g'.tracks, no);
    }
    StepVerdictsFrom(s0, s, g, step);
    VerdictsStable(s, s');
  }

  lemma {:induction false} RunAgrees(s0: State, steps: seq<Step>)
    requires Init(s0) && Runs(s0, steps) && AtMostOnce(s0, steps)
    ensures var s := After(s0, steps);
            VerdictsAgree(s) && PaymentsAgree(s.payments, s.orders, LedgerAfter(s0, steps).tracks)
    decreases |steps|
  {
    if steps != [] {
      var before := Front(steps);
      RunAgrees(s0, before);
      RunKeeps(s0, before);
      StepPayments(s0, After(s0, before), LedgerAfter(s0, before), Last(steps));
      StepVerdicts(s0, After(s0, before), LedgerAfter(s0, before), Last(steps));
    }
  }

  lemma ReachableAgrees(s0: State, s: State, g: Ledger)
    requires Reachable(s0, s, g)
    ensures Tracked(s, g) && VerdictsAgree(s) && PaymentsAgree(s.payments, s.orders, g.tracks)
  {
    var steps := RunTo(s0, s, g);
    RunAgrees(s0, steps);
    RunKeeps(s0, steps);
  }

  /** At most one payment row per order, with the order's price and user; a paid order has a successful one, a
      cancelled order a failed one, a pending order none. */
  ghost predicate PaymentsMatch(payments: seq<Payment>, orders: OrderStore.Orders) {
    && (forall i | 0 <= i < |payments| ::
          var pay := payments[i];
          && pay.order in orders && pay.amount == orders[pay.order].total && pay.user == orders[pay.order].user
          && !orders[pay.order].status.Pending?
          && (orders[pay.order].status.Paid? ==> pay.succeeded)
          && (orders[pay.order].status.Cancelled? ==> !pay.succeeded))
    && (forall i, j | 0 <= i < j < |payments| :: payments[i].order != payments[j].order)
    && (forall no | no in orders && (orders[no].status.Paid? || orders[no].status.Cancelled?) ::
          exists i :: 0 <= i < |payments| && payments[i].order == no)
  }

  lemma PaymentsMatchStatuses(payments: seq<Payment>, orders: OrderStore.Orders, tracks: map<OrderNo, Track>)
    requires PaymentsAgree(payments, orders, tracks) && OrdersTracked(orders, tracks)
    ensures PaymentsMatch(payments, orders)
  {
  }

  /** Cross-service agreement: in every reachable state the payment table matches the order table. */
  lemma PaymentAgreement(s0: State, s: State, g: Ledger)
    requires Reachable(s0, s, g)
    ensures PaymentsMatch(s.payments, s.orders)
  {
    ReachableAgrees(s0, s, g);
    PaymentsMatchStatuses(s.payments, s.orders, g.tracks);
  }

  /** A polling client is told SUCCESS only for a paid order and FAILED only for a cancelled one,
      whether the answer comes from Redis or from the database. */
  lemma PollIsTruthful(s0: State, s: State, g: Ledger, no: OrderNo, redisFails: bool)
    requires Reachable(s0, s, g)
    ensures match OrderStore.Poll(s.results, s.orders, no, redisFails)
            case Success => no in s.orders && s.orders[no].status.Paid?
            case Failed => no in s.orders && s.orders[no].status.Cancelled?
            case InProgress => true
  {
    ReachableAgrees(s0, s, g);
  }
}

/** Concrete runs, used as counterexamples: what becomes of the sale when one kind of message is repeated. */
module SagaExamples {
  import opened Events
  import opened SagaProtocol
  import opened SagaLedger
  import opened SagaSafety
  import opened SagaRepeats
  import opened SagaTraces
  import T = SagaTrails
  import opened SagaShop
  import opened SagaScripts
  import opened Totals
  import OrderStore
  import InventoryStore

  // ---------------------------------------------------------------- scenes

  /** A unit is sold to a new user with a new order. */
  lemma SellTo(first: Scene, kinds: set<MessageKind>, before: Scene, user: UserId, no: OrderNo) returns (scene: Scene)
    requires Playable(first, kinds, before) && before.v.redis >= 1 && before.v.available >= 1
    requires user !in before.v.users.Values && no !in before.v.users && no !in before.v.spots
    requires |before.rows| == before.v.count
    ensures Playable(first, kinds, scene)
    ensures scene.v == Book(before.v.redis - 1, before.v.available - 1, before.v.locked + 1, before.v.count + 3,
                            before.v.users[no := user], before.v.spots[no := On(Requested, before.v.count + 2)])
    ensures scene.rows == before.rows + [OrderCreated(no, user, 1, 1, 10.0), StockDeducted(no, 1, 1),
                                         PaymentRequested(no, user, 10.0)]
    ensures scene.consumed == before.consumed + {before.v.count, before.v.count + 1}
  {
    scene := Go(first, kinds, before, Purchase(user, no));
    scene := Go(first, kinds, scene, Next(no, true));
    scene := Go(first, kinds, scene, Next(no, true));
    assert scene.v.spots == before.v.spots[no := On(Requested, before.v.count + 2)];
  }

  /** User 7 has bought the only unit with order 5. */
  lemma FirstBuys(kinds: set<MessageKind>) returns (scene: Scene)
    ensures Playable(Opening(1), kinds, scene)
    ensures scene == Scene(Book(0, 0, 1, 3, map[5 := 7], map[5 := On(Requested, 2)]),
                           [OrderCreated(5, 7, 1, 1, 10.0), StockDeducted(5, 1, 1), PaymentRequested(5, 7, 10.0)],
                           {0, 1})
  {
    Begins(Opening(1), kinds);
    scene := Go(Opening(1), kinds, Opening(1), Purchase(7, 5));
    scene := Go(Opening(1), kinds, scene, Next(5, true));
    scene := Go(Opening(1), kinds, scene, Next(5, true));
  }

  /** The first order is paid. */
  lemma FirstPays(kinds: set<MessageKind>) returns (scene: Scene)
    ensures Playable(Opening(1), kinds, scene)
    ensures scene == Scene(Book(0, 0, 1, 5, map[5 := 7], map[5 := On(Completed, 4)]),
                           [OrderCreated(5, 7, 1, 1, 10.0), StockDeducted(5, 1, 1), PaymentRequested(5, 7, 10.0),
                            PaymentSucceeded(5, 10.0), OrderCompleted(5, 1, 1)],
                           {0, 1, 2, 3})
  {
    scene := FirstBuys(kinds);
    scene := Go(Opening(1), kinds, scene, Next(5, true));
    scene := Go(Opening(1), kinds, scene, Next(5, true));
  }

  /** As a run, in which nothing is repeated. */
  lemma PaidRun() returns (steps: seq<Step>)
    ensures Ran(Shop(1), steps, {})
    ensures var s := After(Shop(1), steps);
            && 5 in s.orders && s.orders[5].status.Paid? && 1 < |s.rows| && s.rows[1] == StockDeducted(5, 1, 1)
            && 1 in s.consumed
  {
    var scene := FirstPays({});
    ShopOpens(1);
    steps := Act(Shop(1), {}, Opening(1), scene);
    PaidShows(After(Shop(1), steps), scene);
  }

  lemma PaidShows(s: State, scene: Scene)
    requires Opens(s, scene) && 5 in scene.v.spots && scene.v.spots[5] == On(Completed, 4)
    ensures 5 in s.orders && s.orders[5].status.Paid?
  {
    assert OrderShows(s.rows, s.consumed, s.orders[5], 5, scene.v.users[5], scene.v.spots[5]);
  }

  /** And its unit confirmed. */
  lemma FirstConfirmed(kinds: set<MessageKind>) returns (scene: Scene)
    ensures Playable(Opening(1), kinds, scene)
    ensures scene == Scene(Book(0, 0, 0, 5, map[5 := 7], map[5 := Off(OrderStore.Paid)]),
                           [OrderCreated(5, 7, 1, 1, 10.0), StockDeducted(5, 1, 1), PaymentRequested(5, 7, 10.0),
                            PaymentSucceeded(5, 10.0), OrderCompleted(5, 1, 1)],
                           {0, 1, 2, 3, 4})
  {
    scene := FirstPays(kinds);
    scene := Go(Opening(1), kinds, scene, Next(5, true));
  }

  /** The payment has failed. */
  lemma FirstFails(kinds: set<MessageKind>) returns (scene: Scene)
    ensures Playable(Opening(1), kinds, scene)
    ensures scene == Scene(Book(0, 0, 1, 5, map[5 := 7], map[5 := On(Stage.Cancelled, 4)]),
                           [OrderCreated(5, 7, 1, 1, 10.0), StockDeducted(5, 1, 1), PaymentRequested(5, 7, 10.0),
                            PaymentFailed(5, 10.0), OrderCancelled(5, 7, 1, 1)],
                           {0, 1, 2, 3})
  {
    scene := FirstBuys(kinds);
    scene := Go(Opening(1), kinds, scene, Next(5, false));
    scene := Go(Opening(1), kinds, scene, Next(5, false));
  }

  /** Its unit is back and user 8 has bought it with order 6. */
  lemma SecondBuys(kinds: set<MessageKind>) returns (scene: Scene)
    ensures Playable(Opening(1), kinds, scene)
    ensures scene == Scene(Book(0, 0, 1, 8, map[5 := 7, 6 := 8],
                                map[5 := Off(OrderStore.Cancelled), 6 := On(Requested, 7)]),
                           [OrderCreated(5, 7, 1, 1, 10.0), StockDeducted(5, 1, 1), PaymentRequested(5, 7, 10.0),
                            PaymentFailed(5, 10.0), OrderCancelled(5, 7, 1, 1),
                            OrderCreated(6, 8, 1, 1, 10.0), StockDeducted(6, 1, 1), PaymentRequested(6, 8, 10.0)],
                           {0, 1, 2, 3, 4, 5, 6})
  {
    scene := FirstFails(kinds);
    scene := Go(Opening(1), kinds, scene, Cancellation(4));
    scene := SellTo(Opening(1), kinds, scene, 8, 6);
  }

  // ---------------------------------------------------------------- Redis promises more than there is

  /** Redis has a unit to sell, the database has not. */
  predicate Uncovered(scene: Scene) {
    scene.v.redis >= 1 && scene.v.available < 1
  }

  lemma PlayedUncovered(s0: State, kinds: set<MessageKind>, first: Scene, scene: Scene) returns (steps: seq<Step>)
    requires Opens(s0, first) && Playable(first, kinds, scene) && Uncovered(scene)
    ensures Runs(s0, steps) && RepeatsOnly(s0, steps, kinds)
    ensures StockOf(After(s0, steps), 1) > AvailableOf(After(s0, steps), 1)
  {
    steps := Act(s0, kinds, first, scene);
  }

  /** The next buyer's order finds no stock. */
  lemma PlayedShort(s0: State, kinds: set<MessageKind>, first: Scene, before: Scene, user: UserId, no: OrderNo)
    returns (steps: seq<Step>)
    requires Opens(s0, first) && Playable(first, kinds, before) && Uncovered(before)
    requires |before.rows| == before.v.count && forall r | r in before.consumed :: r < |before.rows|
    requires user !in before.v.users.Values && no !in before.v.users && no !in before.v.spots
    ensures Runs(s0, steps) && RepeatsOnly(s0, steps, kinds)
    ensures StockDeductFailed(no, 1) in After(s0, steps).rows
  {
    var n := |before.rows|;
    var scene := Go(first, kinds, before, Purchase(user, no));
    scene := Go(first, kinds, scene, Shortage(n));
    assert scene.rows[n + 1] == StockDeductFailed(no, 1);
    steps := Act(s0, kinds, first, scene);
  }

  // ---------------------------------------------------------------- one repeated hand-over

  /** Order 5 has been completed and yet is not paid, and it has been charged twice, as rows i and j show; and Redis
      has a unit too many. */
  predicate Astray(scene: Scene, i: nat, j: nat) {
    && 5 in scene.v.spots && !SpotStatus(scene.v.spots[5]).Paid? && OrderCompleted(5, 1, 1) in scene.rows
    && i < j < |scene.rows| && IsResult(scene.rows[i], 5) && IsResult(scene.rows[j], 5)
    && Uncovered(scene) && |scene.rows| == scene.v.count && scene.v.users == map[5 := 7]
    && scene.v.spots.Keys == {5} && forall r | r in scene.consumed :: r < |scene.rows|
  }

  lemma PlayedAstray(s0: State, kinds: set<MessageKind>, first: Scene, scene: Scene, i: nat, j: nat)
    returns (steps: seq<Step>)
    requires Init(s0) && Opens(s0, first) && Playable(first, kinds, scene) && Astray(scene, i, j)
    ensures Runs(s0, steps) && RepeatsOnly(s0, steps, kinds)
    ensures !MachineKept(s0, steps) && !T.OnePayment(After(s0, steps).payments)
  {
    steps := Act(s0, kinds, first, scene);
    var s := After(s0, steps);
    assert OrderShows(s.rows, s.consumed, s.orders[5], 5, scene.v.users[5], scene.v.spots[5]);
    TwoResultsTwoPayments(s0, steps, 5, i, j);
    if MachineKept(s0, steps) {
      CompletedIsPaid(s0, steps);
    }
  }

  /** The order is cancelled after all, but its unit is gone: only Redis gets one. */
  lemma GivenBackInVain(kinds: set<MessageKind>, before: Scene, r: nat, i: nat, j: nat) returns (scene: Scene)
    requires Playable(Opening(1), kinds, before)
    requires before.v.redis == 0 && before.v.available == 0 && before.v.locked == 0
    requires |before.rows| == before.v.count && before.v.users == map[5 := 7] && before.v.spots.Keys == {5}
    requires SpotStatus(before.v.spots[5]).Cancelled? && OrderCompleted(5, 1, 1) in before.rows
    requires RowIs(before, r, kinds) && before.rows[r] == OrderCancelled(5, 7, 1, 1)
    requires i < j < |before.rows| && IsResult(before.rows[i], 5) && IsResult(before.rows[j], 5)
    requires forall q | q in before.consumed :: q < |before.rows|
    ensures Playable(Opening(1), kinds, scene) && Astray(scene, i, j)
  {
    scene := Go(Opening(1), kinds, before, Cancellation(r));
  }

  /** One STOCK_DEDUCTED delivered twice: the paid order awaits payment again, is charged again, and cancelled. */
  lemma DeductionRepeated() returns (scene: Scene)
    ensures Playable(Opening(1), {Deductions}, scene) && Astray(scene, 3, 6)
  {
    scene := ChargedAgain();
    scene := Go(Opening(1), {Deductions}, scene, Next(5, false));
    assert scene.rows[4] == OrderCompleted(5, 1, 1);
    scene := GivenBackInVain({Deductions}, scene, 7, 3, 6);
  }

  lemma ChargedAgain() returns (scene: Scene)
    ensures Playable(Opening(1), {Deductions}, scene)
    ensures scene == Scene(Book(0, 0, 0, 7, map[5 := 7], map[5 := On(Charged(false), 6)]),
                           [OrderCreated(5, 7, 1, 1, 10.0), StockDeducted(5, 1, 1), PaymentRequested(5, 7, 10.0),
                            PaymentSucceeded(5, 10.0), OrderCompleted(5, 1, 1),
                            PaymentRequested(5, 7, 10.0), PaymentFailed(5, 10.0)],
                           {0, 1, 2, 3, 4, 5})
  {
    scene := FirstConfirmed({Deductions});
    scene := Go(Opening(1), {Deductions}, scene, Reply(1));
    scene := Go(Opening(1), {Deductions}, scene, Next(5, false));
  }

  /** One PAYMENT_REQUESTED delivered twice, the second payment fails: the order is paid, then cancelled. */
  lemma RequestRepeated() returns (scene: Scene)
    ensures Playable(Opening(1), {Requests}, scene) && Astray(scene, 3, 5)
  {
    scene := RefusedLater();
    assert scene.rows[4] == OrderCompleted(5, 1, 1);
    scene := GivenBackInVain({Requests}, scene, 6, 3, 5);
  }

  lemma RefusedLater() returns (scene: Scene)
    ensures Playable(Opening(1), {Requests}, scene)
    ensures scene == Scene(Book(0, 0, 0, 7, map[5 := 7], map[5 := Off(OrderStore.Cancelled)]),
                           [OrderCreated(5, 7, 1, 1, 10.0), StockDeducted(5, 1, 1), PaymentRequested(5, 7, 10.0),
                            PaymentSucceeded(5, 10.0), OrderCompleted(5, 1, 1),
                            PaymentFailed(5, 10.0), OrderCancelled(5, 7, 1, 1)],
                           {0, 1, 2, 3, 4, 5})
  {
    scene := FirstConfirmed({Requests});
    scene := Go(Opening(1), {Requests}, scene, Recharge(2, false));
    scene := Go(Opening(1), {Requests}, scene, Reply(5));
  }

  /** One ORDER_CREATED delivered twice: its second STOCK_DEDUCTED, delivered once, reopens the paid order. */
  lemma CreationRepeated() returns (scene: Scene)
    ensures Playable(Opening(2), {Creations}, scene) && Astray(scene, 4, 7)
  {
    scene := PaysOnce();
    scene := Go(Opening(2), {Creations}, scene, Reply(1));
    scene := Go(Opening(2), {Creations}, scene, Next(5, true));
  }

  lemma PaysOnce() returns (scene: Scene)
    ensures Playable(Opening(2), {Creations}, scene)
    ensures scene == Scene(Book(1, 0, 2, 6, map[5 := 7], map[5 := On(Completed, 5)]),
                           [OrderCreated(5, 7, 1, 1, 10.0), StockDeducted(5, 1, 1), StockDeducted(5, 1, 1),
                            PaymentRequested(5, 7, 10.0), PaymentSucceeded(5, 10.0), OrderCompleted(5, 1, 1)],
                           {0, 2, 3, 4})
  {
    scene := LocksTwice();
    scene := Go(Opening(2), {Creations}, scene, Next(5, true));
    scene := Go(Opening(2), {Creations}, scene, Next(5, true));
    scene := Go(Opening(2), {Creations}, scene, Next(5, true));
  }

  lemma LocksTwice() returns (scene: Scene)
    ensures Playable(Opening(2), {Creations}, scene)
    ensures scene == Scene(Book(1, 0, 2, 3, map[5 := 7], map[5 := On(Reserved, 2)]),
                           [OrderCreated(5, 7, 1, 1, 10.0), StockDeducted(5, 1, 1), StockDeducted(5, 1, 1)], {0})
  {
    Begins(Opening(2), {Creations});
    scene := Go(Opening(2), {Creations}, Opening(2), Purchase(7, 5));
    scene := Go(Opening(2), {Creations}, scene, Next(5, true));
    scene := Go(Opening(2), {Creations}, scene, Creation(0));
  }

  // ---------------------------------------------------------------- one other message repeated

  /** Two orders, and Redis has a unit too many. */
  predicate UncoveredByTwo(scene: Scene) {
    && Uncovered(scene) && |scene.rows| == scene.v.count && scene.v.users == map[5 := 7, 6 := 8]
    && scene.v.spots.Keys == {5, 6} && forall r | r in scene.consumed :: r < |scene.rows|
  }

  /** The second order is paid and its unit confirmed. */
  lemma SecondConfirmed(kinds: set<MessageKind>) returns (scene: Scene)
    ensures Playable(Opening(1), kinds, scene)
    ensures scene == Scene(Book(0, 0, 0, 10, map[5 := 7, 6 := 8],
                                map[5 := Off(OrderStore.Cancelled), 6 := Off(OrderStore.Paid)]),
                           [OrderCreated(5, 7, 1, 1, 10.0), StockDeducted(5, 1, 1), PaymentRequested(5, 7, 10.0),
                            PaymentFailed(5, 10.0), OrderCancelled(5, 7, 1, 1),
                            OrderCreated(6, 8, 1, 1, 10.0), StockDeducted(6, 1, 1), PaymentRequested(6, 8, 10.0),
                            PaymentSucceeded(6, 10.0), OrderCompleted(6, 1, 1)],
                           {0, 1, 2, 3, 4, 5, 6, 7, 8, 9})
  {
    scene := SecondBuys(kinds);
    scene := Go(Opening(1), kinds, scene, Next(6, true));
    scene := Go(Opening(1), kinds, scene, Next(6, true));
    scene := Go(Opening(1), kinds, scene, Next(6, true));
  }

  /** An ORDER_CANCELLED of the first order when nothing is locked: only Redis gets a unit. */
  lemma ReturnedInVain(kinds: set<MessageKind>, before: Scene, r: nat) returns (scene: Scene)
    requires Playable(Opening(1), kinds, before)
    requires before.v.redis == 0 && before.v.available == 0 && before.v.locked == 0
    requires |before.rows| == before.v.count && before.v.users == map[5 := 7, 6 := 8]
    requires before.v.spots.Keys == {5, 6} && RowIs(before, r, kinds) && before.rows[r] == OrderCancelled(5, 7, 1, 1)
    requires forall q | q in before.consumed :: q < |before.rows|
    ensures Playable(Opening(1), kinds, scene) && UncoveredByTwo(scene)
  {
    scene := Go(Opening(1), kinds, before, Cancellation(r));
  }

  /** ORDER_CANCELLED of the first order again: nothing is locked, but Redis gets a unit. */
  lemma CancellationRepeated() returns (scene: Scene)
    ensures Playable(Opening(1), {Cancellations}, scene) && UncoveredByTwo(scene)
  {
    scene := SecondConfirmed({Cancellations});
    scene := ReturnedInVain({Cancellations}, scene, 4);
  }

  /** PAYMENT_FAILED of the first order again: it brings a second ORDER_CANCELLED. */
  lemma FailureRepeated() returns (scene: Scene)
    ensures Playable(Opening(1), {Failures}, scene) && UncoveredByTwo(scene)
  {
    scene := SecondConfirmed({Failures});
    scene := Go(Opening(1), {Failures}, scene, Reply(3));
    scene := ReturnedInVain({Failures}, scene, 10);
  }

  /** Both units are bought; the first order is paid, the second one cancelled, and nothing of it handled yet. */
  lemma PaidAndFailed(kinds: set<MessageKind>) returns (scene: Scene)
    ensures Playable(Opening(2), kinds, scene)
    ensures scene == Scene(Book(0, 0, 2, 10, map[5 := 7, 6 := 8],
                                map[5 := On(Completed, 7), 6 := On(Stage.Cancelled, 9)]),
                           [OrderCreated(5, 7, 1, 1, 10.0), StockDeducted(5, 1, 1), PaymentRequested(5, 7, 10.0),
                            OrderCreated(6, 8, 1, 1, 10.0), StockDeducted(6, 1, 1), PaymentRequested(6, 8, 10.0),
                            PaymentSucceeded(5, 10.0), OrderCompleted(5, 1, 1),
                            PaymentFailed(6, 10.0), OrderCancelled(6, 8, 1, 1)],
                           {0, 1, 2, 3, 4, 5, 6, 8})
  {
    scene := FirstOfTwoPays(kinds);
    scene := Go(Opening(2), kinds, scene, Next(6, false));
    scene := Go(Opening(2), kinds, scene, Next(6, false));
  }

  lemma FirstOfTwoPays(kinds: set<MessageKind>) returns (scene: Scene)
    ensures Playable(Opening(2), kinds, scene)
    ensures scene == Scene(Book(0, 0, 2, 8, map[5 := 7, 6 := 8], map[5 := On(Completed, 7), 6 := On(Requested, 5)]),
                           [OrderCreated(5, 7, 1, 1, 10.0), StockDeducted(5, 1, 1), PaymentRequested(5, 7, 10.0),
                            OrderCreated(6, 8, 1, 1, 10.0), StockDeducted(6, 1, 1), PaymentRequested(6, 8, 10.0),
                            PaymentSucceeded(5, 10.0), OrderCompleted(5, 1, 1)],
                           {0, 1, 2, 3, 4, 6})
  {
    scene := TwoBuy(kinds);
    scene := Go(Opening(2), kinds, scene, Next(5, true));
    scene := Go(Opening(2), kinds, scene, Next(5, true));
  }

  lemma TwoBuy(kinds: set<MessageKind>) returns (scene: Scene)
    ensures Playable(Opening(2), kinds, scene)
    ensures scene == Scene(Book(0, 0, 2, 6, map[5 := 7, 6 := 8], map[5 := On(Requested, 2), 6 := On(Requested, 5)]),
                           [OrderCreated(5, 7, 1, 1, 10.0), StockDeducted(5, 1, 1), PaymentRequested(5, 7, 10.0),
                            OrderCreated(6, 8, 1, 1, 10.0), StockDeducted(6, 1, 1), PaymentRequested(6, 8, 10.0)],
                           {0, 1, 3, 4})
  {
    Begins(Opening(2), kinds);
    scene := SellTo(Opening(2), kinds, Opening(2), 7, 5);
    scene := SellTo(Opening(2), kinds, scene, 8, 6);
  }

  /** ORDER_COMPLETED of the paid order again: it takes the unit that is locked for the other order, whose return then
      finds nothing. */
  lemma CompletionRepeated() returns (scene: Scene)
    ensures Playable(Opening(2), {Completions}, scene) && UncoveredByTwo(scene)
  {
    scene := PaidAndFailed({Completions});
    scene := Go(Opening(2), {Completions}, scene, Completion(7));
    scene := NothingToReturn({Completions}, scene, 7);
  }

  /** The unit of the second order is confirmed by row b, so that its cancellation only reaches Redis. */
  lemma NothingToReturn(kinds: set<MessageKind>, before: Scene, b: nat) returns (scene: Scene)
    requires Playable(Opening(2), kinds, before)
    requires before.v.redis == 0 && before.v.available == 0 && before.v.locked == 1
    requires |before.rows| == before.v.count >= 10 && before.v.users == map[5 := 7, 6 := 8]
    requires before.v.spots.Keys == {5, 6} && before.rows[9] == OrderCancelled(6, 8, 1, 1) && 9 !in before.consumed
    requires RowIs(before, b, kinds) && before.rows[b] == OrderCompleted(5, 1, 1)
    requires forall r | r in before.consumed :: r < |before.rows|
    ensures Playable(Opening(2), kinds, scene) && UncoveredByTwo(scene)
  {
    scene := Go(Opening(2), kinds, before, Completion(b));
    scene := Go(Opening(2), kinds, scene, Cancellation(9));
  }

  /** PAYMENT_SUCCESS of the paid order again: it brings a second ORDER_COMPLETED. */
  lemma SuccessRepeated() returns (scene: Scene)
    ensures Playable(Opening(2), {Successes}, scene) && UncoveredByTwo(scene)
  {
    scene := PaidAgainAndFailed();
    scene := Go(Opening(2), {Successes}, scene, Completion(7));
    scene := NothingToReturn({Successes}, scene, 10);
  }

  lemma PaidAgainAndFailed() returns (scene: Scene)
    ensures Playable(Opening(2), {Successes}, scene)
    ensures scene == Scene(Book(0, 0, 2, 11, map[5 := 7, 6 := 8],
                                map[5 := Off(OrderStore.Paid), 6 := On(Stage.Cancelled, 9)]),
                           [OrderCreated(5, 7, 1, 1, 10.0), StockDeducted(5, 1, 1), PaymentRequested(5, 7, 10.0),
                            OrderCreated(6, 8, 1, 1, 10.0), StockDeducted(6, 1, 1), PaymentRequested(6, 8, 10.0),
                            PaymentSucceeded(5, 10.0), OrderCompleted(5, 1, 1),
                            PaymentFailed(6, 10.0), OrderCancelled(6, 8, 1, 1), OrderCompleted(5, 1, 1)],
                           {0, 1, 2, 3, 4, 5, 6, 8})
  {
    scene := PaidAndFailed({Successes});
    scene := Go(Opening(2), {Successes}, scene, Reply(6));
  }

  // ---------------------------------------------------------------- overselling a single unit

  /** More than the given number of orders take a unit. */
  predicate Overpromises(scene: Scene, takers: set<OrderNo>, units: int) {
    && takers <= scene.v.spots.Keys && |takers| > units
    && forall no | no in takers :: Promised(SpotStatus(scene.v.spots[no]))
  }

  lemma {:induction false} AtLeast(m: map<nat, int>, ks: set<nat>)
    requires ks <= m.Keys && (forall k | k in m :: m[k] >= 0) && forall k | k in ks :: m[k] >= 1
    ensures Total(m) >= |ks|
    decreases |ks|
  {
    if ks == {} {
      TotalBounds(m);
    } else {
      var k :| k in ks;
      TotalRemove(m, k);
      AtLeast(m - {k}, ks - {k});
    }
  }

  /** A scene in which too many orders take a unit shows an oversold state. */
  lemma Oversold(s: State, scene: Scene, takers: set<OrderNo>, units: int)
    requires Opens(s, scene) && Overpromises(scene, takers, units)
    ensures Total(PromisedUnits(s.orders, 1)) > units
  {
    forall no | no in scene.v.spots
      ensures s.orders[no] == OneUnit(scene.v.users[no]).(status := SpotStatus(scene.v.spots[no]))
    {
      assert OrderShows(s.rows, s.consumed, s.orders[no], no, scene.v.users[no], scene.v.spots[no]);
    }
    AtLeast(PromisedUnits(s.orders, 1), takers);
  }

  /** The unit of order 6 has been returned for another order, and user 9 buys it too. */
  lemma ThirdBuys(kinds: set<MessageKind>, before: Scene) returns (scene: Scene)
    requires Playable(Opening(1), kinds, before) && before.v.redis == 1 && before.v.available == 1
    requires before.v.users == map[5 := 7, 6 := 8] && before.v.spots[6 := On(Requested, 7)] == before.v.spots
    requires before.v.spots.Keys == {5, 6} && |before.rows| == before.v.count
    ensures Playable(Opening(1), kinds, scene) && {6, 7} <= scene.v.spots.Keys
    ensures SpotStatus(scene.v.spots[6]).AwaitingPayment? && SpotStatus(scene.v.spots[7]).AwaitingPayment?
  {
    assert before.v.spots[6] == On(Requested, 7);
    scene := SellTo(Opening(1), kinds, before, 9, 7);
  }

  /** STOCK_DEDUCTED of the cancelled order again: it awaits payment after all. */
  lemma DeductionOversells() returns (scene: Scene, takers: set<OrderNo>)
    ensures Playable(Opening(1), {Deductions}, scene) && Overpromises(scene, takers, 1)
  {
    scene := SecondBuys({Deductions});
    scene := Go(Opening(1), {Deductions}, scene, Reply(1));
    takers := {5, 6};
  }

  /** PAYMENT_REQUESTED of the cancelled order again, and charged this time: it is paid after all. */
  lemma RequestOversells() returns (scene: Scene, takers: set<OrderNo>)
    ensures Playable(Opening(1), {Requests}, scene) && Overpromises(scene, takers, 1)
  {
    scene := SecondBuys({Requests});
    scene := Go(Opening(1), {Requests}, scene, Recharge(2, true));
    scene := Go(Opening(1), {Requests}, scene, Reply(8));
    takers := {5, 6};
  }

  /** ORDER_CANCELLED of the cancelled order again. */
  lemma CancellationOversells() returns (scene: Scene, takers: set<OrderNo>)
    ensures Playable(Opening(1), {Cancellations}, scene) && Overpromises(scene, takers, 1)
  {
    scene := SecondBuys({Cancellations});
    scene := Go(Opening(1), {Cancellations}, scene, Cancellation(4));
    scene := ThirdBuys({Cancellations}, scene);
    takers := {6, 7};
  }

  /** PAYMENT_FAILED of the cancelled order again: it brings a second ORDER_CANCELLED. */
  lemma FailureOversells() returns (scene: Scene, takers: set<OrderNo>)
    ensures Playable(Opening(1), {Failures}, scene) && Overpromises(scene, takers, 1)
  {
    scene := CancelledAgain();
    scene := Go(Opening(1), {Failures}, scene, Cancellation(8));
    scene := ThirdBuys({Failures}, scene);
    takers := {6, 7};
  }

  lemma CancelledAgain() returns (scene: Scene)
    ensures Playable(Opening(1), {Failures}, scene)
    ensures scene == Scene(Book(0, 0, 1, 9, map[5 := 7, 6 := 8],
                                map[5 := Off(OrderStore.Cancelled), 6 := On(Requested, 7)]),
                           [OrderCreated(5, 7, 1, 1, 10.0), StockDeducted(5, 1, 1), PaymentRequested(5, 7, 10.0),
                            PaymentFailed(5, 10.0), OrderCancelled(5, 7, 1, 1),
                            OrderCreated(6, 8, 1, 1, 10.0), StockDeducted(6, 1, 1), PaymentRequested(6, 8, 10.0),
                            OrderCancelled(5, 7, 1, 1)],
                           {0, 1, 2, 3, 4, 5, 6})
  {
    scene := SecondBuys({Failures});
    scene := Go(Opening(1), {Failures}, scene, Reply(3));
  }

  /** ORDER_CREATED again, when no unit is left: the order is cancelled and its unit sold again; then its first
      STOCK_DEDUCTED arrives. */
  lemma CreationOversells() returns (scene: Scene, takers: set<OrderNo>)
    ensures Playable(Opening(1), {Creations}, scene) && Overpromises(scene, takers, 1)
  {
    scene := RunsShort();
    scene := SellTo(Opening(1), {Creations}, scene, 8, 6);
    scene := Go(Opening(1), {Creations}, scene, Reply(1));
    takers := {5, 6};
  }

  lemma RunsShort() returns (scene: Scene)
    ensures Playable(Opening(1), {Creations}, scene)
    ensures scene == Scene(Book(1, 1, 0, 4, map[5 := 7], map[5 := Off(OrderStore.Cancelled)]),
                           [OrderCreated(5, 7, 1, 1, 10.0), StockDeducted(5, 1, 1), StockDeductFailed(5, 1),
                            OrderCancelled(5, 7, 1, 1)],
                           {0, 2, 3})
  {
    scene := ComesShort();
    scene := Go(Opening(1), {Creations}, scene, Reply(2));
    scene := Go(Opening(1), {Creations}, scene, Cancellation(3));
  }

  lemma ComesShort() returns (scene: Scene)
    ensures Playable(Opening(1), {Creations}, scene)
    ensures scene == Scene(Book(0, 0, 1, 3, map[5 := 7], map[5 := Off(OrderStore.Pending)]),
                           [OrderCreated(5, 7, 1, 1, 10.0), StockDeducted(5, 1, 1), StockDeductFailed(5, 1)], {0})
  {
    Begins(Opening(1), {Creations});
    scene := Go(Opening(1), {Creations}, Opening(1), Purchase(7, 5));
    scene := Go(Opening(1), {Creations}, scene, Next(5, true));
    scene := Go(Opening(1), {Creations}, scene, Shortage(0));
  }

  // ---------------------------------------------------------------- overselling a unit the inventory cannot find

  /** Redis has one unit, the inventory shows none. */
  const EMPTY_SHELF := Scene(Book(1, 0, 0, 0, map[], map[]), [], {})

  /** STOCK_DEDUCT_FAILED again: it brings a second ORDER_CANCELLED, and Redis gets two units for the one it gave. */
  lemma ShortageCancelsTwice() returns (scene: Scene)
    ensures Playable(EMPTY_SHELF, {Shortages}, scene)
    ensures scene == Scene(Book(2, 0, 0, 4, map[5 := 7], map[5 := Off(OrderStore.Cancelled)]),
                           [OrderCreated(5, 7, 1, 1, 10.0), StockDeductFailed(5, 1), OrderCancelled(5, 7, 1, 1),
                            OrderCancelled(5, 7, 1, 1)],
                           {0, 1, 2, 3})
  {
    scene := RepliesTwice();
    scene := Go(EMPTY_SHELF, {Shortages}, scene, Cancellation(2));
    scene := Go(EMPTY_SHELF, {Shortages}, scene, Cancellation(3));
  }

  lemma RepliesTwice() returns (scene: Scene)
    ensures Playable(EMPTY_SHELF, {Shortages}, scene)
    ensures scene == Scene(Book(0, 0, 0, 4, map[5 := 7], map[5 := Off(OrderStore.Cancelled)]),
                           [OrderCreated(5, 7, 1, 1, 10.0), StockDeductFailed(5, 1), OrderCancelled(5, 7, 1, 1),
                            OrderCancelled(5, 7, 1, 1)],
                           {0, 1})
  {
    Begins(EMPTY_SHELF, {Shortages});
    scene := Go(EMPTY_SHELF, {Shortages}, EMPTY_SHELF, Purchase(7, 5));
    scene := Go(EMPTY_SHELF, {Shortages}, scene, Shortage(0));
    scene := Go(EMPTY_SHELF, {Shortages}, scene, Reply(1));
    scene := Go(EMPTY_SHELF, {Shortages}, scene, Reply(1));
  }

  /** Two more units turn up in the inventory, and both are sold. */
  lemma BothSold(kinds: set<MessageKind>, first: Scene) returns (scene: Scene, takers: set<OrderNo>)
    requires first.v.redis == 2 && first.v.available == 2 && |first.rows| == first.v.count
    requires first.v.users == map[5 := 7] && first.v.spots.Keys == {5}
    ensures Playable(first, kinds, scene) && Overpromises(scene, takers, 1)
  {
    Begins(first, kinds);
    scene := SellTo(first, kinds, first, 8, 6);
    scene := SellTo(first, kinds, scene, 9, 7);
    takers := {6, 7};
  }

  // ---------------------------------------------------------------- overselling three units

  /** Orders 5, 6 and 7 are placed; order 5 is paid and order 6 cancelled before order 7 is looked at. */
  lemma PaidAndCancelled(kinds: set<MessageKind>) returns (scene: Scene)
    ensures Playable(Opening(3), kinds, scene)
    ensures scene == Scene(Book(0, 1, 2, 11, map[5 := 7, 6 := 8, 7 := 9],
                                map[5 := On(Completed, 8), 6 := On(Stage.Cancelled, 10), 7 := On(Created, 2)]),
                           [OrderCreated(5, 7, 1, 1, 10.0), OrderCreated(6, 8, 1, 1, 10.0),
                            OrderCreated(7, 9, 1, 1, 10.0),
                            StockDeducted(5, 1, 1), StockDeducted(6, 1, 1),
                            PaymentRequested(5, 7, 10.0), PaymentRequested(6, 8, 10.0),
                            PaymentSucceeded(5, 10.0), OrderCompleted(5, 1, 1),
                            PaymentFailed(6, 10.0), OrderCancelled(6, 8, 1, 1)],
                           {0, 1, 3, 4, 5, 6, 7, 9})
  {
    scene := BothAwait(kinds);
    scene := Go(Opening(3), kinds, scene, Next(5, true));
    scene := Go(Opening(3), kinds, scene, Next(5, true));
    scene := OtherFails(kinds, scene);
  }

  lemma OtherFails(kinds: set<MessageKind>, before: Scene) returns (scene: Scene)
    requires Playable(Opening(3), kinds, before) && |before.rows| == 9 && before.v.count == 9
    requires 6 in before.v.users && before.v.users[6] == 8
    requires 6 in before.v.spots && before.v.spots[6] == On(Requested, 6)
    ensures Playable(Opening(3), kinds, scene)
    ensures scene == Scene(before.v.(count := 11, spots := before.v.spots[6 := On(Stage.Cancelled, 10)]),
                           before.rows + [PaymentFailed(6, 10.0), OrderCancelled(6, 8, 1, 1)], before.consumed + {6, 9})
  {
    scene := Go(Opening(3), kinds, before, Next(6, false));
    scene := Go(Opening(3), kinds, scene, Next(6, false));
    assert scene.v.spots == before.v.spots[6 := On(Stage.Cancelled, 10)];
    assert scene.rows == before.rows + [PaymentFailed(6, 10.0), OrderCancelled(6, 8, 1, 1)];
  }

  lemma BothAwait(kinds: set<MessageKind>) returns (scene: Scene)
    ensures Playable(Opening(3), kinds, scene)
    ensures scene == Scene(Book(0, 1, 2, 7, map[5 := 7, 6 := 8, 7 := 9],
                                map[5 := On(Requested, 5), 6 := On(Requested, 6), 7 := On(Created, 2)]),
                           [OrderCreated(5, 7, 1, 1, 10.0), OrderCreated(6, 8, 1, 1, 10.0),
                            OrderCreated(7, 9, 1, 1, 10.0),
                            StockDeducted(5, 1, 1), StockDeducted(6, 1, 1),
                            PaymentRequested(5, 7, 10.0), PaymentRequested(6, 8, 10.0)],
                           {0, 1, 3, 4})
  {
    scene := BothReserved(kinds);
    scene := Go(Opening(3), kinds, scene, Next(5, true));
    scene := Go(Opening(3), kinds, scene, Next(6, true));
  }

  lemma BothReserved(kinds: set<MessageKind>) returns (scene: Scene)
    ensures Playable(Opening(3), kinds, scene)
    ensures scene == Scene(Book(0, 1, 2, 5, map[5 := 7, 6 := 8, 7 := 9],
                                map[5 := On(Reserved, 3), 6 := On(Reserved, 4), 7 := On(Created, 2)]),
                           [OrderCreated(5, 7, 1, 1, 10.0), OrderCreated(6, 8, 1, 1, 10.0),
                            OrderCreated(7, 9, 1, 1, 10.0), StockDeducted(5, 1, 1), StockDeducted(6, 1, 1)],
                           {0, 1})
  {
    scene := ThreePlace(kinds);
    scene := Go(Opening(3), kinds, scene, Next(5, true));
    scene := Go(Opening(3), kinds, scene, Next(6, true));
  }

  lemma ThreePlace(kinds: set<MessageKind>) returns (scene: Scene)
    ensures Playable(Opening(3), kinds, scene)
    ensures scene == Scene(Book(0, 3, 0, 3, map[5 := 7, 6 := 8, 7 := 9],
                                map[5 := On(Created, 0), 6 := On(Created, 1), 7 := On(Created, 2)]),
                           [OrderCreated(5, 7, 1, 1, 10.0), OrderCreated(6, 8, 1, 1, 10.0),
                            OrderCreated(7, 9, 1, 1, 10.0)],
                           {})
  {
    Begins(Opening(3), kinds);
    scene := Go(Opening(3), kinds, Opening(3), Purchase(7, 5));
    scene := Go(Opening(3), kinds, scene, Purchase(8, 6));
    scene := Go(Opening(3), kinds, scene, Purchase(9, 7));
  }

  /** A unit too many has been confirmed for order 5, so that the cancellation of order 6 has only reached Redis.
      User 10 has then bought the last unit with order 8, and the ORDER_CREATED of order 7 will find none. */
  ghost predicate BeforeShortage(scene: Scene) {
    var n := |scene.rows|;
    && n >= 3 && scene.v.redis == 0 && scene.v.available == 0 && scene.v.locked == 1 && scene.v.count == n
    && scene.v.users == map[5 := 7, 6 := 8, 7 := 9, 8 := 10]
    && scene.v.spots == map[5 := Off(OrderStore.Paid), 6 := Off(OrderStore.Cancelled), 7 := On(Created, 2),
                            8 := On(Requested, n - 1)]
    && scene.rows[2] == OrderCreated(7, 9, 1, 1, 10.0) && 2 !in scene.consumed
    && forall i | i in scene.consumed :: i < n
  }

  /** A locked unit is returned for a cancelled order, in row r, and sold again. */
  lemma ReturnAndSell(kinds: set<MessageKind>, before: Scene, r: nat, user: UserId, no: OrderNo) returns (scene: Scene)
    requires Playable(Opening(3), kinds, before) && RowIs(before, r, kinds) && |before.rows| == before.v.count
    requires before.rows[r] == OrderCancelled(7, 9, 1, 1) && before.v.users[7] == 9
    requires before.v.spots[7] == Off(OrderStore.Cancelled)
    requires before.v.redis >= 0 && before.v.available >= 0 && before.v.locked >= 1
    requires user !in before.v.users.Values && no !in before.v.users && no !in before.v.spots
    ensures Playable(Opening(3), kinds, scene)
    ensures scene.v == before.v.(count := before.v.count + 3, users := before.v.users[no := user],
                                 spots := before.v.spots[no := On(Requested, before.v.count + 2)])
    ensures before.rows <= scene.rows && |scene.rows| == scene.v.count
    ensures scene.consumed == before.consumed + {r, before.v.count, before.v.count + 1}
  {
    scene := Go(Opening(3), kinds, before, Cancellation(r));
    assert scene.v.spots == before.v.spots;
    scene := SellTo(Opening(3), kinds, scene, user, no);
  }

  /** The shortage of order 7 is reported twice, and each time a unit of another order is returned and sold again. */
  lemma ShortageRepeated(kinds: set<MessageKind>, before: Scene) returns (scene: Scene, takers: set<OrderNo>)
    requires Playable(Opening(3), kinds, before) && BeforeShortage(before) && Shortages in kinds
    ensures Playable(Opening(3), kinds, scene) && Overpromises(scene, takers, 3)
  {
    var n := |before.rows|;
    scene := CancelTwice(kinds, before);
    scene := ReturnAndSell(kinds, scene, n + 1, 11, 9);
    scene := ReturnAndSell(kinds, scene, n + 2, 12, 10);
    takers := {5, 8, 9, 10};
  }

  lemma CancelTwice(kinds: set<MessageKind>, before: Scene) returns (scene: Scene)
    requires Playable(Opening(3), kinds, before) && BeforeShortage(before) && Shortages in kinds
    ensures Playable(Opening(3), kinds, scene)
    ensures var n := |before.rows|;
            && scene.v == before.v.(count := n + 3, spots := before.v.spots[7 := Off(OrderStore.Cancelled)])
            && |scene.rows| == n + 3 && scene.rows[n + 1] == OrderCancelled(7, 9, 1, 1)
            && scene.rows[n + 2] == OrderCancelled(7, 9, 1, 1)
            && n + 1 !in scene.consumed && n + 2 !in scene.consumed && forall i | i in scene.consumed :: i < n + 3
  {
    var n := |before.rows|;
    scene := Go(Opening(3), kinds, before, Shortage(2));
    scene := ReplyTwice(kinds, scene, n);
    assert scene.v.spots == before.v.spots[7 := Off(OrderStore.Cancelled)];
  }

  lemma ReplyTwice(kinds: set<MessageKind>, before: Scene, r: nat) returns (scene: Scene)
    requires Playable(Opening(3), kinds, before) && r + 1 == |before.rows| && before.rows[r] == StockDeductFailed(7, 1)
    requires 7 in before.v.spots && 7 in before.v.users && Shortages in kinds
    ensures Playable(Opening(3), kinds, scene)
    ensures scene.v == before.v.(count := before.v.count + 2, spots := before.v.spots[7 := Off(OrderStore.Cancelled)])
    ensures scene.rows
            == before.rows + [OrderCancelled(7, before.v.users[7], 1, 1), OrderCancelled(7, before.v.users[7], 1, 1)]
    ensures scene.consumed == before.consumed + {r}
  {
    scene := Go(Opening(3), kinds, before, Reply(r));
    scene := Go(Opening(3), kinds, scene, Reply(r));
    assert scene.v.spots == before.v.spots[7 := Off(OrderStore.Cancelled)];
  }

  /** Two ORDER_COMPLETED of order 5, in rows a and b, take both locked units. */
  lemma ConfirmTwo(kinds: set<MessageKind>, before: Scene, a: nat, b: nat) returns (scene: Scene)
    requires Playable(Opening(3), kinds, before)
    requires RowIs(before, a, kinds) && RowIs(before, b, kinds) && before.v.locked == 2
    requires before.rows[a] == OrderCompleted(5, 1, 1) && before.rows[b] == OrderCompleted(5, 1, 1)
    requires a == b ==> Completions in kinds
    ensures Playable(Opening(3), kinds, scene)
    ensures scene == Scene(Leave(before.v, 5).(locked := 0), before.rows, before.consumed + {a, b})
  {
    scene := Go(Opening(3), kinds, before, Completion(a));
    scene := Go(Opening(3), kinds, scene, Completion(b));
    assert scene.v.spots == Leave(before.v, 5).spots;
  }

  /** Order 5 is paid, and rows a and b both complete it; order 6 is cancelled; order 7 has not been looked at. */
  predicate BeforeConfirmations(scene: Scene, a: nat, b: nat) {
    && |scene.rows| == scene.v.count >= 11 && scene.v.redis == 0 && scene.v.available == 1 && scene.v.locked == 2
    && scene.v.users == map[5 := 7, 6 := 8, 7 := 9] && 5 in scene.v.spots && SpotStatus(scene.v.spots[5]).Paid?
    && scene.v.spots == map[5 := scene.v.spots[5], 6 := On(Stage.Cancelled, 10), 7 := On(Created, 2)]
    && scene.rows[2] == OrderCreated(7, 9, 1, 1, 10.0) && scene.rows[10] == OrderCancelled(6, 8, 1, 1)
    && a < |scene.rows| && b < |scene.rows|
    && scene.rows[a] == OrderCompleted(5, 1, 1) && scene.rows[b] == OrderCompleted(5, 1, 1)
    && a !in scene.consumed && b !in scene.consumed && 2 !in scene.consumed && 10 !in scene.consumed
    && forall i | i in scene.consumed :: i < |scene.rows|
  }

  lemma ConfirmAndRepeat(kinds: set<MessageKind>, before: Scene, a: nat, b: nat)
    returns (scene: Scene, takers: set<OrderNo>)
    requires Playable(Opening(3), kinds, before) && BeforeConfirmations(before, a, b)
    requires Shortages in kinds && (a == b ==> Completions in kinds)
    ensures Playable(Opening(3), kinds, scene) && Overpromises(scene, takers, 3)
  {
    scene := ConfirmTwo(kinds, before, a, b);
    assert scene.v.spots == map[5 := Off(OrderStore.Paid), 6 := On(Stage.Cancelled, 10), 7 := On(Created, 2)];
    scene := LastUnitSold(kinds, scene);
    scene, takers := ShortageRepeated(kinds, scene);
  }

  /** ORDER_COMPLETED of the paid order again, and a STOCK_DEDUCT_FAILED again. */
  lemma CompletionAndShortageOversell() returns (scene: Scene, takers: set<OrderNo>)
    ensures Playable(Opening(3), {Completions, Shortages}, scene) && Overpromises(scene, takers, 3)
  {
    scene := PaidAndCancelled({Completions, Shortages});
    scene, takers := ConfirmAndRepeat({Completions, Shortages}, scene, 8, 8);
  }

  /** PAYMENT_SUCCESS of the paid order again, which brings a second ORDER_COMPLETED, and a STOCK_DEDUCT_FAILED
      again. */
  lemma SuccessAndShortageOversell() returns (scene: Scene, takers: set<OrderNo>)
    ensures Playable(Opening(3), {Successes, Shortages}, scene) && Overpromises(scene, takers, 3)
  {
    scene := PaidAndCancelled({Successes, Shortages});
    PaidAgain(scene, {Successes, Shortages});
    scene := Go(Opening(3), {Successes, Shortages}, scene, Reply(7));
    scene, takers := ConfirmAndRepeat({Successes, Shortages}, scene, 8, 11);
  }

  /** PAYMENT_SUCCESS of order 5, in row 7, adds a second ORDER_COMPLETED. */
  lemma PaidAgain(scene: Scene, kinds: set<MessageKind>)
    requires |scene.rows| == scene.v.count == 11 && scene.v.redis == 0 && scene.v.available == 1 && scene.v.locked == 2
    requires scene.v.users == map[5 := 7, 6 := 8, 7 := 9]
    requires scene.v.spots == map[5 := On(Completed, 8), 6 := On(Stage.Cancelled, 10), 7 := On(Created, 2)]
    requires scene.rows[2] == OrderCreated(7, 9, 1, 1, 10.0) && scene.rows[10] == OrderCancelled(6, 8, 1, 1)
    requires scene.rows[7] == PaymentSucceeded(5, 10.0) && scene.rows[8] == OrderCompleted(5, 1, 1)
    requires scene.consumed == {0, 1, 3, 4, 5, 6, 7, 9} && Successes in kinds
    ensures CanPlay(scene, Reply(7), kinds) && BeforeConfirmations(Play(scene, Reply(7), kinds), 8, 11)
  {
    var next := Play(scene, Reply(7), kinds);
    assert next.rows == scene.rows + [OrderCompleted(5, 1, 1)];
    assert next.v.spots == map[5 := Off(OrderStore.Paid), 6 := On(Stage.Cancelled, 10), 7 := On(Created, 2)];
  }

  /** The cancellation of order 6 finds nothing locked; then the last unit is sold. */
  lemma LastUnitSold(kinds: set<MessageKind>, before: Scene) returns (scene: Scene)
    requires Playable(Opening(3), kinds, before)
    requires before.v.redis == 0 && before.v.available == 1 && before.v.locked == 0
    requires |before.rows| == before.v.count >= 11 && before.v.users == map[5 := 7, 6 := 8, 7 := 9]
    requires before.v.spots == map[5 := Off(OrderStore.Paid), 6 := On(Stage.Cancelled, 10), 7 := On(Created, 2)]
    requires before.rows[2] == OrderCreated(7, 9, 1, 1, 10.0) && before.rows[10] == OrderCancelled(6, 8, 1, 1)
    requires 2 !in before.consumed && 10 !in before.consumed && forall i | i in before.consumed :: i < |before.rows|
    ensures Playable(Opening(3), kinds, scene) && BeforeShortage(scene)
  {
    scene := Go(Opening(3), kinds, before, Cancellation(10));
    scene := SellTo(Opening(3), kinds, scene, 10, 8);
  }
}

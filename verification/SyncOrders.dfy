/** The synchronous path: CreateOrder and CancelOrder on one database, transactions interleaving. An order row
    that is read FOR UPDATE stays locked until its transaction ends. */
module SyncOrders {
  import opened Events
  import opened OrderStore
  import opened Totals
  import InventoryStore

  /** A cancellation between its SELECT ... FOR UPDATE and its commit, with the order it read. */
  datatype Cancelling = Cancelling(no: OrderNo, seen: Order)

  /** `refunds` counts, per order, the commits that returned its stock. */
  datatype State = State(orders: Orders, stock: InventoryStore.Stock, cancelling: map<nat, Cancelling>,
                         refunds: map<OrderNo, nat>)

  datatype Step =
    | Create(no: OrderNo, user: UserId, product: ProductId, quantity: int, total: Money, contended: bool)
    | LockOrder(tx: nat, user: UserId, no: OrderNo)
    | CommitCancel(tx: nat)
    | Abort(tx: nat)

  predicate Enabled(s: State, step: Step) {
    match step
    case Create(_, _, _, quantity, _, _) => quantity >= 1
    case LockOrder(tx, _, no) => tx !in s.cancelling && (forall t | t in s.cancelling :: s.cancelling[t].no != no)
    case CommitCancel(tx) => tx in s.cancelling
    case Abort(tx) => tx in s.cancelling
  }

  function Apply(s: State, step: Step): State
    requires Enabled(s, step)
  {
    match step
    case Create(no, user, product, quantity, total, contended) =>
      var o := Order(user, product, quantity, total, Pending);
      if !contended && CanCreate(s, no, o) then
        s.(orders := s.orders[no := o], stock := InventoryStore.Deduct(s.stock, product, quantity).0,
           refunds := s.refunds[no := 0])
      else s
    case LockOrder(tx, user, no) =>
      if MayCancel(s.orders, user, no) then s.(cancelling := s.cancelling[tx := Cancelling(no, s.orders[no])]) else s
    case CommitCancel(tx) =>
      var c := s.cancelling[tx];
      var done := s.(cancelling := s.cancelling - {tx});
      if CanReturn(s, c.seen) && c.no in s.orders then
        done.(stock := InventoryStore.Return(s.stock, c.seen.product, c.seen.quantity),
              orders := s.orders[c.no := s.orders[c.no].(status := Cancelled)],
              refunds := s.refunds[c.no := (if c.no in s.refunds then s.refunds[c.no] else 0) + 1])
      else done
    case Abort(tx) => s.(cancelling := s.cancelling - {tx})
  }

  /** Deduction and insertion both succeed, or the transaction leaves nothing. */
  predicate CanCreate(s: State, no: OrderNo, o: Order) {
    InventoryStore.Deduct(s.stock, o.product, o.quantity).1.Deducted? && InsertOrder(s.orders, no, o).Some?
  }

  /** The checks made under the row lock: the order exists, belongs to the user and is pending. */
  predicate MayCancel(orders: Orders, user: UserId, no: OrderNo) {
    no in orders && orders[no].user == user && orders[no].status.Pending?
  }

  predicate CanReturn(s: State, o: Order) {
    o.product in s.stock && s.stock[o.product].locked >= o.quantity
  }

  predicate Init(s: State) {
    && s.orders == map[] && s.cancelling == map[] && s.refunds == map[]
    && forall p | p in s.stock :: s.stock[p].available >= 0 && s.stock[p].locked == 0
  }

  function PendingUnits(orders: Orders, p: ProductId): map<nat, int> {
    map no | no in orders :: if orders[no].product == p && orders[no].status.Pending? then orders[no].quantity else 0
  }

  function UnitsIfPending(o: Order, p: ProductId): int {
    if o.product == p && o.status.Pending? then o.quantity else 0
  }

  lemma PendingUnitsPut(orders: Orders, no: OrderNo, o: Order, p: ProductId)
    ensures Total(PendingUnits(orders[no := o], p))
            == Total(PendingUnits(orders, p)) - (if no in orders then UnitsIfPending(orders[no], p) else 0)
                + UnitsIfPending(o, p)
  {
    assert PendingUnits(orders[no := o], p) == PendingUnits(orders, p)[no := UnitsIfPending(o, p)];
    TotalPut(PendingUnits(orders, p), no, UnitsIfPending(o, p));
  }

  function Available(stock: InventoryStore.Stock, p: ProductId): int {
    if p in stock then stock[p].available else 0
  }

  function Locked(stock: InventoryStore.Stock, p: ProductId): int {
    if p in stock then stock[p].locked else 0
  }

  /** Locked stock is what pending orders hold; nothing is gained or lost. */
  ghost predicate Books(s0: State, s: State) {
    forall p: ProductId ::
      && Locked(s.stock, p) == Total(PendingUnits(s.orders, p))
      && Available(s.stock, p) + Locked(s.stock, p) == Available(s0.stock, p)
      && Available(s.stock, p) >= 0
  }

  /** What a cancellation read is still true while it holds the lock, and each order is returned at most once,
      exactly when it is cancelled. */
  ghost predicate Locks(s: State) {
    && (forall no | no in s.orders ::
          s.orders[no].quantity >= 1 && (s.orders[no].status.Pending? || s.orders[no].status.Cancelled?))
    && (forall t | t in s.cancelling ::
          s.cancelling[t].no in s.orders && s.cancelling[t].seen == s.orders[s.cancelling[t].no]
              && s.cancelling[t].seen.status.Pending?)
    && (forall t, u | t in s.cancelling && u in s.cancelling && t != u :: s.cancelling[t].no != s.cancelling[u].no)
    && s.refunds.Keys == s.orders.Keys
    && (forall no | no in s.orders :: s.refunds[no] == if s.orders[no].status.Cancelled? then 1 else 0)
  }

  /** The locked stock covers every pending order. */
  lemma PendingIsCovered(s0: State, s: State, no: OrderNo)
    requires Books(s0, s) && Locks(s) && no in s.orders && s.orders[no].status.Pending?
    ensures CanReturn(s, s.orders[no])
  {
    var p := s.orders[no].product;
    TotalBounds(PendingUnits(s.orders, p));
    assert PendingUnits(s.orders, p)[no] == s.orders[no].quantity;
    assert Locked(s.stock, p) >= s.orders[no].quantity;
  }

  lemma CreateKeepsBooks(s0: State, s: State, step: Step)
    requires Books(s0, s) && step.Create? && Enabled(s, step)
    ensures Books(s0, Apply(s, step))
  {
    var s' := Apply(s, step);
    if s' != s {
      var o := Order(step.user, step.product, step.quantity, step.total, Pending);
      forall p: ProductId
        ensures Locked(s'.stock, p) == Total(PendingUnits(s'.orders, p))
             && Available(s'.stock, p) + Locked(s'.stock, p) == Available(s0.stock, p) && Available(s'.stock, p) >= 0
      {
        PendingUnitsPut(s.orders, step.no, o, p);
      }
    }
  }

  lemma CancelKeepsBooks(s0: State, s: State, tx: nat)
    requires Books(s0, s) && Locks(s) && Enabled(s, CommitCancel(tx))
    ensures Books(s0, Apply(s, CommitCancel(tx)))
  {
    var s', c := Apply(s, CommitCancel(tx)), s.cancelling[tx];
    PendingIsCovered(s0, s, c.no);
    forall p: ProductId
      ensures Locked(s'.stock, p) == Total(PendingUnits(s'.orders, p))
           && Available(s'.stock, p) + Locked(s'.stock, p) == Available(s0.stock, p) && Available(s'.stock, p) >= 0
    {
      PendingUnitsPut(s.orders, c.no, s'.orders[c.no], p);
    }
  }

  lemma CreateKeepsLocks(s: State, step: Step)
    requires Locks(s) && step.Create? && Enabled(s, step)
    ensures Locks(Apply(s, step))
  {
  }

  lemma CancelKeepsLocks(s: State, tx: nat)
    requires Locks(s) && Enabled(s, CommitCancel(tx))
    ensures Locks(Apply(s, CommitCancel(tx)))
  {
  }

  lemma LockKeepsLocks(s: State, step: Step)
    requires Locks(s) && Enabled(s, step) && (step.LockOrder? || step.Abort?)
    ensures Locks(Apply(s, step)) && Apply(s, step).orders == s.orders && Apply(s, step).stock == s.stock
  {
  }

  lemma StepKeeps(s0: State, s: State, step: Step)
    requires Books(s0, s) && Locks(s) && Enabled(s, step)
    ensures Books(s0, Apply(s, step)) && Locks(Apply(s, step))
  {
    if step.Create? {
      CreateKeepsBooks(s0, s, step);
      CreateKeepsLocks(s, step);
    } else if step.CommitCancel? {
      CancelKeepsBooks(s0, s, step.tx);
      CancelKeepsLocks(s, step.tx);
    } else {
      LockKeepsLocks(s, step);
    }
  }

  predicate Runs(s: State, steps: seq<Step>)
    decreases |steps|, 0
  {
    steps == [] || (Runs(s, steps[..|steps| - 1]) && Enabled(After(s, steps[..|steps| - 1]), steps[|steps| - 1]))
  }

  function After(s: State, steps: seq<Step>): State
    requires Runs(s, steps)
    decreases |steps|, 1
  {
    if steps == [] then s else Apply(After(s, steps[..|steps| - 1]), steps[|steps| - 1])
  }

  lemma {:induction false} RunKeeps(s0: State, steps: seq<Step>)
    requires Init(s0) && Runs(s0, steps)
    ensures Books(s0, After(s0, steps)) && Locks(After(s0, steps))
    decreases |steps|
  {
    if steps == [] {
      assert forall p: ProductId :: PendingUnits(s0.orders, p) == map[];
    } else {
      RunKeeps(s0, steps[..|steps| - 1]);
      StepKeeps(s0, After(s0, steps[..|steps| - 1]), steps[|steps| - 1]);
    }
  }

  /** In every reachable state locked stock is exactly what pending orders hold and no unit is gained or lost;
      a cancellation that holds its lock never fails for lack of locked stock, and its commit cancels the order;
      and an order's stock has been returned once if it is cancelled, never if it is not. */
  lemma SynchronousPath(s0: State, steps: seq<Step>)
    requires Init(s0) && Runs(s0, steps)
    ensures var s := After(s0, steps);
            && (forall p: ProductId ::
                  && Locked(s.stock, p) == Total(PendingUnits(s.orders, p))
                  && Available(s.stock, p) + Locked(s.stock, p) == Available(s0.stock, p)
                  && Available(s.stock, p) >= 0)
            && (forall t | t in s.cancelling ::
                  var no := s.cancelling[t].no;
                  && CanReturn(s, s.cancelling[t].seen)
                  && no in Apply(s, CommitCancel(t)).orders && Apply(s, CommitCancel(t)).orders[no].status.Cancelled?)
            && s.refunds.Keys == s.orders.Keys
            && (forall no | no in s.orders :: s.refunds[no] == if s.orders[no].status.Cancelled? then 1 else 0)
  {
    RunKeeps(s0, steps);
    var s := After(s0, steps);
    forall t | t in s.cancelling
      ensures CanReturn(s, s.cancelling[t].seen)
    {
      PendingIsCovered(s0, s, s.cancelling[t].no);
    }
  }

  // ---------------------------------------------------------------- where orders and cancellations come from

  /** The order is what a Create asked for. */
  ghost predicate Asked(steps: seq<Step>, no: OrderNo, o: Order) {
    Create(no, o.user, o.product, o.quantity, o.total, false) in steps
  }

  /** Its own user has locked the order. */
  ghost predicate LockedByOwner(steps: seq<Step>, tx: nat, no: OrderNo, o: Order) {
    LockOrder(tx, o.user, no) in steps
  }

  ghost predicate CancelledByOwner(steps: seq<Step>, no: OrderNo, o: Order) {
    exists tx :: LockedByOwner(steps, tx, no, o) && CommitCancel(tx) in steps
  }

  ghost predicate Caused(steps: seq<Step>, s: State) {
    && (forall no | no in s.orders ::
          && Asked(steps, no, s.orders[no])
          && (s.orders[no].status.Cancelled? ==> CancelledByOwner(steps, no, s.orders[no])))
    && (forall t | t in s.cancelling :: s.cancelling[t].no in s.orders
          && LockedByOwner(steps, t, s.cancelling[t].no, s.orders[s.cancelling[t].no]))
    && (forall m, n | m in s.orders && n in s.orders && m != n ::
          s.orders[m].user != s.orders[n].user || s.orders[m].product != s.orders[n].product)
  }

  lemma CausesStay(early: seq<Step>, step: Step, s: State)
    requires Caused(early, s)
    ensures Caused(early + [step], s)
  {
    var steps := early + [step];
    assert forall x | x in early :: x in steps;
    forall no | no in s.orders && s.orders[no].status.Cancelled? ensures CancelledByOwner(steps, no, s.orders[no]) {
      var tx :| LockedByOwner(early, tx, no, s.orders[no]) && CommitCancel(tx) in early;
      assert LockedByOwner(steps, tx, no, s.orders[no]) && CommitCancel(tx) in steps;
    }
  }

  lemma StepCauses(s: State, early: seq<Step>, step: Step)
    requires Caused(early, s) && Locks(s) && Enabled(s, step)
    ensures Caused(early + [step], Apply(s, step))
  {
    var steps, s' := early + [step], Apply(s, step);
    assert step in steps;
    CausesStay(early, step, s);
    match step
    case Create(no, user, product, quantity, total, contended) =>
      assert s' != s ==> !contended && Asked(steps, no, s'.orders[no]);
    case LockOrder(tx, user, no) =>
      assert s' != s ==> LockedByOwner(steps, tx, no, s.orders[no]);
    case CommitCancel(tx) =>
      var no := s.cancelling[tx].no;
      assert LockedByOwner(steps, tx, no, s.orders[no]);
      assert CancelledByOwner(steps, no, s.orders[no]);
    case Abort(_) =>
  }

  /** In every run an order is what some request asked for, no user has two orders for a product, and an order is
      cancelled only by a request of its own user. */
  lemma {:induction false} OrdersHaveCauses(s0: State, steps: seq<Step>)
    requires Init(s0) && Runs(s0, steps)
    ensures Caused(steps, After(s0, steps))
    decreases |steps|
  {
    if steps != [] {
      var early := steps[..|steps| - 1];
      assert steps == early + [steps[|steps| - 1]];
      OrdersHaveCauses(s0, early);
      RunKeeps(s0, early);
      StepCauses(After(s0, early), early, steps[|steps| - 1]);
    }
  }
}

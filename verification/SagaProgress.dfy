/** Liveness of the saga once no new Seckill call begins: every productive step uses up some of a finite amount
    of work, a state in which nothing productive can happen is settled, and a settled state balances. */
module SagaProgress {
  import opened Events
  import opened SagaProtocol
  import opened SagaLedger
  import opened SagaInvariant
  import opened SagaKeys
  import opened SagaPolls
  import opened SagaSafety
  import opened SagaRepeats
  import opened SagaShop
  import E = SagaExamples
  import opened Totals
  import OrderStore

  /** A step that takes the sale forward: no new call, no repeated publication or delivery, no Redis failure. */
  predicate Productive(s: State, step: Step) {
    && Enabled(s, step) && FirstDelivery(s, step) && RedisUp(step)
    && !step.Begin? && !step.ExpireResult?
    && (step.Publish? ==> step.row !in s.log)
  }

  /** Nothing is left to do but for the calls that are made to wait. */
  predicate SettledBut(s: State, waiting: set<nat>) {
    && (forall c | c in s.calls && c !in waiting :: s.calls[c].pc.Done?)
    && (forall h | h in s.handlers :: s.handlers[h].Finished?)
    && (forall r | 0 <= r < |s.rows| :: r in s.log && r in s.consumed)
  }

  /** Nothing is left to do. */
  predicate Settled(s: State) {
    SettledBut(s, {})
  }

  // ---------------------------------------------------------------- the measure

  function CallWork(pc: Pc): nat {
    match pc
    case TryLock => 50
    case CheckDatabase => 49
    case CheckProduct => 48
    case DeductRedis(_) => 46
    case UndoDeduct => 44
    case CreateOrder(_) => 44
    case RollBackRedis => 4
    case DropKey(_) => 3
    case WritePending(_) => 2
    case Done(_) => 0
  }

  function StageWork(stage: Stage): nat {
    match stage
    case Created => 36
    case Reserved => 30
    case Requested => 24
    case Charged(_) => 18
    case Completed => 12
    case Cancelled => 12
    case _ => 0
  }

  function HandlerWork(h: Handler): nat {
    match h
    case RestoreRedis(_, _, _, _) => 2
    case DeleteKey(_, _, _) => 1
    case WriteVerdict(_, _) => 1
    case Finished => 0
  }

  ghost function CallLoads(calls: map<nat, Call>): map<nat, int> {
    map c | c in calls :: CallWork(calls[c].pc)
  }

  ghost function TrackLoads(tracks: map<OrderNo, Track>): map<nat, int> {
    map no | no in tracks :: StageWork(tracks[no].stage)
  }

  ghost function HandlerLoads(handlers: map<nat, Handler>): map<nat, int> {
    map h | h in handlers :: HandlerWork(handlers[h])
  }

  /** One unit for every row that has not been published. */
  ghost function RowLoads(count: nat, log: seq<nat>): map<nat, int> {
    map r: nat | r < count :: if r in log then 0 else 1
  }

  /** The work left in a state. */
  ghost function Work(s: State, g: Ledger): int {
    Total(CallLoads(s.calls)) + Total(TrackLoads(g.tracks)) + Total(HandlerLoads(s.handlers))
    + Total(RowLoads(|s.rows|, s.log))
  }

  lemma WorkIsNatural(s: State, g: Ledger)
    ensures Work(s, g) >= 0
  {
    TotalBounds(CallLoads(s.calls));
    TotalBounds(TrackLoads(g.tracks));
    TotalBounds(HandlerLoads(s.handlers));
    TotalBounds(RowLoads(|s.rows|, s.log));
  }

  lemma CallLoadsPut(calls: map<nat, Call>, c: nat, call: Call)
    requires c in calls
    ensures Total(CallLoads(calls[c := call])) == Total(CallLoads(calls)) - CallWork(calls[c].pc) + CallWork(call.pc)
  {
    assert CallLoads(calls[c := call]) == CallLoads(calls)[c := CallWork(call.pc)];
    TotalPut(CallLoads(calls), c, CallWork(call.pc));
  }

  lemma TrackLoadsPut(tracks: map<OrderNo, Track>, no: OrderNo, t: Track)
    ensures Total(TrackLoads(tracks[no := t]))
            == Total(TrackLoads(tracks)) - (if no in tracks then StageWork(tracks[no].stage) else 0)
                + StageWork(t.stage)
  {
    assert TrackLoads(tracks[no := t]) == TrackLoads(tracks)[no := StageWork(t.stage)];
    TotalPut(TrackLoads(tracks), no, StageWork(t.stage));
  }

  lemma HandlerLoadsPut(handlers: map<nat, Handler>, h: nat, handler: Handler)
    ensures Total(HandlerLoads(handlers[h := handler]))
            == Total(HandlerLoads(handlers)) - (if h in handlers then HandlerWork(handlers[h]) else 0)
                + HandlerWork(handler)
  {
    assert HandlerLoads(handlers[h := handler]) == HandlerLoads(handlers)[h := HandlerWork(handler)];
    TotalPut(HandlerLoads(handlers), h, HandlerWork(handler));
  }

  lemma RowLoadsPublish(count: nat, log: seq<nat>, r: nat)
    requires r < count && r !in log
    ensures Total(RowLoads(count, log + [r])) == Total(RowLoads(count, log)) - 1
  {
    assert RowLoads(count, log + [r]) == RowLoads(count, log)[r := 0];
    TotalPut(RowLoads(count, log), r, 0);
  }

  lemma RowLoadsAppend(count: nat, log: seq<nat>)
    ensures Total(RowLoads(count + 1, log)) <= Total(RowLoads(count, log)) + 1
  {
    var load := if count in log then 0 else 1;
    assert RowLoads(count + 1, log) == RowLoads(count, log)[count := load];
    TotalPut(RowLoads(count, log), count, load);
  }

  // ---------------------------------------------------------------- every productive step uses up work

  lemma CallStepWorks(s: State, g: Ledger, step: Step)
    requires Productive(s, step) && CallStep(step)
    ensures Work(Apply(s, step), Follow(s, g, step)) < Work(s, g)
  {
    var s', c := Apply(s, step), step.call;
    CallStepJumps(s, g, step);
    CallLoadsPut(s.calls, c, s'.calls[c]);
  }

  lemma CallStepJumps(s: State, g: Ledger, step: Step)
    requires Productive(s, step) && CallStep(step)
    ensures var s', c := Apply(s, step), step.call;
            && c in s.calls && c in s'.calls && s'.calls == s.calls[c := s'.calls[c]]
            && CallWork(s'.calls[c].pc) < CallWork(s.calls[c].pc)
            && s'.rows == s.rows && s'.log == s.log && s'.handlers == s.handlers
    ensures Follow(s, g, step).tracks == g.tracks
  {
  }

  lemma CommitLoads(calls: map<nat, Call>, c: nat, call: Call, tracks: map<OrderNo, Track>, no: OrderNo, at: nat,
                    count: nat, log: seq<nat>)
    requires c in calls && calls[c].pc.CreateOrder? && call.pc.WritePending? && no !in tracks
    ensures Total(CallLoads(calls[c := call])) + Total(TrackLoads(tracks[no := Track(Created, at)]))
            + Total(RowLoads(count + 1, log))
            < Total(CallLoads(calls)) + Total(TrackLoads(tracks)) + Total(RowLoads(count, log))
  {
    CallLoadsPut(calls, c, call);
    TrackLoadsPut(tracks, no, Track(Created, at));
    RowLoadsAppend(count, log);
  }

  lemma TransactFrame(s: State, c: nat, no: OrderNo, failed: bool)
    requires Enabled(s, Transact(c, no, failed))
    ensures var s' := Apply(s, Transact(c, no, failed));
            && s'.log == s.log && s'.handlers == s.handlers
            && if Commits(s, s.calls[c], no, failed)
               then no !in s.orders && s'.calls == Jump(s.calls, c, WritePending(no)) && |s'.rows| == |s.rows| + 1
               else s'.calls == Jump(s.calls, c, RollBackRedis) && s'.rows == s.rows
  {
  }

  lemma CommitWorks(s: State, g: Ledger, s': State, g': Ledger, c: nat, no: OrderNo)
    requires c in s.calls && s.calls[c].pc.CreateOrder? && no !in g.tracks
    requires s'.log == s.log && s'.handlers == s.handlers && s'.calls == Jump(s.calls, c, WritePending(no))
    requires |s'.rows| == |s.rows| + 1 && g'.tracks == g.tracks[no := Track(Created, |s.rows|)]
    ensures Work(s', g') < Work(s, g)
  {
    CommitLoads(s.calls, c, s'.calls[c], g.tracks, no, |s.rows|, |s.rows|, s.log);
  }

  lemma AbortWorks(s: State, g: Ledger, s': State, g': Ledger, c: nat)
    requires c in s.calls && s.calls[c].pc.CreateOrder?
    requires s'.log == s.log && s'.handlers == s.handlers && s'.calls == Jump(s.calls, c, RollBackRedis)
    requires s'.rows == s.rows && g'.tracks == g.tracks
    ensures Work(s', g') < Work(s, g)
  {
    CallLoadsPut(s.calls, c, s'.calls[c]);
  }

  lemma TransactWorks(s: State, g: Ledger, c: nat, no: OrderNo, failed: bool)
    requires s.orders.Keys == g.tracks.Keys && Enabled(s, Transact(c, no, failed))
    ensures Work(Apply(s, Transact(c, no, failed)), Follow(s, g, Transact(c, no, failed))) < Work(s, g)
  {
    var step := Transact(c, no, failed);
    TransactFrame(s, c, no, failed);
    if Commits(s, s.calls[c], no, failed) {
      CommitWorks(s, g, Apply(s, step), Follow(s, g, step), c, no);
    } else {
      AbortWorks(s, g, Apply(s, step), Follow(s, g, step), c);
    }
  }

  /** The stage reached is worth less than the stage left, even counting the row and the handler it creates. */
  lemma AdvanceLoads(tracks: map<OrderNo, Track>, no: OrderNo, t: Track, handlers: map<nat, Handler>, h: nat,
                     handlers': map<nat, Handler>, count: nat, count': nat, log: seq<nat>)
    requires no in tracks && StageWork(t.stage) + 6 <= StageWork(tracks[no].stage)
    requires count' == count || count' == count + 1
    requires handlers' == handlers || (h !in handlers && h in handlers' && handlers' == handlers[h := handlers'[h]])
    ensures Total(TrackLoads(tracks[no := t])) + Total(HandlerLoads(handlers')) + Total(RowLoads(count', log))
            < Total(TrackLoads(tracks)) + Total(HandlerLoads(handlers)) + Total(RowLoads(count, log))
  {
    TrackLoadsPut(tracks, no, t);
    if count' != count {
      RowLoadsAppend(count, log);
    }
    if handlers' != handlers {
      HandlerLoadsPut(handlers, h, handlers'[h]);
    }
  }

  lemma DeliveredWorks(s: State, g: Ledger, s': State, r: nat, h: nat, no: OrderNo, t: Track, charged: bool)
    requires no in s.orders && no in g.tracks && Open(g.tracks[no].stage) && h !in s.handlers
    requires Advanced(s, s', r, h, no, NextStage(g.tracks[no].stage, charged)) && s'.log == s.log
    requires t.stage == NextStage(g.tracks[no].stage, charged)
    ensures Work(s', g.(tracks := g.tracks[no := t])) < Work(s, g)
  {
    AdvanceLoads(g.tracks, no, t, s.handlers, h, s'.handlers, |s.rows|, |s'.rows|, s.log);
  }

  lemma DeliverKeepsLog(s: State, r: nat, h: nat, charged: bool)
    requires Enabled(s, Deliver(r, h, charged))
    ensures Apply(s, Deliver(r, h, charged)).log == s.log
  {
  }

  lemma CleanUpLoads(tracks: map<OrderNo, Track>, no: OrderNo, t: Track)
    requires no in tracks && CleaningUp(tracks[no].stage) && (t.stage.Restored? || t.stage.Released?)
    ensures Total(TrackLoads(tracks[no := t])) == Total(TrackLoads(tracks))
  {
    TrackLoadsPut(tracks, no, t);
  }

  lemma ContinueWorks(s: State, g: Ledger, h: nat)
    requires Tracked(s, g) && Enabled(s, Continue(h, true))
    ensures Work(Apply(s, Continue(h, true)), Follow(s, g, Continue(h, true))) < Work(s, g)
  {
    ContinueSteps(s, h);
    HandlerLoadsPut(s.handlers, h, HandlerAfter(s.handlers[h]));
    if !s.handlers[h].WriteVerdict? {
      var no := s.handlers[h].order;
      assert no in g.tracks && CleaningUp(g.tracks[no].stage);
      CleanUpLoads(g.tracks, no, FollowContinue(s, g, h, true).tracks[no]);
    }
  }

  function HandlerAfter(handler: Handler): Handler {
    match handler
    case RestoreRedis(no, user, product, _) => DeleteKey(no, user, product)
    case _ => Finished
  }

  lemma ContinueSteps(s: State, h: nat)
    requires Enabled(s, Continue(h, true))
    ensures var s' := Apply(s, Continue(h, true));
            && s'.handlers == s.handlers[h := HandlerAfter(s.handlers[h])]
            && s'.rows == s.rows && s'.log == s.log && s'.calls == s.calls
  {
    ContinueLeaves(s, h);
    ContinueMovesHandler(s, h);
  }

  lemma ContinueLeaves(s: State, h: nat)
    requires Enabled(s, Continue(h, true))
    ensures var s' := Apply(s, Continue(h, true)); s'.rows == s.rows && s'.log == s.log && s'.calls == s.calls
  {
  }

  lemma ContinueMovesHandler(s: State, h: nat)
    requires Enabled(s, Continue(h, true))
    ensures Apply(s, Continue(h, true)).handlers == s.handlers[h := HandlerAfter(s.handlers[h])]
  {
  }

  /** Every productive step lowers the work that is left. */
  lemma ProductiveStepWorks(s0: State, s: State, g: Ledger, step: Step)
    requires Init(s0) && Books(s0, s, g) && Tracked(s, g) && Productive(s, step)
    ensures Work(Apply(s, step), Follow(s, g, step)) < Work(s, g)
  {
    if CallStep(step) {
      CallStepWorks(s, g, step);
    } else if step.Transact? {
      TransactWorks(s, g, step.call, step.order, step.failed);
    } else if step.Deliver? {
      var r, h, charged := step.row, step.handler, step.charged;
      var no := s.rows[r].order;
      FirstDeliveryAdvances(s0, s, g, r, h, charged);
      DeliverKeepsLog(s, r, h, charged);
      DeliveredWorks(s, g, Apply(s, step), r, h, no, FollowDeliver(s, g, r, h, charged).tracks[no], charged);
    } else if step.Continue? {
      ContinueWorks(s, g, step.handler);
    } else {
      RowLoadsPublish(|s.rows|, s.log, step.row);
    }
  }

  /** The last `count` steps of the run are all productive. */
  ghost predicate EndsProductively(s0: State, steps: seq<Step>, count: nat)
    requires Runs(s0, steps) && count <= |steps|
    decreases |steps|
  {
    count == 0 || (Productive(After(s0, Front(steps)), Last(steps)) && EndsProductively(s0, Front(steps), count - 1))
  }

  lemma LastStepWorks(s0: State, steps: seq<Step>)
    requires Init(s0) && Runs(s0, steps) && AtMostOnce(s0, steps) && steps != []
    requires Productive(After(s0, Front(steps)), Last(steps))
    ensures WorkAfter(s0, steps) < WorkAfter(s0, Front(steps))
  {
    RunKeeps(s0, Front(steps));
    ProductiveStepWorks(s0, After(s0, Front(steps)), LedgerAfter(s0, Front(steps)), Last(steps));
  }

  ghost function WorkAfter(s0: State, steps: seq<Step>): int
    requires Runs(s0, steps)
  {
    Work(After(s0, steps), LedgerAfter(s0, steps))
  }

  /** The run without its last `count` steps. */
  function Without(steps: seq<Step>, count: nat): (start: seq<Step>)
    requires count <= |steps|
    ensures start == steps[..|steps| - count]
  {
    if count == 0 then steps else Without(Front(steps), count - 1)
  }

  lemma {:induction false} WorkFalls(s0: State, steps: seq<Step>, count: nat)
    requires Init(s0) && Runs(s0, steps) && AtMostOnce(s0, steps) && count <= |steps|
    requires EndsProductively(s0, steps, count)
    ensures Runs(s0, Without(steps, count))
    ensures count + WorkAfter(s0, steps) <= WorkAfter(s0, Without(steps, count))
    decreases count
  {
    if count > 0 {
      WorkFalls(s0, Front(steps), count - 1);
      LastStepWorks(s0, steps);
    }
  }

  /** Termination: from any reachable state, at most as many productive steps can follow as there is work left. */
  lemma ProductiveRunsEnd(s0: State, steps: seq<Step>, count: nat)
    requires Init(s0) && Runs(s0, steps) && AtMostOnce(s0, steps) && count <= |steps|
    requires EndsProductively(s0, steps, count)
    ensures Runs(s0, steps[..|steps| - count])
    ensures count <= WorkAfter(s0, steps[..|steps| - count])
  {
    WorkFalls(s0, steps, count);
    WorkIsNatural(After(s0, steps), LedgerAfter(s0, steps));
  }

  // ---------------------------------------------------------------- no deadlock

  /** The next command of a call in progress. */
  function NextStep(c: nat, pc: Pc): Step
    requires !pc.Done?
  {
    match pc
    case TryLock => SetNX(c, Ok)
    case CheckDatabase => QueryOrders(c, true)
    case CheckProduct => QueryProduct(c, Missing)
    case DeductRedis(_) => DecrBy(c, Ok)
    case UndoDeduct | RollBackRedis => IncrBy(c, true)
    case CreateOrder(_) => Transact(c, 0, false)
    case DropKey(_) => Del(c, true)
    case WritePending(_) => SetPending(c, true)
  }

  /** The step is not a command of a call that is made to wait. */
  predicate Spares(step: Step, waiting: set<nat>) {
    CallStep(step) || step.Transact? ==> step.call !in waiting
  }

  /** A state that is not settled has a productive step; if only some calls are left to do, the step need not be
      theirs. */
  lemma SomethingToDo(s: State, waiting: set<nat>) returns (step: Step)
    requires !SettledBut(s, waiting)
    ensures Productive(s, step) && Spares(step, waiting)
  {
    if c :| c in s.calls && c !in waiting && !s.calls[c].pc.Done? {
      step := NextStep(c, s.calls[c].pc);
    } else if h :| h in s.handlers && !s.handlers[h].Finished? {
      step := Continue(h, true);
    } else {
      var r :| 0 <= r < |s.rows| && !(r in s.log && r in s.consumed);
      if r !in s.log {
        step := Publish(r);
      } else {
        var h := FreshKey(s.handlers.Keys);
        step := Deliver(r, h, true);
      }
    }
  }

  /** No deadlock: the states in which nothing productive can happen are exactly the settled ones. Together with
      ProductiveRunsEnd, every run that keeps being served ends in a settled state. */
  lemma StuckIsSettled(s: State)
    ensures Settled(s) <==> forall step :: !Productive(s, step)
  {
    if !Settled(s) {
      var step := SomethingToDo(s, {});
    }
  }

  // ---------------------------------------------------------------- the settled state

  /** Units of a product in paid orders. */
  function PaidUnits(orders: OrderStore.Orders, p: ProductId): map<nat, int> {
    map no | no in orders :: if orders[no].product == p && orders[no].status.Paid? then orders[no].quantity else 0
  }

  /** In a settled state every order has reached the end of its road. */
  lemma SettledStages(s: State, g: Ledger, no: OrderNo)
    requires Tracked(s, g) && Settled(s) && no in g.tracks
    ensures g.tracks[no].stage.Confirmed? || g.tracks[no].stage.Released?
  {
    assert no in s.orders;
  }

  lemma {:induction false} TotalZero(m: map<nat, int>)
    requires forall k | k in m :: m[k] == 0
    ensures Total(m) == 0
    decreases m.Keys
  {
    if m != map[] {
      var k :| k in m && Total(m) == m[k] + Total(m - {k});
      TotalZero(m - {k});
    }
  }

  /** Nothing is in transit, overdrawn or locked any more, and what is sold is what is paid. */
  lemma SettledSums(s: State, g: Ledger, p: ProductId)
    requires Tracked(s, g) && Settled(s)
    ensures CallsHold(s.calls, p, Overdrawn) == 0 && CallsHold(s.calls, p, InTransit) == 0
    ensures OrdersHold(s.orders, g.tracks, p, InTransit) == 0 && OrdersHold(s.orders, g.tracks, p, Locked) == 0
  {
    forall no | no in g.tracks ensures g.tracks[no].stage.Confirmed? || g.tracks[no].stage.Released? {
      SettledStages(s, g, no);
    }
    TotalZero(CallEntries(s.calls, p, Overdrawn));
    TotalZero(CallEntries(s.calls, p, InTransit));
    TotalZero(OrderEntries(s.orders, g.tracks, p, InTransit));
    TotalZero(OrderEntries(s.orders, g.tracks, p, Locked));
  }

  lemma SoldIsPaid(orders: OrderStore.Orders, tracks: map<OrderNo, Track>, p: ProductId)
    requires OrdersTracked(orders, tracks)
    requires forall no | no in tracks :: tracks[no].stage.Confirmed? || tracks[no].stage.Released?
    ensures OrderEntries(orders, tracks, p, Sold) == PaidUnits(orders, p)
  {
  }

  lemma SettledBooks(s0: State, s: State, g: Ledger, p: ProductId)
    requires Balanced(s0, s, g, p) && Tracked(s, g) && Settled(s)
    ensures StockSettled(s0, s, LeakOf(g, p), p)
  {
    forall no | no in g.tracks ensures g.tracks[no].stage.Confirmed? || g.tracks[no].stage.Released? {
      SettledStages(s, g, no);
    }
    SettledSums(s, g, p);
    SoldIsPaid(s.orders, g.tracks, p);
  }

  lemma {:induction false} NoLeak(s0: State, steps: seq<Step>)
    requires Init(s0) && Runs(s0, steps) && RedisKeepsAnswering(steps)
    ensures LedgerAfter(s0, steps).leaked == map[]
    decreases |steps|
  {
    if steps != [] {
      FrontKeepsAnswering(steps);
      NoLeak(s0, Front(steps));
    }
  }

  /** Nothing is locked, Redis has what is available, less what was never preloaded and what was lost to its errors, and
      what is gone from the database is what was paid for. */
  ghost predicate StockSettled(s0: State, s: State, lost: int, p: ProductId) {
    && LockedOf(s, p) == 0
    && lost >= 0 && AvailableOf(s, p) - StockOf(s, p) == AvailableOf(s0, p) - StockOf(s0, p) + lost
    && AvailableOf(s0, p) - AvailableOf(s, p) == Total(PaidUnits(s.orders, p))
  }

  /** Buyers are told what became of their orders, unless PENDING overtook the verdict. */
  ghost predicate BuyersTold(s0: State, steps: seq<Step>)
    requires Runs(s0, steps)
  {
    var s := After(s0, steps);
    forall no | no in s.orders ::
      OrderStore.Poll(s.results, s.orders, no, false)
      == if Overtaken(s0, steps, no) then OrderStore.InProgress else OrderStore.VerdictOf(s.orders[no].status)
  }

  /** Exactly the keys of paid orders are left. */
  ghost predicate KeysSettled(s: State) {
    forall k: Key :: k in s.keys <==>
      exists no :: no in s.orders && s.orders[no].status.Paid? && OrderKey(s.orders[no]) == k
  }

  /** What a settled state looks like: all orders are paid or cancelled, and the stock is settled; if Redis has always
      answered, nothing was lost and buyers are told; if no key has expired either, the right keys are left. */
  ghost predicate Outcome(s0: State, steps: seq<Step>)
    requires Runs(s0, steps)
  {
    var s, g := After(s0, steps), LedgerAfter(s0, steps);
    && (forall no | no in s.orders :: Decided(s.orders[no].status))
    && (forall p: ProductId :: StockSettled(s0, s, LeakOf(g, p), p))
    && (RedisKeepsAnswering(steps) ==> g.leaked == map[] && BuyersTold(s0, steps))
    && (RedisStaysUp(steps) ==> KeysSettled(s))
  }

  lemma KeysOfPaid(keys: set<Key>, calls: map<nat, Call>, orders: OrderStore.Orders, tracks: map<OrderNo, Track>,
                   owners: map<Key, Owner>)
    requires owners.Keys == keys && CallsOwn(calls, owners) && OrdersOwn(orders, tracks, owners)
             && OrdersTracked(orders, tracks)
    requires forall c | c in calls :: calls[c].pc.Done?
    requires forall no | no in tracks :: tracks[no].stage.Confirmed? || tracks[no].stage.Released?
    ensures forall k: Key :: k in keys <==>
              exists no :: no in orders && orders[no].status.Paid? && OrderKey(orders[no]) == k
  {
    forall k: Key | k in keys
      ensures exists no :: no in orders && orders[no].status.Paid? && OrderKey(orders[no]) == k
    {
      assert k in owners && owners[k].ByOrder?;
      assert orders[owners[k].order].status.Paid?;
    }
  }

  lemma SettledKeys(s0: State, steps: seq<Step>)
    requires Init(s0) && Runs(s0, steps) && AtMostOnce(s0, steps) && RedisStaysUp(steps)
    requires Settled(After(s0, steps))
    ensures KeysSettled(After(s0, steps))
  {
    var s, g := After(s0, steps), LedgerAfter(s0, steps);
    RunKeeps(s0, steps);
    RunKeepsOwners(s0, steps);
    forall no | no in g.tracks ensures g.tracks[no].stage.Confirmed? || g.tracks[no].stage.Released? {
      SettledStages(s, g, no);
    }
    KeysOfPaid(s.keys, s.calls, s.orders, g.tracks, OwnersAfter(s0, steps));
  }

  lemma SettledStatuses(s: State, g: Ledger)
    requires Tracked(s, g) && Settled(s)
    ensures forall no | no in s.orders :: Decided(s.orders[no].status)
  {
    forall no | no in s.orders ensures Decided(s.orders[no].status) {
      SettledStages(s, g, no);
    }
  }

  /** The end of the sale. */
  lemma SettledOutcome(s0: State, steps: seq<Step>)
    requires Init(s0) && Runs(s0, steps) && AtMostOnce(s0, steps) && Settled(After(s0, steps))
    ensures Outcome(s0, steps)
  {
    var s, g := After(s0, steps), LedgerAfter(s0, steps);
    RunKeeps(s0, steps);
    SettledStatuses(s, g);
    forall p: ProductId ensures StockSettled(s0, s, LeakOf(g, p), p) {
      assert Balanced(s0, s, g, p);
      SettledBooks(s0, s, g, p);
    }
    if RedisKeepsAnswering(steps) {
      NoLeak(s0, steps);
      SettledPolls(s0, steps);
    }
    if RedisStaysUp(steps) {
      SettledKeys(s0, steps);
    }
  }

  lemma SettledPolls(s0: State, steps: seq<Step>)
    requires Init(s0) && Runs(s0, steps) && AtMostOnce(s0, steps) && RedisKeepsAnswering(steps)
    requires Settled(After(s0, steps)) && forall no | no in After(s0, steps).orders ::
               Decided(After(s0, steps).orders[no].status)
    ensures BuyersTold(s0, steps)
  {
    forall no | no in After(s0, steps).orders
      ensures var s := After(s0, steps);
              OrderStore.Poll(s.results, s.orders, no, false)
              == if Overtaken(s0, steps, no) then OrderStore.InProgress else OrderStore.VerdictOf(s.orders[no].status)
    {
      FinishedPolls(s0, steps, no, false);
    }
  }

  // ---------------------------------------------------------------- every sale can be served to its end

  /** A productive step after a productive continuation. */
  lemma OneMoreProductive(s0: State, steps: seq<Step>, done: seq<Step>, step: Step)
    requires Init(s0) && Runs(s0, steps + done) && AtMostOnce(s0, steps + done) && RedisStaysUp(done)
    requires EndsProductively(s0, steps + done, |done|) && Productive(After(s0, steps + done), step)
    ensures var longer := steps + (done + [step]);
            && Runs(s0, longer) && AtMostOnce(s0, longer) && RedisStaysUp(done + [step])
            && After(s0, longer) == Apply(After(s0, steps + done), step)
            && Front(longer) == steps + done && Last(longer) == step
            && EndsProductively(s0, longer, |done + [step]|)
            && WorkAfter(s0, longer) < WorkAfter(s0, steps + done)
  {
    var before := steps + done;
    Associate(steps, done, step);
    Extend(s0, before, step);
    ExtendOnce(s0, before, step);
    LastOf(before, step);
    LastStepWorks(s0, before + [step]);
  }

  lemma Associate(steps: seq<Step>, done: seq<Step>, step: Step)
    ensures steps + (done + [step]) == steps + done + [step]
  {
  }

  lemma LastOf(steps: seq<Step>, step: Step)
    ensures Front(steps + [step]) == steps && Last(steps + [step]) == step
  {
  }

  /** The calls that wait stand where they stood. */
  ghost predicate StillWaiting(s: State, s': State, waiting: set<nat>) {
    forall c | c in waiting && c in s.calls :: c in s'.calls && s'.calls[c] == s.calls[c]
  }

  lemma SparedCallsWait(s: State, s1: State, step: Step, waiting: set<nat>)
    requires StillWaiting(s, s1, waiting) && Enabled(s1, step) && Spares(step, waiting)
    ensures StillWaiting(s, Apply(s1, step), waiting)
  {
    if !CallStep(step) && !step.Transact? {
      OthersLeaveCalls(s1, step);
    }
  }

  /** From any point of a sale, and after any productive continuation of it, there is one of at most as many steps as
      there was work left that ends settled, but for calls that are made to wait. */
  lemma {:induction false} ServeOn(s0: State, steps: seq<Step>, done: seq<Step>, waiting: set<nat>)
    returns (more: seq<Step>)
    requires Init(s0) && Runs(s0, steps) && AtMostOnce(s0, steps)
    requires Runs(s0, steps + done) && AtMostOnce(s0, steps + done) && RedisStaysUp(done)
    requires EndsProductively(s0, steps + done, |done|)
    requires |done| + WorkAfter(s0, steps + done) <= WorkAfter(s0, steps)
    requires StillWaiting(After(s0, steps), After(s0, steps + done), waiting)
    ensures Runs(s0, steps + more) && AtMostOnce(s0, steps + more) && RedisStaysUp(more)
    ensures EndsProductively(s0, steps + more, |more|) && SettledBut(After(s0, steps + more), waiting)
    ensures |more| + WorkAfter(s0, steps + more) <= WorkAfter(s0, steps)
    ensures StillWaiting(After(s0, steps), After(s0, steps + more), waiting)
    decreases WorkAfter(s0, steps + done)
  {
    var s := After(s0, steps + done);
    WorkIsNatural(s, LedgerAfter(s0, steps + done));
    if SettledBut(s, waiting) {
      more := done;
    } else {
      var step := SomethingToDo(s, waiting);
      OneMoreProductive(s0, steps, done, step);
      SparedCallsWait(After(s0, steps), s, step, waiting);
      WorkIsNatural(After(s0, steps + (done + [step])), LedgerAfter(s0, steps + (done + [step])));
      more := ServeOn(s0, steps, done + [step], waiting);
    }
  }

  lemma Serve(s0: State, steps: seq<Step>, waiting: set<nat>) returns (more: seq<Step>)
    requires Init(s0) && Runs(s0, steps) && AtMostOnce(s0, steps)
    ensures Runs(s0, steps + more) && AtMostOnce(s0, steps + more) && RedisStaysUp(more)
    ensures EndsProductively(s0, steps + more, |more|) && SettledBut(After(s0, steps + more), waiting)
    ensures |more| + WorkAfter(s0, steps + more) <= WorkAfter(s0, steps)
    ensures StillWaiting(After(s0, steps), After(s0, steps + more), waiting)
  {
    assert steps + [] == steps;
    more := ServeOn(s0, steps, [], waiting);
  }

  /** Liveness: whatever has happened in a sale so far, Redis failures included, as long as nothing was delivered twice
      it can be served to its end in at most as many productive steps as there is work left; and then it has the
      outcome it should. By ProductiveRunsEnd no choice of productive steps takes longer, and by StuckIsSettled none
      gets stuck before. */
  lemma SaleEnds(s0: State, steps: seq<Step>) returns (more: seq<Step>)
    requires Init(s0) && Runs(s0, steps) && AtMostOnce(s0, steps)
    ensures |more| <= WorkAfter(s0, steps) && Runs(s0, steps + more) && EndsProductively(s0, steps + more, |more|)
    ensures RedisStaysUp(more) && Settled(After(s0, steps + more)) && Outcome(s0, steps + more)
  {
    more := Serve(s0, steps, {});
    WorkIsNatural(After(s0, steps + more), LedgerAfter(s0, steps + more));
    SettledOutcome(s0, steps + more);
  }

  // ---------------------------------------------------------------- a late PENDING

  lemma AnswersOn(steps: seq<Step>, more: seq<Step>)
    requires RedisKeepsAnswering(steps) && RedisStaysUp(more)
    ensures RedisKeepsAnswering(steps + more)
  {
    forall i | 0 <= i < |steps + more| ensures RedisAnswers((steps + more)[i]) {
      if i < |steps| {
        assert RedisAnswers(steps[i]);
      } else {
        assert RedisUp(more[i - |steps|]);
      }
    }
  }

  lemma LastCallSettles(s: State, c: nat, no: OrderNo)
    requires SettledBut(s, {c}) && c in s.calls && OwesPending(s.calls[c], no)
    ensures Productive(s, SetPending(c, true)) && WritesPending(s, SetPending(c, true), no)
    ensures Settled(Apply(s, SetPending(c, true))) && Apply(s, SetPending(c, true)).orders == s.orders
  {
  }

  /** If the order of a waiting call is decided when everything else is settled, its verdict has been written. */
  lemma VerdictIsOut(s0: State, steps: seq<Step>, c: nat, no: OrderNo)
    requires Init(s0) && Runs(s0, steps) && AtMostOnce(s0, steps) && RedisKeepsAnswering(steps)
    requires SettledBut(After(s0, steps), {c})
    requires no in After(s0, steps).orders && Decided(After(s0, steps).orders[no].status)
    ensures VerdictWritten(s0, steps, no)
  {
    RunRecords(s0, steps, no);
  }

  /** As long as a call still owes PENDING for its order, the sale can end with the buyer being told PENDING for a paid
      or cancelled order: nothing is left to do, no Redis command fails on the way, and nothing is repeated. */
  lemma PendingMayComeLast(s0: State, steps: seq<Step>, c: nat, no: OrderNo) returns (more: seq<Step>)
    requires Init(s0) && Runs(s0, steps) && AtMostOnce(s0, steps) && RedisKeepsAnswering(steps)
    requires c in After(s0, steps).calls && OwesPending(After(s0, steps).calls[c], no)
    ensures Runs(s0, steps + more) && AtMostOnce(s0, steps + more) && RedisStaysUp(more)
    ensures EndsProductively(s0, steps + more, |more|) && Overtaken(s0, steps + more, no)
    ensures var s := After(s0, steps + more);
            && Settled(s) && no in s.orders && Decided(s.orders[no].status)
            && OrderStore.Poll(s.results, s.orders, no, false) == OrderStore.InProgress
  {
    var others := Serve(s0, steps, {c});
    var last := SetPending(c, true);
    more := others + [last];
    LastCallSettles(After(s0, steps + others), c, no);
    OneMoreProductive(s0, steps, others, last);
    SettledOutcome(s0, steps + more);
    OneCallPerOrder(s0, steps + others);
    assert Served(After(s0, steps + others).calls[c]) == Some(no);
    AnswersOn(steps, others);
    AnswersOn(steps, more);
    VerdictIsOut(s0, steps + others, c, no);
    assert Overtaken(s0, steps + more, no);
  }

  /** Until PENDING has been written for some order, no call has been accepted. */
  lemma {:induction false} NobodyAnnounced(s0: State, steps: seq<Step>)
    requires Init(s0) && Runs(s0, steps) && forall i | 0 <= i < |steps| :: Plain(steps[i])
    ensures forall c | c in After(s0, steps).calls :: !AcceptedCall(After(s0, steps).calls[c])
    decreases |steps|
  {
    if steps != [] {
      assert forall i | 0 <= i < |steps| - 1 :: Front(steps)[i] == steps[i];
      NobodyAnnounced(s0, Front(steps));
      StepAnnounces(After(s0, Front(steps)), Last(steps));
    }
  }

  predicate AcceptedCall(call: Call) {
    call.pc.Done? && call.pc.outcome.Accepted?
  }

  lemma StepAnnounces(s: State, step: Step)
    requires Enabled(s, step) && !step.SetPending?
    requires forall c | c in s.calls :: !AcceptedCall(s.calls[c])
    ensures forall c | c in Apply(s, step).calls :: !AcceptedCall(Apply(s, step).calls[c])
  {
    if !CallStep(step) && !step.Transact? {
      OthersLeaveCalls(s, step);
    }
  }

  /** It does happen: a sale at whose end a paid order's buyer is told PENDING, although nothing was delivered twice, no
      Redis command failed, no key expired, and nothing is left to do. */
  lemma PaidButPending() returns (s0: State, steps: seq<Step>, no: OrderNo)
    ensures Init(s0) && Runs(s0, steps) && AtMostOnce(s0, steps) && RedisStaysUp(steps)
    ensures var s := After(s0, steps);
            && Settled(s) && no in s.orders && s.orders[no].status.Paid? && Overtaken(s0, steps, no)
            && OrderStore.Poll(s.results, s.orders, no, false) == OrderStore.InProgress
  {
    s0, no := Shop(1), 5;
    var before := E.PaidRun();
    NoRepeatsIsOnce(s0, before);
    OneCallPerOrder(s0, before);
    NobodyAnnounced(s0, before);
    var c :| c in After(s0, before).calls && Served(After(s0, before).calls[c]) == Some(no);
    assert forall i | 0 <= i < |before| :: Plain(before[i]);
    var more := PendingMayComeLast(s0, before, c, no);
    steps := before + more;
    StatusOverRuns(s0, steps, |before|, no);
    assert steps[..|before|] == before;
    assert forall i | 0 <= i < |steps| :: steps[i] == if i < |before| then before[i] else more[i - |before|];
  }
}

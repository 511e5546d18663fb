/** Idempotency keys and the Redis counter while Redis answers: as long as no key expires every key has exactly one
    owner, and a Seckill call that fails gives back exactly what it took. */
module SagaKeys {
  import opened Events
  import opened SagaProtocol
  import opened SagaLedger
  import opened SagaInvariant
  import A = SagaAnyDelivery
  import OrderStore

  predicate RedisStaysUp(steps: seq<Step>) {
    forall i | 0 <= i < |steps| :: RedisUp(steps[i])
  }

  lemma FrontStaysUp(steps: seq<Step>)
    requires RedisStaysUp(steps) && steps != []
    ensures RedisStaysUp(Front(steps)) && RedisUp(Last(steps))
  {
    assert forall i | 0 <= i < |steps| - 1 :: Front(steps)[i] == steps[i];
  }

  predicate RedisKeepsAnswering(steps: seq<Step>) {
    forall i | 0 <= i < |steps| :: RedisAnswers(steps[i])
  }

  lemma FrontKeepsAnswering(steps: seq<Step>)
    requires RedisKeepsAnswering(steps) && steps != []
    ensures RedisKeepsAnswering(Front(steps)) && RedisAnswers(Last(steps))
  {
    assert forall i | 0 <= i < |steps| - 1 :: Front(steps)[i] == steps[i];
  }

  // ---------------------------------------------------------------- who owns a key

  datatype Owner = ByCall(call: nat) | ByOrder(order: OrderNo)

  /** A call owns its key from the SETNX that set it until it deletes it or commits its order. */
  predicate HoldsKey(pc: Pc) {
    pc.CheckProduct? || pc.DeductRedis? || pc.UndoDeduct? || pc.CreateOrder? || pc.RollBackRedis? || pc.DropKey?
  }

  /** An order owns its key until the clean-up of its cancellation has deleted it. */
  predicate KeepsKey(stage: Stage) {
    !stage.Released?
  }

  function OrderKey(o: OrderStore.Order): Key {
    Key(o.user, o.product)
  }

  /** The owner map is total on the keys that are set, and agrees with calls and orders in both directions. */
  ghost predicate CallsOwn(calls: map<nat, Call>, owners: map<Key, Owner>) {
    && (forall c | c in calls :: !calls[c].pc.CheckDatabase?)
    && (forall c | c in calls && HoldsKey(calls[c].pc) ::
          CallKey(calls[c]) in owners && owners[CallKey(calls[c])] == ByCall(c))
    && (forall k | k in owners && owners[k].ByCall? ::
          owners[k].call in calls && HoldsKey(calls[owners[k].call].pc) && CallKey(calls[owners[k].call]) == k)
  }

  ghost predicate OrdersOwn(orders: OrderStore.Orders, tracks: map<OrderNo, Track>, owners: map<Key, Owner>) {
    && (forall no | no in orders && no in tracks && KeepsKey(tracks[no].stage) ::
          OrderKey(orders[no]) in owners && owners[OrderKey(orders[no])] == ByOrder(no))
    && (forall k | k in owners && owners[k].ByOrder? ::
          owners[k].order in orders && owners[k].order in tracks && KeepsKey(tracks[owners[k].order].stage)
          && OrderKey(orders[owners[k].order]) == k)
  }

  ghost predicate Owned(s: State, g: Ledger, owners: map<Key, Owner>) {
    owners.Keys == s.keys && CallsOwn(s.calls, owners) && OrdersOwn(s.orders, g.tracks, owners)
  }

  function FollowOwners(s: State, owners: map<Key, Owner>, step: Step): map<Key, Owner>
    requires Enabled(s, step)
  {
    match step
    case SetNX(c, _) =>
      if CallKey(s.calls[c]) in s.keys then owners else owners[CallKey(s.calls[c]) := ByCall(c)]
    case Transact(c, no, failed) =>
      if Commits(s, s.calls[c], no, failed) then owners[CallKey(s.calls[c]) := ByOrder(no)] else owners
    case Del(c, _) => owners - {CallKey(s.calls[c])}
    case Continue(h, _) =>
      if s.handlers[h].DeleteKey? then owners - {Key(s.handlers[h].user, s.handlers[h].product)} else owners
    case _ => owners
  }

  /** A call that neither sets nor drops a key and goes on holding it, or not. */
  lemma CallsOwnJump(calls: map<nat, Call>, owners: map<Key, Owner>, c: nat, pc: Pc)
    requires CallsOwn(calls, owners) && c in calls && !pc.CheckDatabase?
    requires HoldsKey(pc) == HoldsKey(calls[c].pc)
    ensures CallsOwn(Jump(calls, c, pc), owners)
  {
  }

  lemma CallsOwnTake(calls: map<nat, Call>, owners: map<Key, Owner>, c: nat, pc: Pc)
    requires CallsOwn(calls, owners) && c in calls && !HoldsKey(calls[c].pc) && HoldsKey(pc)
    requires CallKey(calls[c]) !in owners
    ensures CallsOwn(Jump(calls, c, pc), owners[CallKey(calls[c]) := ByCall(c)])
  {
  }

  lemma CallsOwnDrop(calls: map<nat, Call>, owners: map<Key, Owner>, c: nat, pc: Pc)
    requires CallsOwn(calls, owners) && c in calls && HoldsKey(calls[c].pc) && !HoldsKey(pc) && !pc.CheckDatabase?
    ensures CallsOwn(Jump(calls, c, pc), owners - {CallKey(calls[c])})
  {
  }

  lemma CallsOwnGive(calls: map<nat, Call>, owners: map<Key, Owner>, c: nat, pc: Pc, no: OrderNo)
    requires CallsOwn(calls, owners) && c in calls && HoldsKey(calls[c].pc) && !HoldsKey(pc) && !pc.CheckDatabase?
    ensures CallsOwn(Jump(calls, c, pc), owners[CallKey(calls[c]) := ByOrder(no)])
  {
  }

  lemma SetNXOwns(s: State, g: Ledger, owners: map<Key, Owner>, c: nat)
    requires Owned(s, g, owners) && Enabled(s, SetNX(c, Ok))
    ensures CallsOwn(Apply(s, SetNX(c, Ok)).calls, FollowOwners(s, owners, SetNX(c, Ok)))
    ensures Apply(s, SetNX(c, Ok)).keys == FollowOwners(s, owners, SetNX(c, Ok)).Keys
  {
    if CallKey(s.calls[c]) in s.keys {
      CallsOwnJump(s.calls, owners, c, Done(Rejected(DuplicateOrder)));
    } else {
      CallsOwnTake(s.calls, owners, c, CheckProduct);
    }
  }

  lemma DelOwns(s: State, g: Ledger, owners: map<Key, Owner>, c: nat)
    requires Owned(s, g, owners) && Enabled(s, Del(c, true))
    ensures CallsOwn(Apply(s, Del(c, true)).calls, FollowOwners(s, owners, Del(c, true)))
    ensures Apply(s, Del(c, true)).keys == FollowOwners(s, owners, Del(c, true)).Keys
  {
    CallsOwnDrop(s.calls, owners, c, Done(Rejected(s.calls[c].pc.reason)));
  }

  /** The other commands of a call leave keys and their owner alone. */
  lemma QuietStep(s: State, step: Step)
    requires Enabled(s, step) && RedisUp(step)
    requires step.QueryProduct? || step.DecrBy? || step.IncrBy? || step.SetPending?
    ensures var c, s' := step.call, Apply(s, step);
            && c in s.calls && c in s'.calls && s'.keys == s.keys && s'.calls == Jump(s.calls, c, s'.calls[c].pc)
            && HoldsKey(s'.calls[c].pc) == HoldsKey(s.calls[c].pc) && !s'.calls[c].pc.CheckDatabase?
  {
  }

  lemma CallStepOwns(s: State, g: Ledger, owners: map<Key, Owner>, step: Step)
    requires Owned(s, g, owners) && Enabled(s, step) && RedisUp(step) && CallStep(step)
    ensures CallsOwn(Apply(s, step).calls, FollowOwners(s, owners, step))
    ensures Apply(s, step).keys == FollowOwners(s, owners, step).Keys
  {
    if step.SetNX? {
      SetNXOwns(s, g, owners, step.call);
    } else if step.Del? {
      DelOwns(s, g, owners, step.call);
    } else if step.QueryProduct? || step.DecrBy? || step.IncrBy? || step.SetPending? {
      QuietStep(s, step);
      CallsOwnJump(s.calls, owners, step.call, Apply(s, step).calls[step.call].pc);
    } else if step.QueryOrders? {
      assert false;
    } else {
      BeginOwns(s, g, owners, step);
    }
  }

  lemma BeginOwns(s: State, g: Ledger, owners: map<Key, Owner>, step: Step)
    requires Owned(s, g, owners) && Enabled(s, step) && step.Begin?
    ensures CallsOwn(Apply(s, step).calls, owners) && Apply(s, step).keys == s.keys
  {
  }

  lemma OrdersOwnFrame(orders: OrderStore.Orders, tracks: map<OrderNo, Track>, owners: map<Key, Owner>,
                       owners': map<Key, Owner>)
    requires OrdersOwn(orders, tracks, owners)
    requires forall k | k in owners && owners[k].ByOrder? :: k in owners' && owners'[k] == owners[k]
    requires forall k | k in owners' && owners'[k].ByOrder? :: k in owners && owners'[k] == owners[k]
    ensures OrdersOwn(orders, tracks, owners')
  {
  }

  lemma CallStepKeepsOwners(s: State, g: Ledger, owners: map<Key, Owner>, step: Step)
    requires Tracked(s, g) && Owned(s, g, owners) && Enabled(s, step) && RedisUp(step) && CallStep(step)
    ensures Owned(Apply(s, step), Follow(s, g, step), FollowOwners(s, owners, step))
  {
    CallStepOwns(s, g, owners, step);
    CallStepFrame(s, g, step);
    OrdersOwnFrame(s.orders, g.tracks, owners, FollowOwners(s, owners, step));
  }

  lemma CallStepFrame(s: State, g: Ledger, step: Step)
    requires Enabled(s, step) && CallStep(step)
    ensures Apply(s, step).orders == s.orders && Follow(s, g, step).tracks == g.tracks
  {
  }

  lemma OrdersOwnInsert(orders: OrderStore.Orders, tracks: map<OrderNo, Track>, owners: map<Key, Owner>, no: OrderNo,
                        o: OrderStore.Order, at: nat)
    requires OrdersOwn(orders, tracks, owners) && orders.Keys == tracks.Keys && no !in orders
    requires OrderKey(o) in owners && owners[OrderKey(o)].ByCall?
    ensures OrdersOwn(orders[no := o], tracks[no := Track(Created, at)], owners[OrderKey(o) := ByOrder(no)])
  {
  }

  lemma TransactKeepsOwners(s: State, g: Ledger, owners: map<Key, Owner>, c: nat, no: OrderNo, failed: bool)
    requires Tracked(s, g) && Owned(s, g, owners) && Enabled(s, Transact(c, no, failed))
    ensures var step := Transact(c, no, failed);
            Owned(Apply(s, step), Follow(s, g, step), FollowOwners(s, owners, step))
  {
    TransactEffect(s, g, c, no, failed);
    if Commits(s, s.calls[c], no, failed) {
      CallsOwnGive(s.calls, owners, c, WritePending(no), no);
      OrdersOwnInsert(s.orders, g.tracks, owners, no, NewOrder(s.calls[c]), |s.rows|);
    } else {
      CallsOwnJump(s.calls, owners, c, RollBackRedis);
    }
  }

  lemma OrdersOwnMove(orders: OrderStore.Orders, tracks: map<OrderNo, Track>, owners: map<Key, Owner>, no: OrderNo,
                      status: OrderStore.Status, t: Track)
    requires OrdersOwn(orders, tracks, owners) && no in orders && no in tracks
    requires KeepsKey(tracks[no].stage) && KeepsKey(t.stage)
    ensures OrdersOwn(orders[no := orders[no].(status := status)], tracks[no := t], owners)
  {
  }

  lemma DeliverKeepsOwners(s0: State, s: State, g: Ledger, owners: map<Key, Owner>, r: nat, h: nat, charged: bool)
    requires Init(s0) && Books(s0, s, g) && Tracked(s, g) && Owned(s, g, owners)
    requires Enabled(s, Deliver(r, h, charged)) && r !in s.consumed
    ensures var step := Deliver(r, h, charged);
            Owned(Apply(s, step), Follow(s, g, step), FollowOwners(s, owners, step))
  {
    FirstDeliveryAdvances(s0, s, g, r, h, charged);
    var no := s.rows[r].order;
    var t := FollowDeliver(s, g, r, h, charged).tracks[no];
    OrdersOwnMove(s.orders, g.tracks, owners, no, StatusOf(t.stage), t);
    A.DeliverLeavesKeys(s, r, h, charged);
  }

  lemma OrdersOwnRelease(orders: OrderStore.Orders, tracks: map<OrderNo, Track>, owners: map<Key, Owner>, no: OrderNo,
                         at: nat)
    requires OrdersTracked(orders, tracks) && OrdersOwn(orders, tracks, owners) && no in orders
             && KeepsKey(tracks[no].stage)
    ensures OrdersOwn(orders, tracks[no := Track(Released, at)], owners - {OrderKey(orders[no])})
  {
  }

  lemma CallsOwnFrame(calls: map<nat, Call>, owners: map<Key, Owner>, k: Key)
    requires CallsOwn(calls, owners) && k in owners && owners[k].ByOrder?
    ensures CallsOwn(calls, owners - {k})
  {
  }

  lemma ContinueKeepsOwners(s: State, g: Ledger, owners: map<Key, Owner>, h: nat)
    requires Tracked(s, g) && Owned(s, g, owners) && Enabled(s, Continue(h, true))
    ensures var step := Continue(h, true);
            Owned(Apply(s, step), Follow(s, g, step), FollowOwners(s, owners, step))
  {
    var no := s.handlers[h].order;
    match s.handlers[h]
    case WriteVerdict(_, _) =>
    case RestoreRedis(_, _, _, _) =>
      assert s.handlers[h] == Chore(no, s.orders[no], g.tracks[no].stage);
      OrdersOwnMove(s.orders, g.tracks, owners, no, s.orders[no].status, Track(Restored, h));
      assert s.orders[no := s.orders[no].(status := s.orders[no].status)] == s.orders;
    case DeleteKey(_, user, product) =>
      assert s.handlers[h] == Chore(no, s.orders[no], g.tracks[no].stage);
      OrdersOwnRelease(s.orders, g.tracks, owners, no, h);
      CallsOwnFrame(s.calls, owners, Key(user, product));
  }

  lemma StepKeepsOwners(s0: State, s: State, g: Ledger, owners: map<Key, Owner>, step: Step)
    requires Init(s0) && Books(s0, s, g) && Tracked(s, g) && Owned(s, g, owners)
    requires Enabled(s, step) && FirstDelivery(s, step) && RedisUp(step)
    ensures Owned(Apply(s, step), Follow(s, g, step), FollowOwners(s, owners, step))
  {
    if CallStep(step) {
      CallStepKeepsOwners(s, g, owners, step);
    } else if step.Transact? {
      TransactKeepsOwners(s, g, owners, step.call, step.order, step.failed);
    } else if step.Deliver? {
      DeliverKeepsOwners(s0, s, g, owners, step.row, step.handler, step.charged);
    } else if step.Continue? {
      ContinueKeepsOwners(s, g, owners, step.handler);
    }
  }

  ghost function OwnersAfter(s0: State, steps: seq<Step>): map<Key, Owner>
    requires Runs(s0, steps)
    decreases |steps|
  {
    if steps == [] then map[]
    else FollowOwners(After(s0, Front(steps)), OwnersAfter(s0, Front(steps)), Last(steps))
  }

  lemma {:induction false} RunKeepsOwners(s0: State, steps: seq<Step>)
    requires Init(s0) && Runs(s0, steps) && AtMostOnce(s0, steps) && RedisStaysUp(steps)
    ensures Owned(After(s0, steps), LedgerAfter(s0, steps), OwnersAfter(s0, steps))
    decreases |steps|
  {
    if steps != [] {
      var before := Front(steps);
      FrontStaysUp(steps);
      RunKeepsOwners(s0, before);
      RunKeeps(s0, before);
      var s, g, owners := After(s0, before), LedgerAfter(s0, before), OwnersAfter(s0, before);
      StepKeepsOwners(s0, s, g, owners, Last(steps));
    }
  }

  /** Reachable with Redis up all the time. */
  ghost predicate ReachableUp(s0: State, s: State, g: Ledger) {
    exists points, steps :: PathTo(s0, points, steps, s, g) && RedisStaysUp(steps)
  }

  /** A set key has exactly one owner: either one call between its SETNX and its exit, or one order not yet
      cleaned up; and whoever owns a key finds it set. */
  lemma KeyOwnership(s0: State, s: State, g: Ledger)
    requires ReachableUp(s0, s, g)
    ensures && (forall c | c in s.calls && HoldsKey(s.calls[c].pc) :: CallKey(s.calls[c]) in s.keys)
            && (forall no | no in s.orders ::
                  no in g.tracks && (KeepsKey(g.tracks[no].stage) ==> OrderKey(s.orders[no]) in s.keys))
            && (forall c, d | c in s.calls && d in s.calls && c != d && HoldsKey(s.calls[c].pc)
                  && HoldsKey(s.calls[d].pc) ::
                  CallKey(s.calls[c]) != CallKey(s.calls[d]))
            && (forall c, no | c in s.calls && no in s.orders && HoldsKey(s.calls[c].pc)
                  && KeepsKey(g.tracks[no].stage) ::
                  CallKey(s.calls[c]) != OrderKey(s.orders[no]))
            && (forall k | k in s.keys ::
                  || (exists c :: c in s.calls && HoldsKey(s.calls[c].pc) && CallKey(s.calls[c]) == k)
                  || (exists no :: no in s.orders && KeepsKey(g.tracks[no].stage) && OrderKey(s.orders[no]) == k))
  {
    var points, steps :| PathTo(s0, points, steps, s, g) && RedisStaysUp(steps);
    PathRuns(s0, points, steps);
    RunKeeps(s0, steps);
    RunKeepsOwners(s0, steps);
    OwnersOfKeys(s, g, OwnersAfter(s0, steps));
  }

  lemma OwnersOfKeys(s: State, g: Ledger, owners: map<Key, Owner>)
    requires Owned(s, g, owners)
    ensures forall k | k in s.keys ::
              || (exists c :: c in s.calls && HoldsKey(s.calls[c].pc) && CallKey(s.calls[c]) == k)
              || (exists no :: no in s.orders && no in g.tracks && KeepsKey(g.tracks[no].stage)
                    && OrderKey(s.orders[no]) == k)
  {
    forall k | k in s.keys
      ensures || (exists c :: c in s.calls && HoldsKey(s.calls[c].pc) && CallKey(s.calls[c]) == k)
              || (exists no :: no in s.orders && no in g.tracks && KeepsKey(g.tracks[no].stage)
                    && OrderKey(s.orders[no]) == k)
    {
      assert k in owners;
      match owners[k]
      case ByCall(c) => assert c in s.calls && HoldsKey(s.calls[c].pc) && CallKey(s.calls[c]) == k;
      case ByOrder(no) => assert no in s.orders && OrderKey(s.orders[no]) == k;
    }
  }

  // ---------------------------------------------------------------- what a call does to the Redis counter

  /** What a step adds to Redis stock on behalf of one call. */
  function CallDelta(s: State, step: Step, c: nat): int
    requires Enabled(s, step)
  {
    match step
    case DecrBy(d, reply) => if d == c && reply != Error(false) then -s.calls[c].quantity else 0
    case IncrBy(d, executed) => if d == c && executed then s.calls[c].quantity else 0
    case _ => 0
  }

  /** What a call has added to Redis stock over a run. */
  function NetEffect(s0: State, steps: seq<Step>, c: nat): int
    requires Runs(s0, steps)
    decreases |steps|
  {
    if steps == [] then 0 else NetEffect(s0, Front(steps), c) + CallDelta(After(s0, Front(steps)), Last(steps), c)
  }

  /** The units a call has taken for good, or not yet put back, at a point of its program. */
  function Taken(call: Call): int {
    if call.pc.UndoDeduct? || call.pc.CreateOrder? || call.pc.RollBackRedis? || call.pc.WritePending?
       || (call.pc.Done? && call.pc.outcome.Accepted?)
    then call.quantity else 0
  }

  /** A step changes what a call has taken by exactly what it does to the counter on the call's behalf. */
  ghost predicate Accounted(s: State, step: Step, c: nat)
    requires Enabled(s, step)
  {
    var s' := Apply(s, step);
    && (c in s.calls ==> c in s'.calls)
    && CallDelta(s, step, c)
       == (if c in s.calls then Taken(s.calls[c]) else 0) - (if c in s'.calls then Taken(s'.calls[c]) else 0)
  }

  lemma DecrByAccounted(s: State, d: nat, c: nat)
    requires Enabled(s, DecrBy(d, Ok))
    ensures Accounted(s, DecrBy(d, Ok), c)
  {
  }

  lemma IncrByAccounted(s: State, d: nat, c: nat)
    requires Enabled(s, IncrBy(d, true))
    ensures Accounted(s, IncrBy(d, true), c)
  {
  }

  lemma TransactAccounted(s: State, d: nat, no: OrderNo, failed: bool, c: nat)
    requires Enabled(s, Transact(d, no, failed))
    ensures Accounted(s, Transact(d, no, failed), c)
  {
  }

  lemma OtherAccounted(s: State, step: Step, c: nat)
    requires Enabled(s, step) && CallStep(step) && !step.DecrBy? && !step.IncrBy?
    ensures Accounted(s, step, c)
  {
    assert Taken(Apply(s, step).calls[step.call]) == if step.call in s.calls then Taken(s.calls[step.call]) else 0;
  }

  lemma StepAccounted(s: State, step: Step, c: nat)
    requires Enabled(s, step) && RedisAnswers(step)
    ensures Accounted(s, step, c)
  {
    if step.DecrBy? {
      DecrByAccounted(s, step.call, c);
    } else if step.IncrBy? {
      IncrByAccounted(s, step.call, c);
    } else if step.Transact? {
      TransactAccounted(s, step.call, step.order, step.failed, c);
    } else if CallStep(step) {
      OtherAccounted(s, step, c);
    } else {
      assert Apply(s, step).calls == s.calls;
    }
  }

  /** At every point of any run on which Redis answers, the counter is lower by exactly what each call has taken and
      not put back. */
  lemma {:induction false} RunNetEffect(s0: State, steps: seq<Step>, c: nat)
    requires Init(s0) && Runs(s0, steps) && RedisKeepsAnswering(steps)
    ensures var s := After(s0, steps);
            NetEffect(s0, steps, c) == if c in s.calls then -Taken(s.calls[c]) else 0
    decreases |steps|
  {
    if steps != [] {
      FrontKeepsAnswering(steps);
      RunNetEffect(s0, Front(steps), c);
      StepAccounted(After(s0, Front(steps)), Last(steps), c);
    }
  }

  /** Whatever else goes on at the same time, however often messages are delivered and whenever keys expire, a call
      that ends with an error has left the Redis counter as it found it, and a call that ends well has taken its
      quantity once. */
  lemma ErrorExitsAreNeutral(s0: State, steps: seq<Step>, c: nat)
    requires Init(s0) && Runs(s0, steps) && RedisKeepsAnswering(steps)
    requires c in After(s0, steps).calls && After(s0, steps).calls[c].pc.Done?
    ensures var call := After(s0, steps).calls[c];
            NetEffect(s0, steps, c) == if call.pc.outcome.Rejected? then 0 else -call.quantity
  {
    RunNetEffect(s0, steps, c);
  }

  // ---------------------------------------------------------------- one order per user and product

  ghost predicate PairsDiffer(orders: OrderStore.Orders) {
    forall m, n | m in orders && n in orders && m != n ::
      orders[m].user != orders[n].user || orders[m].product != orders[n].product
  }

  lemma PairsStayDifferent(orders: OrderStore.Orders, orders': OrderStore.Orders)
    requires PairsDiffer(orders) && A.OnlyStatuses(orders, orders')
    ensures PairsDiffer(orders')
  {
  }

  lemma StepKeepsPairs(s: State, step: Step)
    requires Enabled(s, step) && PairsDiffer(s.orders)
    ensures PairsDiffer(Apply(s, step).orders)
  {
    if step.Deliver? {
      A.DeliverKeepsOrders(s, step.row, step.handler, step.charged);
      PairsStayDifferent(s.orders, Apply(s, step).orders);
    } else if !step.Transact? {
      assert Apply(s, step).orders == s.orders;
    }
  }

  /** With any number of redeliveries and any Redis failures, the unique index leaves each user at most one
      order row per product. */
  lemma {:induction false} OneOrderPerPair(s0: State, steps: seq<Step>)
    requires Init(s0) && Runs(s0, steps)
    ensures PairsDiffer(After(s0, steps).orders)
    decreases |steps|
  {
    if steps != [] {
      OneOrderPerPair(s0, Front(steps));
      StepKeepsPairs(After(s0, Front(steps)), Last(steps));
    }
  }

  lemma StepKeepsOrdered(s: State, step: Step, user: UserId, product: ProductId)
    requires Enabled(s, step) && OrderStore.OrderedBy(s.orders, user, product)
    ensures OrderStore.OrderedBy(Apply(s, step).orders, user, product)
  {
    var n :| n in s.orders && s.orders[n].user == user && s.orders[n].product == product;
    if step.Deliver? {
      A.DeliverKeepsOrders(s, step.row, step.handler, step.charged);
      assert n in Apply(s, step).orders;
    } else if !step.Transact? {
      assert Apply(s, step).orders == s.orders;
    } else {
      assert n in Apply(s, step).orders && Apply(s, step).orders[n] == s.orders[n];
    }
  }

  lemma {:induction false} RunKeepsOrdered(s0: State, steps: seq<Step>, i: nat, user: UserId, product: ProductId)
    requires Runs(s0, steps) && i <= |steps| && Runs(s0, steps[..i])
    requires OrderStore.OrderedBy(After(s0, steps[..i]).orders, user, product)
    ensures OrderStore.OrderedBy(After(s0, steps).orders, user, product)
    decreases |steps|
  {
    if i == |steps| {
      assert steps[..i] == steps;
    } else {
      assert Front(steps)[..i] == steps[..i];
      RunKeepsOrdered(s0, Front(steps), i, user, product);
      StepKeepsOrdered(After(s0, Front(steps)), Last(steps), user, product);
    }
  }

  /** Deleting the key after a cancellation is meant to allow another try, but the cancelled order row stays, and
      with it the unique index entry: once a user has had an order for a product, no later call for the pair ever
      commits, whatever number it draws. It goes to its compensations instead. */
  lemma RetryNeverCommits(s0: State, steps: seq<Step>, i: nat, c: nat, no: OrderNo, failed: bool)
    requires Runs(s0, steps) && i <= |steps| && Enabled(After(s0, steps), Transact(c, no, failed))
    ensures Runs(s0, steps[..i])
    ensures var s := After(s0, steps);
            var s' := Apply(s, Transact(c, no, failed));
            OrderStore.OrderedBy(After(s0, steps[..i]).orders, s.calls[c].user, s.calls[c].product) ==>
              s'.orders == s.orders && s'.rows == s.rows && c in s'.calls && s'.calls[c].pc.RollBackRedis?
  {
    var call := After(s0, steps).calls[c];
    PrefixRuns(s0, steps, i);
    if OrderStore.OrderedBy(After(s0, steps[..i]).orders, call.user, call.product) {
      RunKeepsOrdered(s0, steps, i, call.user, call.product);
    }
  }

  /** A key that expires, 24 hours after its SETNX or not, lets the next call of its pair pass the idempotency check;
      what then stops it is the unique index. */
  lemma ExpiryReopens(s: State, c: nat)
    requires c in s.calls && s.calls[c].pc.TryLock?
    ensures var key := CallKey(s.calls[c]);
            var s1 := Apply(s, ExpireKey(key));
            && Enabled(s1, SetNX(c, Ok)) && Apply(s1, SetNX(c, Ok)).keys == s.keys + {key}
            && Apply(s1, SetNX(c, Ok)).calls == s.calls[c := s.calls[c].(pc := CheckProduct)]
  {
    var s1 := Apply(s, ExpireKey(CallKey(s.calls[c])));
    assert s1.calls[c].pc.TryLock?;
  }
}

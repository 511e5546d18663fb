/** The shop of the concrete runs: some units of product 1, sold one by one at 10.0. A purchase is a Seckill call up to
    its commit. */
module SagaShop {
  import opened Events
  import opened SagaProtocol
  import opened SagaRepeats
  import OrderStore
  import InventoryStore

  /** The given number of units of product 1, in the database and in Redis. */
  function Shop(units: nat): (s: State)
    ensures Init(s)
  {
    State(map[1 := units], {}, map[], map[], map[1 := InventoryStore.Row(units, units, 0, 0)], [], [], [], {}, map[],
        map[])
  }

  /** Redis answers, and no call writes PENDING. */
  predicate Plain(step: Step) {
    RedisUp(step) && !step.SetPending?
  }

  /** A run that repeats only messages of the given kinds. */
  ghost predicate Ran(s0: State, steps: seq<Step>, kinds: set<MessageKind>) {
    && Runs(s0, steps) && RepeatsOnly(s0, steps, kinds)
    && forall i | 0 <= i < |steps| :: Plain(steps[i])
  }

  /** One more step, to a known state. */
  lemma TakeStep(s0: State, steps: seq<Step>, kinds: set<MessageKind>, step: Step, s': State)
    returns (longer: seq<Step>)
    requires Ran(s0, steps, kinds)
    requires Enabled(After(s0, steps), step) && RepeatsKind(After(s0, steps), step, kinds)
    requires Plain(step) && Apply(After(s0, steps), step) == s'
    ensures Ran(s0, longer, kinds) && After(s0, longer) == s'
  {
    longer := steps + [step];
    Extend(s0, steps, step);
    assert Front(longer) == steps && Last(longer) == step;
  }

  // ---------------------------------------------------------------- a Seckill call up to its commit

  /** The state with one more call, at the given command, and the keys and counters it has changed. */
  function InCall(s: State, c: nat, user: UserId, pc: Pc, keys: set<Key>, stock: map<ProductId, int>): State {
    s.(calls := s.calls[c := Call(user, 1, 1, pc)], keys := keys, stock := stock)
  }

  lemma CallBegins(s: State, c: nat, user: UserId)
    requires c !in s.calls
    ensures Enabled(s, Begin(c, user, 1, 1))
              && Apply(s, Begin(c, user, 1, 1)) == InCall(s, c, user, TryLock, s.keys, s.stock)
  {
  }

  lemma CallLocks(s: State, c: nat, user: UserId)
    requires Key(user, 1) !in s.keys
    ensures var a := InCall(s, c, user, TryLock, s.keys, s.stock);
            && Enabled(a, SetNX(c, Ok))
            && Apply(a, SetNX(c, Ok)) == InCall(s, c, user, CheckProduct, s.keys + {Key(user, 1)}, s.stock)
  {
    var a := InCall(s, c, user, TryLock, s.keys, s.stock);
    assert a.calls[c := Call(user, 1, 1, CheckProduct)] == s.calls[c := Call(user, 1, 1, CheckProduct)];
  }

  lemma CallAsks(s: State, c: nat, user: UserId, keys: set<Key>)
    ensures var a := InCall(s, c, user, CheckProduct, keys, s.stock);
            && Enabled(a, QueryProduct(c, OnSale(10.0)))
            && Apply(a, QueryProduct(c, OnSale(10.0))) == InCall(s, c, user, DeductRedis(10.0), keys, s.stock)
  {
    var a := InCall(s, c, user, CheckProduct, keys, s.stock);
    assert a.calls[c := Call(user, 1, 1, DeductRedis(10.0))] == s.calls[c := Call(user, 1, 1, DeductRedis(10.0))];
  }

  lemma CallReserves(s: State, c: nat, user: UserId, keys: set<Key>)
    requires StockOf(s, 1) >= 1
    ensures var a := InCall(s, c, user, DeductRedis(10.0), keys, s.stock);
            && Enabled(a, DecrBy(c, Ok))
            && Apply(a, DecrBy(c, Ok)) == InCall(s, c, user, CreateOrder(10.0), keys, AddStock(s.stock, 1, -1))
  {
    var a := InCall(s, c, user, DeductRedis(10.0), keys, s.stock);
    assert a.calls[c := Call(user, 1, 1, CreateOrder(10.0))] == s.calls[c := Call(user, 1, 1, CreateOrder(10.0))];
  }

  function OneUnit(user: UserId): OrderStore.Order {
    OrderStore.Order(user, 1, 1, 10.0, OrderStore.Pending)
  }

  lemma CallCommits(s: State, c: nat, user: UserId, keys: set<Key>, stock: map<ProductId, int>, no: OrderNo)
    requires no !in s.orders && !OrderStore.OrderedBy(s.orders, user, 1)
    ensures var a := InCall(s, c, user, CreateOrder(10.0), keys, stock);
            && Enabled(a, Transact(c, no, false))
            && Apply(a, Transact(c, no, false))
               == InCall(s, c, user, WritePending(no), keys, stock).(
                    orders := s.orders[no := OneUnit(user)], rows := s.rows + [OrderCreated(no, user, 1, 1, 10.0)])
  {
    var a := InCall(s, c, user, CreateOrder(10.0), keys, stock);
    assert 10.0 * (1 as real) == 10.0;
    assert NewOrder(a.calls[c]) == OneUnit(user);
    assert a.calls[c := Call(user, 1, 1, WritePending(no))] == s.calls[c := Call(user, 1, 1, WritePending(no))];
  }

  function Committed(s: State, c: nat, user: UserId, no: OrderNo): State {
    InCall(s, c, user, WritePending(no), s.keys + {Key(user, 1)}, AddStock(s.stock, 1, -1)).(
      orders := s.orders[no := OneUnit(user)], rows := s.rows + [OrderCreated(no, user, 1, 1, 10.0)])
  }

  /** Someone buys a unit. */
  lemma BuyOne(s0: State, steps: seq<Step>, kinds: set<MessageKind>, user: UserId, no: OrderNo, c: nat)
    returns (longer: seq<Step>)
    requires Ran(s0, steps, kinds)
    requires var s := After(s0, steps);
             && StockOf(s, 1) >= 1 && Key(user, 1) !in s.keys && c !in s.calls
             && no !in s.orders && !OrderStore.OrderedBy(s.orders, user, 1)
    ensures Ran(s0, longer, kinds)
    ensures After(s0, longer) == Committed(After(s0, steps), c, user, no)
  {
    var s := After(s0, steps);
    var keys := s.keys + {Key(user, 1)};
    CallBegins(s, c, user);
    longer := TakeStep(s0, steps, kinds, Begin(c, user, 1, 1), InCall(s, c, user, TryLock, s.keys, s.stock));
    CallLocks(s, c, user);
    longer := TakeStep(s0, longer, kinds, SetNX(c, Ok), InCall(s, c, user, CheckProduct, keys, s.stock));
    CallAsks(s, c, user, keys);
    longer := TakeStep(s0, longer, kinds, QueryProduct(c, OnSale(10.0)),
                 InCall(s, c, user, DeductRedis(10.0), keys, s.stock));
    longer := ReserveAndCommit(s0, longer, kinds, s, user, no, c);
  }

  lemma ReserveAndCommit(s0: State, steps: seq<Step>, kinds: set<MessageKind>, s: State, user: UserId, no: OrderNo,
                         c: nat)
    returns (longer: seq<Step>)
    requires Ran(s0, steps, kinds)
    requires After(s0, steps) == InCall(s, c, user, DeductRedis(10.0), s.keys + {Key(user, 1)}, s.stock)
    requires StockOf(s, 1) >= 1 && no !in s.orders && !OrderStore.OrderedBy(s.orders, user, 1)
    ensures Ran(s0, longer, kinds)
    ensures After(s0, longer) == Committed(s, c, user, no)
  {
    var keys, stock := s.keys + {Key(user, 1)}, AddStock(s.stock, 1, -1);
    CallReserves(s, c, user, keys);
    longer := TakeStep(s0, steps, kinds, DecrBy(c, Ok), InCall(s, c, user, CreateOrder(10.0), keys, stock));
    CallCommits(s, c, user, keys, stock, no);
    longer := TakeStep(s0, longer, kinds, Transact(c, no, false), Committed(s, c, user, no));
  }
}

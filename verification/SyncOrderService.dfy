/** The synchronous order service: an object over Redis and one database that holds the order and inventory tables. Each
    method is proved to perform steps of the machine of SyncOrders. */
module SyncOrderService {
  import opened Events
  import opened OrderStore
  import P = SagaProtocol
  import S = SyncOrders
  import InventoryStore
  import SagaServices

  class Database {
    var orders: Orders
    var stock: InventoryStore.Stock

    constructor (stock: InventoryStore.Stock)
      ensures orders == map[] && this.stock == stock
    {
      this.orders, this.stock := map[], stock;
    }
  }

  datatype Created = Created(order: OrderNo) | Refused(reason: P.Rejection)

  /** StockNotLocked is the error of a guarded update that matches no row; DatabaseError any other. */
  datatype Cancellation = Done | NotFound | NotOwner | NotPending | StockNotLocked | DatabaseError

  /** What keeps the transaction of a CreateOrder from committing, apart from its own checks: its read of the stock
      fails, it loses the row to other updates three times, or a later statement or the commit fails. */
  datatype Obstacle = Free | ReadFails | RowLost | WriteFails

  ghost predicate Shows(db: Database, s: S.State)
    reads db
  {
    db.orders == s.orders && db.stock == s.stock
  }

  /** What Redis, the product service and the database answer during one CreateOrder. */
  datatype Answers = Answers(setNX: P.Reply, queryFails: bool, lookup: P.Lookup, obstacle: Obstacle, del: bool)

  /** The call gets as far as its transaction: the key or, if Redis fails, the order table admits it, and the
      product is on sale. */
  ghost predicate Admitted(keys: set<P.Key>, orders: Orders, user: UserId, product: ProductId, a: Answers) {
    && (if a.setNX.Error? then !a.queryFails && !OrderedBy(orders, user, product) else P.Key(user, product) !in keys)
    && a.lookup.OnSale?
  }

  lemma CreateEffect(s: S.State, no: OrderNo, o: Order, contended: bool)
    requires o.quantity >= 1 && o.status.Pending?
    ensures var s' := S.Apply(s, S.Create(no, o.user, o.product, o.quantity, o.total, contended));
            if !contended && S.CanCreate(s, no, o) then
              s'.orders == s.orders[no := o] && s'.stock == InventoryStore.Deduct(s.stock, o.product, o.quantity).0
            else s' == s
  {
    assert o == Order(o.user, o.product, o.quantity, o.total, Pending);
  }

  class OrderService {
    const rdb: SagaServices.Redis
    const db: Database

    constructor (rdb: SagaServices.Redis, db: Database)
      ensures this.rdb == rdb && this.db == db
    {
      this.rdb, this.db := rdb, db;
    }

    /** An admitted call is one step of the machine; any other leaves the database alone. The order is created exactly
        if that step may create it. A failed transaction gives the key back, but a product that is missing or
        off sale does not: the key then stays set although there is no order. */
    method CreateOrder(user: UserId, product: ProductId, quantity: int, no: OrderNo, a: Answers, ghost s: S.State)
      returns (result: Created)
      requires quantity >= 1 && Shows(db, s)
      modifies rdb`keys, db
      ensures !Admitted(old(rdb.keys), old(db.orders), user, product, a) ==> Shows(db, s) && result.Refused?
      ensures a.setNX.Error? ==>
                && (a.queryFails ==> result == Refused(P.Internal))
                && (!a.queryFails && OrderedBy(old(db.orders), user, product) ==> result == Refused(P.DuplicateOrder))
      ensures (if a.setNX.Ok? then P.Key(user, product) !in old(rdb.keys)
               else !a.queryFails && !OrderedBy(old(db.orders), user, product)) ==>
                && (a.lookup.Missing? ==> result == Refused(P.ProductNotFound))
                && (a.lookup.OffSale? ==> result == Refused(P.ProductOffSale))
                && (a.lookup.LookupFailed? ==> result == Refused(P.Internal))
      ensures Admitted(old(rdb.keys), old(db.orders), user, product, a) ==>
                var o := Order(user, product, quantity, a.lookup.price * quantity as real, Pending);
                && Shows(db, S.Apply(s, S.Create(no, user, product, quantity, o.total, !a.obstacle.Free?)))
                && (result.Created? <==> a.obstacle.Free? && S.CanCreate(s, no, o))
                && (result.Created? ==> result.order == no && no in db.orders && db.orders[no] == o)
                && (a.obstacle.ReadFails? ==> result == Refused(P.Internal))
                && (a.obstacle.RowLost? ==> result == Refused(P.StockInsufficient))
                && (a.obstacle.Free? || a.obstacle.WriteFails? ==>
                      (result == Refused(P.StockInsufficient)
                       <==> product !in old(db.stock) || old(db.stock)[product].available < quantity))
                && (result.Refused? ==> result.reason.StockInsufficient? || result.reason.Internal?)
      ensures a.setNX.Ok? && P.Key(user, product) !in old(rdb.keys) ==>
                && (result.Created? || !a.lookup.OnSale? || !a.del ==>
                      rdb.keys == old(rdb.keys) + {P.Key(user, product)})
                && (result.Refused? && a.lookup.OnSale? && a.del ==> rdb.keys == old(rdb.keys))
      ensures a.setNX.Ok? && P.Key(user, product) in old(rdb.keys) ==>
                result == Refused(P.DuplicateOrder) && rdb.keys == old(rdb.keys)
      ensures a.setNX.Error? ==>
                var sent := if a.setNX.executed then old(rdb.keys) + {P.Key(user, product)} else old(rdb.keys);
                var tried := !a.queryFails && !OrderedBy(old(db.orders), user, product) && a.lookup.OnSale?;
                rdb.keys == if tried && result.Refused? && a.del then sent - {P.Key(user, product)} else sent
    {
      var key := P.Key(user, product);
      var taken := rdb.SetNX(key, a.setNX);
      if taken.None? {
        if a.queryFails {
          return Refused(P.Internal);
        }
        if OrderedBy(db.orders, user, product) {
          return Refused(P.DuplicateOrder);
        }
      } else if !taken.value {
        return Refused(P.DuplicateOrder);
      }
      match a.lookup {
        case Missing => return Refused(P.ProductNotFound);
        case LookupFailed => return Refused(P.Internal);
        case OffSale => return Refused(P.ProductOffSale);
        case OnSale(price) =>
          var o := Order(user, product, quantity, price * quantity as real, Pending);
          CreateEffect(s, no, o, !a.obstacle.Free?);
          result := DeductAndInsert(no, o, a.obstacle);
          if result.Refused? {
            rdb.Del(key, a.del);
          }
          assert o.total == a.lookup.price * quantity as real;
          assert Shows(db, S.Apply(s, S.Create(no, user, product, quantity, o.total, !a.obstacle.Free?)));
      }
    }

    /** The transaction: both writes or neither, and the error the caller sees. */
    method DeductAndInsert(no: OrderNo, o: Order, obstacle: Obstacle) returns (result: Created)
      modifies db
      ensures result.Created? <==>
                && obstacle.Free?
                && o.product in old(db.stock) && old(db.stock)[o.product].available >= o.quantity
                && no !in old(db.orders) && !OrderedBy(old(db.orders), o.user, o.product)
      ensures result.Created? ==>
                var was := old(db.stock)[o.product];
                && result.order == no && db.orders == old(db.orders)[no := o]
                && db.stock == old(db.stock)[o.product := InventoryStore.Row(was.total, was.available - o.quantity,
                                                            was.locked + o.quantity, was.version + 1)]
                && db.stock == InventoryStore.Deduct(old(db.stock), o.product, o.quantity).0
      ensures result.Refused? ==> db.orders == old(db.orders) && db.stock == old(db.stock)
      ensures obstacle.ReadFails? ==> result == Refused(P.Internal)
      ensures obstacle.RowLost? ==> result == Refused(P.StockInsufficient)
      ensures obstacle.Free? || obstacle.WriteFails? ==>
                (result == Refused(P.StockInsufficient)
                 <==> o.product !in old(db.stock) || old(db.stock)[o.product].available < o.quantity)
      ensures result.Refused? ==> result.reason.StockInsufficient? || result.reason.Internal?
    {
      if obstacle.ReadFails? {
        return Refused(P.Internal);
      }
      var (stock, outcome) := InventoryStore.Deduct(db.stock, o.product, o.quantity);
      if obstacle.RowLost? || !outcome.Deducted? {
        return Refused(P.StockInsufficient);
      }
      var inserted := InsertOrder(db.orders, no, o);
      if obstacle.WriteFails? || inserted.None? {
        return Refused(P.Internal);
      }
      db.stock, db.orders := stock, inserted.value;
      return Created.Created(no);
    }

    /** In a state that any interleaving of the two operations can reach, and with nobody else holding the row,
        an owner's cancellation of a pending order succeeds unless the database fails, and is the machine's lock step
        followed by its commit. Every other cancellation changes nothing and says why. */
    method CancelOrder(user: UserId, no: OrderNo, readFails: bool, writeFails: bool, ghost s0: S.State,
                       ghost before: seq<S.Step>, ghost tx: nat)
      returns (result: Cancellation)
      requires S.Init(s0) && S.Runs(s0, before) && Shows(db, S.After(s0, before))
      requires S.Enabled(S.After(s0, before), S.LockOrder(tx, user, no))
      modifies db
      ensures result == if readFails then DatabaseError
                        else if no !in old(db.orders) then NotFound
                        else if old(db.orders)[no].user != user then NotOwner
                        else if !old(db.orders)[no].status.Pending? then NotPending
                        else if writeFails then DatabaseError
                        else Done
      ensures result != Done ==> Shows(db, S.After(s0, before))
      ensures result == Done ==>
                var locked := S.Apply(S.After(s0, before), S.LockOrder(tx, user, no));
                && S.Enabled(locked, S.CommitCancel(tx)) && Shows(db, S.Apply(locked, S.CommitCancel(tx)))
                && no in db.orders && db.orders[no].status.Cancelled?
      ensures result == Done ==>
                && no in old(db.orders)
                && var o := old(db.orders)[no];
                && db.orders == old(db.orders)[no := o.(status := Status.Cancelled)]
                && o.product in old(db.stock)
                && var was := old(db.stock)[o.product];
                   db.stock == old(db.stock)[o.product := InventoryStore.Row(was.total, was.available + o.quantity,
                                                             was.locked - o.quantity, was.version + 1)]
    {
      ghost var s := S.After(s0, before);
      if readFails {
        return DatabaseError;
      }
      if no !in db.orders {
        return NotFound;
      }
      var o := db.orders[no];
      if o.user != user {
        return NotOwner;
      }
      if !o.status.Pending? {
        return NotPending;
      }
      S.RunKeeps(s0, before);
      S.PendingIsCovered(s0, s, no);
      if o.product !in db.stock || InventoryStore.ReturnStock(db.stock[o.product], o.quantity).None? {
        return StockNotLocked;
      }
      if writeFails {
        return DatabaseError;
      }
      db.stock := InventoryStore.Return(db.stock, o.product, o.quantity);
      db.orders := db.orders[no := o.(status := Status.Cancelled)];
      return Done;
    }
  }
}

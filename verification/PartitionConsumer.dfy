/** Consuming a claim: the messages of one partition, one after the other, each marked whether or not its handler
    could commit. Marking everything is what makes a lost transaction final, and handling everything once is
    what at-most-once delivery asks of the consumer. */
module PartitionConsumer {
  import opened Events
  import opened SagaProtocol
  import opened SagaServices
  import opened Totals
  import OrderStore

  lemma Regroup(early: seq<Step>, late: seq<Step>)
    ensures if late == [] then early + late == early else early + late == early + Front(late) + [Last(late)]
  {
  }

  /** Runs compose, and so does at-most-once delivery. */
  lemma {:induction false} Compose(s: State, early: seq<Step>, late: seq<Step>)
    requires Runs(s, early) && Runs(After(s, early), late)
    ensures Runs(s, early + late) && After(s, early + late) == After(After(s, early), late)
    decreases |late|
  {
    Regroup(early, late);
    if late != [] {
      LastStep(After(s, early), late);
      Compose(s, early, Front(late));
      Extend(s, early + Front(late), Last(late));
    }
  }

  lemma {:induction false} ComposeOnce(s: State, early: seq<Step>, late: seq<Step>)
    requires Runs(s, early) && Runs(After(s, early), late)
    requires AtMostOnce(s, early) && AtMostOnce(After(s, early), late)
    ensures Runs(s, early + late) && AtMostOnce(s, early + late)
    decreases |late|
  {
    Regroup(early, late);
    if late != [] {
      LastStep(After(s, early), late);
      LastOnce(After(s, early), late);
      ComposeOnce(s, early, Front(late));
      Compose(s, early, Front(late));
      ExtendOnce(s, early + Front(late), Last(late));
    }
  }

  /** The order table after messages, of which those marked lost did not commit. */
  function Handled(orders: OrderStore.Orders, messages: seq<Event>, lost: seq<bool>): OrderStore.Orders
    requires |messages| == |lost|
  {
    if messages == [] then orders
    else
      var n := |messages| - 1;
      var before := Handled(orders, messages[..n], lost[..n]);
      if lost[n] then before else OrderStore.React(before, messages[n]).orders
  }

  lemma HandledPush(orders: OrderStore.Orders, messages: seq<Event>, lost: seq<bool>, n: nat)
    requires n < |messages| == |lost|
    ensures Handled(orders, messages[..n + 1], lost[..n + 1])
            == if lost[n] then Handled(orders, messages[..n], lost[..n])
               else OrderStore.React(Handled(orders, messages[..n], lost[..n]), messages[n]).orders
  {
    assert messages[..n + 1][..n] == messages[..n] && lost[..n + 1][..n] == lost[..n];
  }

  /** The rows of the first n messages that were not lost. */
  function Seen(rows: seq<nat>, lost: seq<bool>, n: nat): set<nat>
    requires n <= |rows| == |lost|
  {
    set i | 0 <= i < n && !lost[i] :: rows[i]
  }

  /** The claim's messages are published rows for the order service. */
  ghost predicate Claimed(s: State, messages: seq<Event>, rows: seq<nat>) {
    && |rows| == |messages|
    && forall i | 0 <= i < |rows| ::
         rows[i] in s.log && rows[i] < |s.rows| && s.rows[rows[i]] == messages[i]
             && TopicConsumer(messages[i]).OrderService?
  }

  /** No row is in the claim twice, and none has been consumed. */
  ghost predicate Fresh(s: State, rows: seq<nat>) {
    && (forall i, j | 0 <= i < j < |rows| :: rows[i] != rows[j])
    && (forall i | 0 <= i < |rows| :: rows[i] !in s.consumed)
  }

  class Consumer {
    const handler: OrderEventHandler
    var marked: nat

    constructor (handler: OrderEventHandler)
      ensures this.handler == handler && marked == 0
    {
      this.handler, marked := handler, 0;
    }

    /** The first n messages are done: handled in order unless lost, as a run of the protocol. */
    ghost predicate Done(s: State, orders: OrderStore.Orders, messages: seq<Event>, lost: seq<bool>, rows: seq<nat>,
                         n: nat, steps: seq<Step>)
      requires n <= |messages| == |lost| == |rows|
      reads handler.rdb, handler.db
    {
      && handler.db.orders == Handled(orders, messages[..n], lost[..n])
      && Runs(s, steps) && Keeps(s, After(s, steps))
      && RedisShows(handler.rdb, After(s, steps)) && OrdersShow(handler.db, After(s, steps))
      && After(s, steps).consumed == s.consumed + Seen(rows, lost, n)
      && (Fresh(s, rows) ==> AtMostOnce(s, steps))
    }

    /** Every message is marked; those not lost are handled in partition order, as a run of the protocol; and the
        run delivers nothing twice if the partition holds no row twice and none that was consumed before. */
    method ConsumeClaim(messages: seq<Event>, lost: seq<bool>, written: seq<bool>, ghost s: State, ghost rows: seq<nat>)
      returns (ghost steps: seq<Step>)
      requires |lost| == |messages| == |written| && Claimed(s, messages, rows)
      requires RedisShows(handler.rdb, s) && OrdersShow(handler.db, s)
      modifies this, handler.rdb, handler.db
      ensures marked == old(marked) + |messages|
      ensures handler.db.orders == Handled(old(handler.db.orders), messages, lost)
      ensures Runs(s, steps) && RedisShows(handler.rdb, After(s, steps)) && OrdersShow(handler.db, After(s, steps))
      ensures After(s, steps).consumed == s.consumed + Seen(rows, lost, |rows|)
      ensures Fresh(s, rows) ==> AtMostOnce(s, steps)
    {
      steps := [];
      var i := 0;
      while i < |messages|
        invariant 0 <= i <= |messages| && marked == old(marked) + i
        invariant Done(s, old(handler.db.orders), messages, lost, rows, i, steps)
      {
        steps := Next(messages, lost, written[i], s, old(handler.db.orders), rows, i, steps);
        marked := marked + 1;
        i := i + 1;
      }
      assert messages[..i] == messages && lost[..i] == lost;
    }

    /** One message. */
    method Next(messages: seq<Event>, lost: seq<bool>, written: bool, ghost s: State, ghost orders: OrderStore.Orders,
                ghost rows: seq<nat>, n: nat, ghost before: seq<Step>)
      returns (ghost steps: seq<Step>)
      requires n < |lost| == |messages| && Claimed(s, messages, rows)
      requires Done(s, orders, messages, lost, rows, n, before)
      modifies handler.rdb, handler.db
      ensures Done(s, orders, messages, lost, rows, n + 1, steps)
    {
      HandledPush(orders, messages, lost, n);
      SeenNext(rows, lost, n);
      steps := Handle(messages[n], lost[n], written, s, before, rows[n]);
    }

    /** Handling one message, after any steps. */
    method Handle(message: Event, fails: bool, written: bool, ghost s: State, ghost before: seq<Step>, ghost r: nat)
      returns (ghost steps: seq<Step>)
      requires Runs(s, before) && Keeps(s, After(s, before))
      requires RedisShows(handler.rdb, After(s, before)) && OrdersShow(handler.db, After(s, before))
      requires r in s.log && r < |s.rows| && s.rows[r] == message && TopicConsumer(message).OrderService?
      modifies handler.rdb, handler.db
      ensures handler.db.orders == if fails then old(handler.db.orders)
                else OrderStore.React(old(handler.db.orders), message).orders
      ensures Runs(s, steps) && Keeps(s, After(s, steps))
      ensures RedisShows(handler.rdb, After(s, steps)) && OrdersShow(handler.db, After(s, steps))
      ensures After(s, steps).consumed == After(s, before).consumed + if fails then {} else {r}
      ensures AtMostOnce(s, before) && r !in After(s, before).consumed ==> AtMostOnce(s, steps)
    {
      ghost var now := After(s, before);
      ghost var h := FreshKey(now.handlers.Keys);
      ghost var more := handler.HandleRow(message, fails, written, now, r, h);
      Compose(s, before, more);
      if AtMostOnce(s, before) && r !in now.consumed {
        ComposeOnce(s, before, more);
      }
      steps := before + more;
    }
  }

  lemma SeenNext(rows: seq<nat>, lost: seq<bool>, n: nat)
    requires n < |rows| == |lost|
    ensures Seen(rows, lost, n + 1) == Seen(rows, lost, n) + if lost[n] then {} else {rows[n]}
  {
  }
}

/** The outbox table and its relay: batches of up to a hundred unsent rows, oldest first, a send and a mark per row,
    rows that fail are skipped and tried again, and the relay may die at any point. */
module Relay {
  import opened Events
  import P = SagaProtocol

  const BATCH := 100

  datatype OutboxRow = OutboxRow(createdAt: nat, event: Event, sent: bool)

  datatype Message = Message(topic: Topic, key: OrderNo, payload: Event)

  function MessageOf(row: OutboxRow): Message {
    Message(TopicOf(row.event), row.event.order, row.event)
  }

  /** A message in the broker's log, with the index of the row it was sent for. */
  datatype Entry = Entry(row: nat, message: Message)

  /** What becomes of one row of a batch: the send fails, the mark fails after the send, or both succeed. */
  datatype Fate = SendFails | MarkFails | Marked

  /** `unmarked` counts, per row, the sends that were not followed by a mark; `batch` is what is left of the batch
      the relay has loaded. */
  datatype State = State(rows: seq<OutboxRow>, log: seq<Entry>, unmarked: seq<nat>, batch: seq<nat>)

  const EMPTY := State([], [], [], [])

  /** What the query may return: the unsent rows in order of their creation times, up to the limit. Rows of the same
      time may come in any order. */
  ghost predicate IsOldest(rows: seq<OutboxRow>, batch: seq<nat>) {
    && Ordered(rows, batch) && |batch| <= BATCH
    && (forall r | 0 <= r < |rows| && !rows[r].sent && r !in batch ::
          |batch| == BATCH && NoneLater(rows, batch, rows[r].createdAt))
  }

  /** Different unsent rows in order of their creation times. */
  ghost predicate Ordered(rows: seq<OutboxRow>, batch: seq<nat>) {
    && (forall i | 0 <= i < |batch| :: batch[i] < |rows| && !rows[batch[i]].sent)
    && (forall i, j | 0 <= i < j < |batch| && batch[j] < |rows| ::
          batch[i] != batch[j] && (batch[i] < |rows| ==> rows[batch[i]].createdAt <= rows[batch[j]].createdAt))
  }

  ghost predicate NoneLater(rows: seq<OutboxRow>, batch: seq<nat>, time: nat) {
    forall i | 0 <= i < |batch| && batch[i] < |rows| :: rows[batch[i]].createdAt <= time
  }

  datatype Step =
    | WriteEvent(event: Event, now: nat)
    | Load(batch: seq<nat>)
    | Process(fate: Fate)
    | Crash

  ghost predicate Enabled(s: State, step: Step) {
    match step
    case WriteEvent(_, _) => true
    case Load(batch) => s.batch == [] && IsOldest(s.rows, batch)
    case Process(_) => s.batch != [] && s.batch[0] < |s.rows| && |s.unmarked| == |s.rows|
    case Crash => true
  }

  ghost function Apply(s: State, step: Step): State
    requires Enabled(s, step)
  {
    match step
    case WriteEvent(e, now) => s.(rows := s.rows + [OutboxRow(now, e, false)], unmarked := s.unmarked + [0])
    case Load(batch) => s.(batch := batch)
    case Process(fate) => ProcessRow(s, s.batch[0], fate).(batch := s.batch[1..])
    case Crash => s.(batch := [])
  }

  /** Send, then mark; a failed send skips the row. */
  function ProcessRow(s: State, r: nat, fate: Fate): State
    requires r < |s.rows| && |s.unmarked| == |s.rows|
  {
    match fate
    case SendFails => s
    case MarkFails =>
      s.(log := s.log + [Entry(r, MessageOf(s.rows[r]))], unmarked := s.unmarked[r := s.unmarked[r] + 1])
    case Marked =>
      s.(log := s.log + [Entry(r, MessageOf(s.rows[r]))], rows := s.rows[r := s.rows[r].(sent := true)])
  }

  ghost predicate Runs(s: State, steps: seq<Step>)
    decreases |steps|, 0
  {
    steps == [] || (Runs(s, Front(steps)) && Enabled(After(s, Front(steps)), Last(steps)))
  }

  ghost function After(s: State, steps: seq<Step>): State
    requires Runs(s, steps)
    decreases |steps|, 1
  {
    if steps == [] then s else Apply(After(s, Front(steps)), Last(steps))
  }

  function Front(steps: seq<Step>): seq<Step>
    requires steps != []
  {
    steps[..|steps| - 1]
  }

  function Last(steps: seq<Step>): Step
    requires steps != []
  {
    steps[|steps| - 1]
  }

  lemma Extend(s: State, steps: seq<Step>, step: Step)
    requires Runs(s, steps) && Enabled(After(s, steps), step)
    ensures Runs(s, steps + [step]) && After(s, steps + [step]) == Apply(After(s, steps), step)
  {
    assert Front(steps + [step]) == steps;
  }

  lemma LastStep(s: State, steps: seq<Step>)
    requires Runs(s, steps) && steps != []
    ensures Runs(s, Front(steps)) && Enabled(After(s, Front(steps)), Last(steps))
    ensures After(s, steps) == Apply(After(s, Front(steps)), Last(steps))
  {
  }

  // ---------------------------------------------------------------- at least once

  function Copies(log: seq<Entry>, r: nat): nat {
    if log == [] then 0
    else Copies(log[..|log| - 1], r) + (if log[|log| - 1].row == r then 1 else 0)
  }

  lemma CopiesPush(log: seq<Entry>, e: Entry, r: nat)
    ensures Copies(log + [e], r) == Copies(log, r) + (if e.row == r then 1 else 0)
  {
    assert (log + [e])[..|log|] == log;
  }

  /** Rows of the loaded batch are distinct and unsent; the log repeats rows faithfully; and a row's copies are
      its unmarked sends plus one if it is marked. */
  ghost predicate Inv(s: State) {
    && |s.unmarked| == |s.rows|
    && (forall i | 0 <= i < |s.batch| :: s.batch[i] < |s.rows| && !s.rows[s.batch[i]].sent)
    && (forall i, j | 0 <= i < j < |s.batch| :: s.batch[i] != s.batch[j])
    && Logged(s)
  }

  ghost predicate Logged(s: State) {
    && |s.unmarked| == |s.rows|
    && (forall i | 0 <= i < |s.log| :: s.log[i].row < |s.rows| && s.log[i].message == MessageOf(s.rows[s.log[i].row]))
    && (forall r | 0 <= r < |s.rows| :: Copies(s.log, r) == s.unmarked[r] + (if s.rows[r].sent then 1 else 0))
  }

  lemma {:induction false} NoCopiesBeyond(log: seq<Entry>, n: nat)
    requires forall i | 0 <= i < |log| :: log[i].row < n
    ensures Copies(log, n) == 0
    decreases |log|
  {
    if log != [] {
      NoCopiesBeyond(log[..|log| - 1], n);
    }
  }

  lemma StepKeeps(s: State, step: Step)
    requires Inv(s) && Enabled(s, step)
    ensures Inv(Apply(s, step))
  {
    match step
    case WriteEvent(_, _) => NoCopiesBeyond(s.log, |s.rows|);
    case Load(batch) =>
    case Process(fate) => ProcessKeepsLogged(s, fate);
    case Crash =>
  }

  lemma ProcessKeepsLogged(s: State, fate: Fate)
    requires Inv(s) && Enabled(s, Process(fate))
    ensures Logged(Apply(s, Process(fate)))
  {
    var r, s' := s.batch[0], Apply(s, Process(fate));
    if !fate.SendFails? {
      forall q | 0 <= q < |s'.rows|
        ensures Copies(s'.log, q) == s'.unmarked[q] + (if s'.rows[q].sent then 1 else 0)
      {
        CopiesPush(s.log, Entry(r, MessageOf(s.rows[r])), q);
      }
    }
  }

  lemma {:induction false} RunKeeps(s: State, steps: seq<Step>)
    requires Inv(s) && Runs(s, steps)
    ensures Inv(After(s, steps))
    decreases |steps|
  {
    if steps != [] {
      RunKeeps(s, Front(steps));
      StepKeeps(After(s, Front(steps)), Last(steps));
    }
  }

  ghost predicate Reachable(s: State) {
    exists steps :: Runs(EMPTY, steps) && s == After(EMPTY, steps)
  }

  /** The topic of the service that writes events of the kind. */
  predicate OnOwnTopic(m: Message) {
    match m.payload
    case OrderCreated(_, _, _, _, _) | PaymentRequested(_, _, _) => m.topic.OrderEvents?
    case OrderCompleted(_, _, _) | OrderCancelled(_, _, _, _) => m.topic.OrderEvents?
    case StockDeducted(_, _, _) | StockDeductFailed(_, _) => m.topic.InventoryEvents?
    case PaymentSucceeded(_, _) | PaymentFailed(_, _) => m.topic.PaymentEvents?
  }

  /** The order service reads what inventory and payment write, and they read what the order service writes. */
  predicate Reads(service: P.Service, topic: Topic) {
    match service
    case OrderService => topic.InventoryEvents? || topic.PaymentEvents?
    case InventoryService => topic.OrderEvents?
    case PaymentService => topic.OrderEvents?
  }

  /** The entry is a copy of its row, under the row's order number, in the topic of its writer, where the one service
      that acts on it reads it. */
  predicate Delivers(rows: seq<OutboxRow>, entry: Entry) {
    && entry.row < |rows| && entry.message.payload == rows[entry.row].event
    && entry.message.key == rows[entry.row].event.order
    && OnOwnTopic(entry.message) && Reads(P.TopicConsumer(entry.message.payload), entry.message.topic)
  }

  lemma MessagesDeliver(rows: seq<OutboxRow>, r: nat)
    requires r < |rows|
    ensures Delivers(rows, Entry(r, MessageOf(rows[r])))
  {
  }

  /** At least once, through any crashes: a row marked sent is in the log; every log entry is a copy of its row, in the
      topic where the service that acts on it reads; and a row has been sent as often as its unmarked sends say, plus
      once if marked. */
  lemma AtLeastOnce(s: State)
    requires Reachable(s)
    ensures |s.unmarked| == |s.rows|
    ensures forall r | 0 <= r < |s.rows| && s.rows[r].sent :: exists i :: 0 <= i < |s.log| && s.log[i].row == r
    ensures forall i | 0 <= i < |s.log| :: Delivers(s.rows, s.log[i])
    ensures forall r | 0 <= r < |s.rows| :: Copies(s.log, r) == s.unmarked[r] + (if s.rows[r].sent then 1 else 0)
  {
    var steps :| Runs(EMPTY, steps) && s == After(EMPTY, steps);
    RunKeeps(EMPTY, steps);
    forall r | 0 <= r < |s.rows| && s.rows[r].sent ensures exists i :: 0 <= i < |s.log| && s.log[i].row == r {
      CopyIsThere(s.log, r);
    }
    forall i | 0 <= i < |s.log| ensures Delivers(s.rows, s.log[i]) {
      MessagesDeliver(s.rows, s.log[i].row);
      assert s.log[i] == Entry(s.log[i].row, MessageOf(s.rows[s.log[i].row]));
    }
  }

  lemma {:induction false} CopyIsThere(log: seq<Entry>, r: nat)
    requires Copies(log, r) > 0
    ensures exists i :: 0 <= i < |log| && log[i].row == r
    decreases |log|
  {
    if log[|log| - 1].row != r {
      CopyIsThere(log[..|log| - 1], r);
    }
  }

  /** A row is never dropped or altered except for its mark, the log only grows, and marks are never taken back. */
  ghost predicate Grows(s: State, s': State) {
    && |s'.rows| >= |s.rows| && s.log <= s'.log
    && forall r | 0 <= r < |s.rows| ::
         s'.rows[r] == s.rows[r].(sent := s'.rows[r].sent) && (s.rows[r].sent ==> s'.rows[r].sent)
  }

  lemma {:induction false} NothingIsLost(s: State, steps: seq<Step>)
    requires Runs(s, steps)
    ensures Grows(s, After(s, steps))
    decreases |steps|
  {
    if steps != [] {
      NothingIsLost(s, Front(steps));
      StepGrows(After(s, Front(steps)), Last(steps));
    }
  }

  lemma StepGrows(s: State, step: Step)
    requires Enabled(s, step)
    ensures Grows(s, Apply(s, step))
  {
  }

  // ---------------------------------------------------------------- bounded waiting

  /** Deliverable unsent rows that may be loaded before row r: those not created later. */
  ghost function Ahead(rows: seq<OutboxRow>, failing: set<nat>, r: nat): set<nat>
    requires r < |rows|
  {
    set i | 0 <= i < |rows| && i != r && !rows[i].sent && i !in failing && rows[i].createdAt <= rows[r].createdAt
  }

  ghost function Elements(batch: seq<nat>): set<nat> {
    set x | x in batch
  }

  lemma {:induction false} ElementsOfDistinct(batch: seq<nat>)
    requires forall i, j | 0 <= i < j < |batch| :: batch[i] != batch[j]
    ensures |Elements(batch)| == |batch|
    decreases |batch|
  {
    if batch != [] {
      var rest, last := batch[..|batch| - 1], batch[|batch| - 1];
      ElementsOfDistinct(rest);
      assert batch == rest + [last];
      assert Elements(batch) == Elements(rest) + {last};
      assert last !in rest;
    }
  }

  lemma SubsetSize(a: set<nat>, b: set<nat>)
    requires a <= b
    ensures |a| <= |b|
  {
    assert b == a + (b - a);
  }

  lemma DifferenceSize(a: set<nat>, b: set<nat>)
    ensures |a - b| >= |a| - |b|
  {
    assert a == (a - b) + (a * b);
    SubsetSize(a * b, b);
  }

  /** A batch holds a deliverable unsent row, or at least BATCH - |failing| deliverable rows that were ahead of it. */
  lemma BatchProgress(rows: seq<OutboxRow>, batch: seq<nat>, failing: set<nat>, r: nat)
    requires IsOldest(rows, batch) && r < |rows| && !rows[r].sent && r !in batch
    ensures |Ahead(rows, failing, r) - Elements(batch)| + (100 - |failing|) <= |Ahead(rows, failing, r)|
  {
    var ahead, published := Ahead(rows, failing, r), Elements(batch) - failing;
    assert |batch| == BATCH && NoneLater(rows, batch, rows[r].createdAt);
    ElementsOfDistinct(batch);
    DifferenceSize(Elements(batch), failing);
    assert published <= ahead;
    assert ahead - Elements(batch) == ahead - published;
    assert ahead == (ahead - published) + published;
  }

  /** The relay works steadily as far as row r is concerned: it does not die, every row outside `failing` is sent and
      marked when its turn comes, and rows written from now on are created later than r. */
  ghost predicate Steady(s: State, step: Step, failing: set<nat>, r: nat)
    requires r < |s.rows|
  {
    match step
    case WriteEvent(_, now) => now > s.rows[r].createdAt
    case Load(_) => true
    case Process(fate) => s.batch != [] && (s.batch[0] !in failing ==> fate == Marked)
    case Crash => false
  }

  ghost predicate SteadyRun(s: State, steps: seq<Step>, failing: set<nat>, r: nat)
    requires Runs(s, steps)
    decreases |steps|
  {
    steps == [] ||
    (SteadyRun(s, Front(steps), failing, r)
     && r < |After(s, Front(steps)).rows| && Steady(After(s, Front(steps)), Last(steps), failing, r))
  }

  /** How many batches the run loads. */
  function Loads(steps: seq<Step>): nat {
    if steps == [] then 0 else Loads(Front(steps)) + (if Last(steps).Load? then 1 else 0)
  }

  /** d, so many times. */
  function Times(n: nat, d: nat): nat {
    if n == 0 then 0 else Times(n - 1, d) + d
  }

  lemma {:induction false} TimesIsProduct(n: nat, d: nat)
    ensures Times(n, d) == n * d
  {
    if n > 0 {
      TimesIsProduct(n - 1, d);
    }
  }

  /** Row r is sent, or in the batch being worked off, or each batch so far took d of the k rows ahead of it. */
  ghost predicate Nearer(s: State, failing: set<nat>, r: nat, loads: nat, k: nat, d: nat) {
    && r < |s.rows|
    && (s.rows[r].sent || r in s.batch || Times(loads, d) + |Ahead(s.rows, failing, r) - Elements(s.batch)| <= k)
  }

  lemma WriteKeepsNearer(s: State, e: Event, now: nat, failing: set<nat>, r: nat)
    requires r < |s.rows| && now > s.rows[r].createdAt
    ensures Ahead(Apply(s, Step.WriteEvent(e, now)).rows, failing, r) == Ahead(s.rows, failing, r)
  {
  }

  lemma LoadGetsNearer(s: State, batch: seq<nat>, failing: set<nat>, r: nat, loads: nat, k: nat, d: nat)
    requires Enabled(s, Load(batch)) && Nearer(s, failing, r, loads, k, d) && d + |failing| == BATCH
    ensures Nearer(Apply(s, Load(batch)), failing, r, loads + 1, k, d)
  {
    if !s.rows[r].sent && r !in batch {
      BatchProgress(s.rows, batch, failing, r);
      assert Ahead(s.rows, failing, r) - Elements(s.batch) == Ahead(s.rows, failing, r);
    }
  }

  lemma ProcessKeepsNearer(s: State, fate: Fate, failing: set<nat>, r: nat, loads: nat, k: nat, d: nat)
    requires Inv(s) && Enabled(s, Process(fate)) && Nearer(s, failing, r, loads, k, d) && r !in failing
    requires Steady(s, Process(fate), failing, r)
    ensures Nearer(Apply(s, Process(fate)), failing, r, loads, k, d)
  {
    var s', x := Apply(s, Process(fate)), s.batch[0];
    assert s.batch == [x] + s'.batch;
    if !s'.rows[r].sent && r !in s'.batch {
      assert Ahead(s'.rows, failing, r) - Elements(s'.batch) <= Ahead(s.rows, failing, r) - Elements(s.batch);
      SubsetSize(Ahead(s'.rows, failing, r) - Elements(s'.batch), Ahead(s.rows, failing, r) - Elements(s.batch));
    }
  }

  lemma StepGetsNearer(s: State, step: Step, failing: set<nat>, r: nat, loads: nat, k: nat, d: nat)
    requires Inv(s) && Enabled(s, step) && Nearer(s, failing, r, loads, k, d) && r !in failing && d + |failing| == BATCH
    requires Steady(s, step, failing, r)
    ensures Nearer(Apply(s, step), failing, r, loads + (if step.Load? then 1 else 0), k, d)
  {
    match step
    case WriteEvent(e, now) => WriteKeepsNearer(s, e, now, failing, r);
    case Load(batch) => LoadGetsNearer(s, batch, failing, r, loads, k, d);
    case Process(fate) => ProcessKeepsNearer(s, fate, failing, r, loads, k, d);
  }

  lemma {:induction false} RunGetsNearer(s: State, steps: seq<Step>, failing: set<nat>, r: nat, k: nat, d: nat)
    requires Inv(s) && Nearer(s, failing, r, 0, k, d) && r !in failing && d + |failing| == BATCH
    requires Runs(s, steps) && SteadyRun(s, steps, failing, r)
    ensures Nearer(After(s, steps), failing, r, Loads(steps), k, d)
    decreases |steps|
  {
    if steps != [] {
      LastStep(s, steps);
      LastSteady(s, steps, failing, r);
      RunGetsNearer(s, Front(steps), failing, r, k, d);
      RunKeeps(s, Front(steps));
      StepGetsNearer(After(s, Front(steps)), Last(steps), failing, r, Loads(Front(steps)), k, d);
    }
  }

  lemma LastSteady(s: State, steps: seq<Step>, failing: set<nat>, r: nat)
    requires Runs(s, steps) && SteadyRun(s, steps, failing, r) && steps != []
    ensures SteadyRun(s, Front(steps), failing, r) && r < |After(s, Front(steps)).rows|
    ensures Steady(After(s, Front(steps)), Last(steps), failing, r)
  {
  }

  /** Bounded waiting: if at most |failing| < 100 rows keep failing, whichever way, and all others are sent and marked
      when their turn comes, a deliverable row with k deliverable rows ahead of it is sent within
      k / (100 - |failing|) + 1 batches, however many newer rows are written before, between and during them. */
  lemma BoundedWaiting(s: State, steps: seq<Step>, failing: set<nat>, r: nat)
    requires Inv(s) && s.batch == [] && r < |s.rows| && r !in failing && |failing| < 100
    requires Runs(s, steps) && SteadyRun(s, steps, failing, r) && After(s, steps).batch == []
    requires Loads(steps) >= |Ahead(s.rows, failing, r)| / (100 - |failing|) + 1
    ensures r < |After(s, steps).rows| && After(s, steps).rows[r].sent
  {
    var k, d := |Ahead(s.rows, failing, r)|, BATCH - |failing|;
    assert Ahead(s.rows, failing, r) - Elements(s.batch) == Ahead(s.rows, failing, r);
    RunGetsNearer(s, steps, failing, r, k, d);
    EnoughBatches(k, d, Loads(steps));
    TimesIsProduct(Loads(steps), d);
  }

  lemma EnoughBatches(k: nat, d: nat, loads: nat)
    requires d > 0 && loads >= k / d + 1
    ensures loads * d > k
  {
    assert (k / d + 1) * d == k / d * d + d;
    TimesMonotone(k / d + 1, loads, d);
  }

  lemma TimesMonotone(a: nat, b: nat, d: nat)
    requires a <= b
    ensures a * d <= b * d
  {
  }

  // ---------------------------------------------------------------- the relay itself

  /** An oldest unsent row outside the batch. */
  ghost predicate IsNext(rows: seq<OutboxRow>, batch: seq<nat>, r: nat) {
    && r < |rows| && !rows[r].sent && r !in batch
    && forall q | 0 <= q < |rows| && !rows[q].sent && q !in batch :: rows[r].createdAt <= rows[q].createdAt
  }

  /** Nothing outside the batch is older than anything in it. */
  ghost predicate OldestFirst(rows: seq<OutboxRow>, batch: seq<nat>) {
    forall r | 0 <= r < |rows| && !rows[r].sent && r !in batch :: NoneLater(rows, batch, rows[r].createdAt)
  }

  lemma OrderedPush(rows: seq<OutboxRow>, batch: seq<nat>, r: nat)
    requires Ordered(rows, batch) && OldestFirst(rows, batch) && IsNext(rows, batch, r)
    ensures Ordered(rows, batch + [r]) && OldestFirst(rows, batch + [r])
  {
    assert NoneLater(rows, batch, rows[r].createdAt);
  }

  class OutboxRelay {
    var rows: seq<OutboxRow>
    var log: seq<Entry>
    ghost var unmarked: seq<nat>

    ghost function Contents(): State
      reads this
    {
      State(rows, log, unmarked, [])
    }

    constructor ()
      ensures Contents() == EMPTY
    {
      rows, log, unmarked := [], [], [];
    }

    /** WriteEvent: a new unsent row, stamped with the time of its creation. */
    method WriteEvent(e: Event, now: nat)
      requires Inv(Contents())
      modifies this
      ensures Contents() == Apply(old(Contents()), Step.WriteEvent(e, now)) && Inv(Contents())
      ensures rows == old(rows) + [OutboxRow(now, e, false)] && log == old(log)
    {
      StepKeeps(Contents(), Step.WriteEvent(e, now));
      rows := rows + [OutboxRow(now, e, false)];
      unmarked := unmarked + [0];
    }

    /** SELECT ... WHERE NOT sent ORDER BY created_at LIMIT 100 */
    method Query() returns (batch: seq<nat>)
      ensures IsOldest(rows, batch)
    {
      batch := [];
      var next := Oldest(batch);
      while |batch| < BATCH && next.Some?
        invariant Ordered(rows, batch) && OldestFirst(rows, batch) && |batch| <= BATCH
        invariant next.Some? ==> IsNext(rows, batch, next.value)
        invariant next.None? ==> forall r | 0 <= r < |rows| && !rows[r].sent :: r in batch
        decreases BATCH - |batch|
      {
        OrderedPush(rows, batch, next.value);
        batch := batch + [next.value];
        next := Oldest(batch);
      }
    }

    method Oldest(batch: seq<nat>) returns (next: Option<nat>)
      ensures next.Some? ==> IsNext(rows, batch, next.value)
      ensures next.None? ==> forall r | 0 <= r < |rows| && !rows[r].sent :: r in batch
    {
      next := None;
      var i := 0;
      while i < |rows|
        invariant 0 <= i <= |rows|
        invariant next.None? ==> forall q | 0 <= q < i && !rows[q].sent :: q in batch
        invariant next.Some? ==>
                    && next.value < i && !rows[next.value].sent && next.value !in batch
                    && forall q | 0 <= q < i && !rows[q].sent && q !in batch ::
                         rows[next.value].createdAt <= rows[q].createdAt
      {
        if !rows[i].sent && i !in batch && (next.None? || rows[i].createdAt < rows[next.value].createdAt) {
          next := Some(i);
        }
        i := i + 1;
      }
    }

    /** One send and one mark; a failed send skips the row. */
    method PublishRow(r: nat, fate: Fate)
      requires r < |rows| && |unmarked| == |rows|
      modifies this
      ensures Contents() == ProcessRow(old(Contents()), r, fate)
    {
      if fate != SendFails {
        log := log + [Entry(r, MessageOf(rows[r]))];
        if fate == Marked {
          rows := rows[r := rows[r].(sent := true)];
        } else {
          unmarked := unmarked[r := unmarked[r] + 1];
        }
      }
    }

    /** One tick: a run of the step machine that loads the oldest rows and processes them one by one, with the given
        fates. If there are fewer fates than rows, the relay dies there. A failed query does nothing. */
    method PublishBatch(queryFails: bool, fates: seq<Fate>) returns (batch: seq<nat>, ghost steps: seq<Step>)
      requires Inv(Contents())
      modifies this
      ensures Inv(Contents())
      ensures queryFails ==> Contents() == old(Contents())
      ensures !queryFails ==>
                && steps == TickSteps(batch, fates) && Runs(old(Contents()), steps)
                && Contents() == After(old(Contents()), steps)
                && TickDone(old(Contents()), batch, fates, Contents())
    {
      batch, steps := [], [];
      if queryFails {
        return;
      }
      ghost var before := Contents();
      batch := Query();
      steps := ToLoad(before, batch);
      steps := PublishLoaded(batch, fates, before, steps);
      TickIsDone(before, batch, fates);
    }

    /** The next row of the loaded batch. */
    method PublishNext(left: seq<nat>, fate: Fate, ghost before: State, ghost steps: seq<Step>)
      returns (ghost longer: seq<Step>)
      requires left != [] && Reached(before, steps, State(rows, log, unmarked, left))
      modifies this
      ensures longer == steps + [Process(fate)]
      ensures Reached(before, longer, State(rows, log, unmarked, left[1..]))
    {
      longer := ToProcess(before, steps, State(rows, log, unmarked, left), fate);
      PublishRow(left[0], fate);
    }

    method PublishLoaded(batch: seq<nat>, fates: seq<Fate>, ghost before: State, ghost loaded: seq<Step>)
      returns (ghost steps: seq<Step>)
      requires loaded == [Load(batch)] && Reached(before, loaded, State(rows, log, unmarked, batch))
      modifies this
      ensures steps == TickSteps(batch, fates) && Reached(before, steps, Contents())
    {
      steps := loaded;
      var i := 0;
      while i < |batch| && i < |fates|
        invariant 0 <= i <= |batch| && i <= |fates|
        invariant steps == loaded + Processes(fates, i)
        invariant Reached(before, steps, State(rows, log, unmarked, batch[i..]))
      {
        steps := PublishNext(batch[i..], fates[i], before, steps);
        ProcessesNext(loaded, fates, i);
        assert batch[i..][1..] == batch[i + 1..];
        i := i + 1;
      }
      if i < |batch| {
        steps := ToCrash(before, steps, State(rows, log, unmarked, batch[i..]));
      } else {
        assert batch[i..] == [];
      }
    }
  }

  /** The steps lead from one state to another, which keeps the invariant. */
  ghost predicate Reached(before: State, steps: seq<Step>, s: State) {
    Runs(before, steps) && After(before, steps) == s && Inv(s)
  }

  lemma ToProcess(before: State, steps: seq<Step>, s: State, fate: Fate) returns (longer: seq<Step>)
    requires Reached(before, steps, s) && s.batch != []
    ensures longer == steps + [Process(fate)]
    ensures s.batch[0] < |s.rows| && |s.unmarked| == |s.rows|
    ensures Reached(before, longer, ProcessRow(s, s.batch[0], fate).(batch := s.batch[1..]))
  {
    longer := steps + [Process(fate)];
    StepKeeps(s, Process(fate));
    Extend(before, steps, Process(fate));
  }

  lemma ToCrash(before: State, steps: seq<Step>, s: State) returns (longer: seq<Step>)
    requires Reached(before, steps, s)
    ensures longer == steps + [Crash] && Reached(before, longer, s.(batch := []))
  {
    longer := steps + [Crash];
    StepKeeps(s, Crash);
    Extend(before, steps, Crash);
  }

  lemma ToLoad(s: State, batch: seq<nat>) returns (steps: seq<Step>)
    requires Inv(s) && s.batch == [] && IsOldest(s.rows, batch)
    ensures steps == [Load(batch)] && Reached(s, steps, s.(batch := batch))
  {
    var none: seq<Step> := [];
    assert Runs(s, none) && After(s, none) == s;
    Extend(s, none, Load(batch));
    StepKeeps(s, Load(batch));
    steps := none + [Load(batch)];
  }

  // ---------------------------------------------------------------- what one tick sends

  /** A copy of every row of the first n in the batch whose send succeeded, in the order of the batch. */
  ghost function Sent(rows: seq<OutboxRow>, batch: seq<nat>, fates: seq<Fate>, n: nat): seq<Entry>
    requires n <= |batch| && n <= |fates| && forall i | 0 <= i < n :: batch[i] < |rows|
  {
    if n == 0 then []
    else
      var e := rows[batch[n - 1]].event;
      Sent(rows, batch, fates, n - 1)
      + (if fates[n - 1].SendFails? then [] else [Entry(batch[n - 1], Message(TopicOf(e), e.order, e))])
  }

  /** Exactly the rows of the first n in the batch whose send and mark succeeded are newly marked. */
  ghost predicate MarksOnly(rows: seq<OutboxRow>, batch: seq<nat>, fates: seq<Fate>, n: nat, rows': seq<OutboxRow>)
    requires n <= |batch| && n <= |fates|
  {
    && |rows'| == |rows|
    && forall r | 0 <= r < |rows| ::
         rows'[r] == rows[r].(sent := rows[r].sent || MarkedIn(batch, fates, n, r))
  }

  ghost predicate MarkedIn(batch: seq<nat>, fates: seq<Fate>, n: nat, r: nat)
    requires n <= |batch| && n <= |fates|
  {
    exists i :: 0 <= i < n && batch[i] == r && fates[i].Marked?
  }

  /** The first n rows of the batch that s had have been processed. */
  ghost predicate SentSoFar(s: State, batch: seq<nat>, fates: seq<Fate>, n: nat, s': State)
    requires n <= |batch| && n <= |fates| && forall i | 0 <= i < |batch| :: batch[i] < |s.rows|
  {
    && s'.log == s.log + Sent(s.rows, batch, fates, n) && s'.batch == batch[n..]
    && MarksOnly(s.rows, batch, fates, n, s'.rows) && |s'.unmarked| == |s.rows|
  }

  lemma RowSends(s: State, s1: State, batch: seq<nat>, fates: seq<Fate>, n: nat)
    requires 1 <= n <= |batch| && n <= |fates| && forall i | 0 <= i < |batch| :: batch[i] < |s.rows|
    requires SentSoFar(s, batch, fates, n - 1, s1)
    ensures Enabled(s1, Process(fates[n - 1]))
    ensures SentSoFar(s, batch, fates, n, Apply(s1, Process(fates[n - 1])))
  {
    var s2, x := Apply(s1, Process(fates[n - 1])), batch[n - 1];
    assert s1.rows[x].event == s.rows[x].event;
    assert s1.batch[0] == x && s1.batch[1..] == batch[n..];
    forall r | 0 <= r < |s.rows|
      ensures MarkedIn(batch, fates, n, r)
              <==> MarkedIn(batch, fates, n - 1, r) || (x == r && fates[n - 1].Marked?)
    {
      if x == r && fates[n - 1].Marked? {
        assert batch[n - 1] == r;
      }
    }
  }

  /** The steps lead to a state in which the first n rows of the batch have been processed. */
  ghost predicate LeadsSoFar(s: State, batch: seq<nat>, fates: seq<Fate>, n: nat, steps: seq<Step>)
    requires n <= |batch| && n <= |fates| && forall i | 0 <= i < |batch| :: batch[i] < |s.rows|
  {
    Runs(s, steps) && SentSoFar(s, batch, fates, n, After(s, steps))
  }

  lemma LoadLeads(s: State, batch: seq<nat>, fates: seq<Fate>)
    requires Inv(s) && s.batch == [] && IsOldest(s.rows, batch)
    ensures LeadsSoFar(s, batch, fates, 0, [Load(batch)])
  {
    var loaded := ToLoad(s, batch);
  }

  lemma RowLeads(s: State, batch: seq<nat>, fates: seq<Fate>, n: nat, steps: seq<Step>)
    requires 1 <= n <= |batch| && n <= |fates| && forall i | 0 <= i < |batch| :: batch[i] < |s.rows|
    requires LeadsSoFar(s, batch, fates, n - 1, steps)
    ensures LeadsSoFar(s, batch, fates, n, steps + [Process(fates[n - 1])])
  {
    RowSends(s, After(s, steps), batch, fates, n);
    Extend(s, steps, Process(fates[n - 1]));
  }

  lemma {:induction false} TickSends(s: State, batch: seq<nat>, fates: seq<Fate>, n: nat)
    requires Inv(s) && s.batch == [] && IsOldest(s.rows, batch) && n <= |batch| && n <= |fates|
    ensures LeadsSoFar(s, batch, fates, n, [Load(batch)] + Processes(fates, n))
    decreases n
  {
    if n == 0 {
      LoadLeads(s, batch, fates);
      assert [Load(batch)] + Processes(fates, 0) == [Load(batch)];
    } else {
      TickSends(s, batch, fates, n - 1);
      ProcessesNext([Load(batch)], fates, n - 1);
      RowLeads(s, batch, fates, n, [Load(batch)] + Processes(fates, n - 1));
    }
  }

  /** What a tick leaves: the copies it has sent are at the end of the log, and the rows it has marked are marked. */
  ghost predicate TickDone(s: State, batch: seq<nat>, fates: seq<Fate>, s': State) {
    var n := if |fates| < |batch| then |fates| else |batch|;
    && IsOldest(s.rows, batch) && s'.log == s.log + Sent(s.rows, batch, fates, n)
    && MarksOnly(s.rows, batch, fates, n, s'.rows)
  }

  lemma TickIsDone(s: State, batch: seq<nat>, fates: seq<Fate>)
    requires Inv(s) && s.batch == [] && IsOldest(s.rows, batch) && Runs(s, TickSteps(batch, fates))
    ensures TickDone(s, batch, fates, After(s, TickSteps(batch, fates)))
  {
    var n := if |fates| < |batch| then |fates| else |batch|;
    TickSends(s, batch, fates, n);
    if |fates| < |batch| {
      Extend(s, [Load(batch)] + Processes(fates, n), Crash);
    }
  }

  /** The first n rows of a batch are processed. */
  ghost function Processes(fates: seq<Fate>, n: nat): seq<Step>
    requires n <= |fates|
  {
    if n == 0 then [] else Processes(fates, n - 1) + [Process(fates[n - 1])]
  }

  lemma ProcessesNext(loaded: seq<Step>, fates: seq<Fate>, i: nat)
    requires i < |fates|
    ensures loaded + Processes(fates, i) + [Process(fates[i])] == loaded + Processes(fates, i + 1)
  {
  }

  ghost function TickSteps(batch: seq<nat>, fates: seq<Fate>): seq<Step> {
    if |fates| < |batch| then [Load(batch)] + Processes(fates, |fates|) + [Crash]
    else [Load(batch)] + Processes(fates, |batch|)
  }
}

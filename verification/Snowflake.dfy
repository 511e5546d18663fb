/** Snowflake order numbers: 41 bits of milliseconds, 10 bits of node, 12 bits of sequence. */
module Snowflake {
  import opened Events

  const NODE_BITS := 10
  const SEQUENCE_BITS := 12
  const NODE_MAX := 1023
  const SEQUENCE_MASK := 4095
  const LAST_STAMP := 0x200_0000_0000  // 2^41 milliseconds after the epoch

  /** The source writes these two constants as -1 ^ (-1 << bits). */
  lemma MaskConstants()
    ensures (0xFFFF_FFFF_FFFF_FFFF as bv64) ^ ((0xFFFF_FFFF_FFFF_FFFF as bv64) << NODE_BITS) == NODE_MAX as bv64
    ensures (0xFFFF_FFFF_FFFF_FFFF as bv64) ^ ((0xFFFF_FFFF_FFFF_FFFF as bv64) << SEQUENCE_BITS)
              == SEQUENCE_MASK as bv64
  {
  }

  // ---------------------------------------------------------------- bits of natural numbers

  function Pow2(k: nat): (p: nat)
    ensures p >= 1
  {
    if k == 0 then 1 else 2 * Pow2(k - 1)
  }

  function Shl(x: nat, k: nat): nat {
    x * Pow2(k)
  }

  function Or(x: nat, y: nat): nat
    decreases x + y
  {
    if x == 0 then y else if y == 0 then x
    else 2 * Or(x / 2, y / 2) + (if x % 2 == 1 || y % 2 == 1 then 1 else 0)
  }

  function And(x: nat, y: nat): nat
    decreases x + y
  {
    if x == 0 || y == 0 then 0
    else 2 * And(x / 2, y / 2) + (if x % 2 == 1 && y % 2 == 1 then 1 else 0)
  }

  lemma HalfShifted(hi: nat, k: nat)
    requires k >= 1
    ensures hi * Pow2(k) / 2 == hi * Pow2(k - 1) && hi * Pow2(k) % 2 == 0
  {
    assert hi * Pow2(k) == 2 * (hi * Pow2(k - 1)) by {
      assert Pow2(k) == 2 * Pow2(k - 1);
    }
  }

  /** Or-ing a number into the zero bits of a shifted one adds it. */
  lemma {:induction false} OrIsAdd(hi: nat, lo: nat, k: nat)
    requires lo < Pow2(k)
    ensures Or(Shl(hi, k), lo) == Shl(hi, k) + lo
    decreases k
  {
    if k == 0 {
      assert lo == 0;
      assert Or(hi, 0) == hi;
    } else if Shl(hi, k) != 0 && lo != 0 {
      HalfShifted(hi, k);
      OrIsAdd(hi, lo / 2, k - 1);
    }
  }

  /** Masking with k one-bits keeps the low part of a number. */
  lemma {:induction false} AndKeepsLow(hi: nat, lo: nat, k: nat)
    requires lo < Pow2(k)
    ensures And(Shl(hi, k) + lo, Pow2(k) - 1) == lo
    decreases k
  {
    if k > 0 {
      HalfShifted(hi, k);
      AndKeepsLow(hi, lo / 2, k - 1);
      assert Pow2(k) == 2 * Pow2(k - 1);
    }
  }

  /** A masked counter counts up and wraps to zero. */
  lemma MaskedCounter(n: nat, k: nat)
    requires n < Pow2(k)
    ensures And(n + 1, Pow2(k) - 1) == if n + 1 == Pow2(k) then 0 else n + 1
  {
    if n + 1 == Pow2(k) {
      AndKeepsLow(1, 0, k);
      assert Shl(1, k) + 0 == n + 1;
    } else {
      AndKeepsLow(0, n + 1, k);
    }
  }

  /** (sequence + 1) & 4095 */
  lemma NextSequence(sequence: nat)
    requires sequence <= SEQUENCE_MASK
    ensures And(sequence + 1, SEQUENCE_MASK) == if sequence == SEQUENCE_MASK then 0 else sequence + 1
  {
    Powers();
    MaskedCounter(sequence, 12);
  }

  // ---------------------------------------------------------------- packing

  datatype Stamp = Stamp(timestamp: nat, node: nat, sequence: nat)

  predicate WellFormed(s: Stamp) {
    s.timestamp < LAST_STAMP && s.node <= NODE_MAX && s.sequence <= SEQUENCE_MASK
  }

  /** now << 22 | node << 12 | sequence */
  function Pack(s: Stamp): nat {
    Or(Or(Shl(s.timestamp, NODE_BITS + SEQUENCE_BITS), Shl(s.node, SEQUENCE_BITS)), s.sequence)
  }

  lemma Powers()
    ensures Pow2(10) == 1024 && Pow2(12) == 4096 && Pow2(22) == 4194304
  {
    assert Pow2(5) == 32;
    assert Pow2(10) == 1024;
    assert Pow2(15) == 32768;
    assert Pow2(20) == 1048576;
  }

  /** The packed number is the sum of its fields at their places, fits in 63 bits, and decodes to all three. */
  lemma PackLayout(s: Stamp)
    requires WellFormed(s)
    ensures Pack(s) == s.timestamp * 4194304 + s.node * 4096 + s.sequence
    ensures Pack(s) < 0x8000_0000_0000_0000
    ensures Pack(s) / 4194304 == s.timestamp && Pack(s) / 4096 % 1024 == s.node && Pack(s) % 4096 == s.sequence
  {
    PackIsSum(s);
    FieldsOfSum(s.timestamp, s.node, s.sequence);
  }

  lemma FieldsOfSum(timestamp: nat, node: nat, sequence: nat)
    requires node <= NODE_MAX && sequence <= SEQUENCE_MASK
    ensures var id := timestamp * 4194304 + node * 4096 + sequence;
            id / 4194304 == timestamp && id / 4096 % 1024 == node && id % 4096 == sequence
  {
    var id := timestamp * 4194304 + node * 4096 + sequence;
    assert id / 4096 == timestamp * 1024 + node;
  }

  lemma PackIsSum(s: Stamp)
    requires WellFormed(s)
    ensures Pack(s) == s.timestamp * 4194304 + s.node * 4096 + s.sequence
  {
    Powers();
    assert Shl(s.node, 12) == s.node * 4096;
    OrIsAdd(s.timestamp, s.node * 4096, 22);
    var upper := s.timestamp * 1024 + s.node;
    assert Shl(upper, 12) == s.timestamp * 4194304 + s.node * 4096;
    OrIsAdd(upper, s.sequence, 12);
  }

  /** Different stamps never share an id; in particular two nodes never produce the same id. */
  lemma PackInjective(a: Stamp, b: Stamp)
    requires WellFormed(a) && WellFormed(b) && Pack(a) == Pack(b)
    ensures a == b
  {
    PackLayout(a);
    PackLayout(b);
  }

  // ---------------------------------------------------------------- one call

  /** First reading, from position i on, that is past the timestamp. */
  function FirstPast(clock: seq<nat>, i: nat, timestamp: nat): Option<nat>
    requires i <= |clock|
    decreases |clock| - i
  {
    if i == |clock| then None
    else if clock[i] > timestamp then Some(clock[i]) else FirstPast(clock, i + 1, timestamp)
  }

  /** The stamp a call issues when its clock readings are `clock`; None while it is still waiting. */
  function NextStamp(last: Stamp, clock: seq<nat>): Option<Stamp>
    requires clock != []
  {
    if clock[0] != last.timestamp then Some(Stamp(clock[0], last.node, 0))
    else if last.sequence == SEQUENCE_MASK then
      match FirstPast(clock, 1, last.timestamp)
      case Some(now) => Some(Stamp(now, last.node, 0))
      case None => None
    else Some(Stamp(clock[0], last.node, last.sequence + 1))
  }

  /** The stamp carries one of the readings of the call: the first one, or, if its millisecond has no number left, the
      first one past it. */
  ghost predicate CarriesReading(last: Stamp, clock: seq<nat>, next: Stamp)
    requires clock != []
  {
    var full := clock[0] == last.timestamp && last.sequence == 4095;
    && next.node == last.node
    && next.sequence == (if clock[0] == last.timestamp && !full then last.sequence + 1 else 0)
    && if full then exists i :: FirstPastAt(clock, i, last.timestamp) && next.timestamp == clock[i]
       else next.timestamp == clock[0]
  }

  /** Reading i is the first one past the timestamp. */
  ghost predicate FirstPastAt(clock: seq<nat>, i: int, timestamp: nat) {
    0 <= i < |clock| && clock[i] > timestamp && forall j | 0 <= j < i :: clock[j] <= timestamp
  }

  lemma {:induction false} FirstPastIsFirst(clock: seq<nat>, i: nat, timestamp: nat)
    requires i <= |clock| && FirstPast(clock, i, timestamp).Some? && forall j | 0 <= j < i :: clock[j] <= timestamp
    ensures exists k :: FirstPastAt(clock, k, timestamp) && FirstPast(clock, i, timestamp).value == clock[k]
    decreases |clock| - i
  {
    if clock[i] > timestamp {
      assert FirstPastAt(clock, i, timestamp);
    } else {
      FirstPastIsFirst(clock, i + 1, timestamp);
    }
  }

  /** Ids carry the time at which they were asked for, or, after a wait, the time at which the wait ended. */
  lemma StampCarriesReading(last: Stamp, clock: seq<nat>)
    requires clock != [] && NextStamp(last, clock).Some?
    ensures CarriesReading(last, clock, NextStamp(last, clock).value)
  {
    if clock[0] == last.timestamp && last.sequence == SEQUENCE_MASK {
      FirstPastIsFirst(clock, 1, last.timestamp);
    }
  }

  class Node {
    var timestamp: nat
    const node: nat
    var sequence: nat

    ghost predicate Valid()
      reads this
    {
      node <= NODE_MAX && sequence <= SEQUENCE_MASK
    }

    function Last(): Stamp
      reads this
    {
      Stamp(timestamp, node, sequence)
    }

    constructor (node: nat)
      requires node <= NODE_MAX
      ensures Valid() && Last() == Stamp(0, node, 0)
    {
      this.node := node;
      timestamp, sequence := 0, 0;
    }

    /** Generate under a mutex, reading the given clock values one after the other. The call returns
        unless it waits for the next millisecond and no reading ever passes the stored one. */
    method Generate(clock: seq<nat>) returns (id: Option<nat>)
      requires Valid() && clock != []
      modifies this
      ensures Valid()
      ensures id.None? <==> NextStamp(old(Last()), clock).None?
      ensures id.Some? ==> Some(Last()) == NextStamp(old(Last()), clock) && id.value == Pack(Last())
      ensures id.Some? ==> CarriesReading(old(Last()), clock, Last())
      ensures id.None? <==>
                && clock[0] == old(timestamp) && old(sequence) == 4095
                && forall i | 0 <= i < |clock| :: clock[i] <= old(timestamp)
    {
      var now := clock[0];
      if now == timestamp {
        NextSequence(sequence);
        sequence := And(sequence + 1, SEQUENCE_MASK);
        if sequence == 0 {
          var i := 1;
          while now <= timestamp && i < |clock|
            invariant 1 <= i <= |clock|
            invariant now > timestamp ==> FirstPast(clock, 1, timestamp) == Some(now)
            invariant now <= timestamp ==> FirstPast(clock, 1, timestamp) == FirstPast(clock, i, timestamp)
            invariant now <= timestamp ==> forall j | 0 <= j < i :: clock[j] <= timestamp
            decreases |clock| - i
          {
            now := clock[i];
            i := i + 1;
          }
          if now <= timestamp {
            return None;
          }
          FirstPastIsPast(clock, 1, timestamp);
        }
      } else {
        sequence := 0;
      }
      timestamp := now;
      id := Some(Pack(Stamp(now, node, sequence)));
      StampCarriesReading(old(Last()), clock);
    }
  }

  /** NewNode: node numbers outside 0..1023 are refused. */
  method NewNode(node: int) returns (n: Node?)
    ensures n != null <==> 0 <= node <= NODE_MAX
    ensures n != null ==> fresh(n) && n.Valid() && n.Last() == Stamp(0, node, 0)
  {
    if node < 0 || node > NODE_MAX {
      return null;
    }
    n := new Node(node);
  }

  /** Exactly when does a call issue a larger id than the one before? When its first reading is not behind the
      stored timestamp: the code does not notice a clock that runs backwards. */
  lemma LargerIdExactlyIfClockNotBehind(last: Stamp, clock: seq<nat>)
    requires clock != [] && WellFormed(last) && NextStamp(last, clock).Some?
    requires forall t | t in clock :: t < LAST_STAMP
    ensures WellFormed(NextStamp(last, clock).value)
    ensures Pack(NextStamp(last, clock).value) > Pack(last) <==> clock[0] >= last.timestamp
  {
    var next := NextStamp(last, clock).value;
    if clock[0] == last.timestamp && last.sequence == SEQUENCE_MASK {
      FirstPastIsPast(clock, 1, last.timestamp);
    }
    assert clock[0] in clock;
    PackLayout(last);
    PackLayout(next);
  }

  lemma {:induction false} FirstPastIsPast(clock: seq<nat>, i: nat, timestamp: nat)
    requires i <= |clock|
    ensures FirstPast(clock, i, timestamp).Some? <==> exists j :: i <= j < |clock| && clock[j] > timestamp
    ensures FirstPast(clock, i, timestamp).Some? ==>
              FirstPast(clock, i, timestamp).value in clock && FirstPast(clock, i, timestamp).value > timestamp
    decreases |clock| - i
  {
    if i < |clock| {
      FirstPastIsPast(clock, i + 1, timestamp);
    }
  }

  /** A clock set back by one millisecond makes a node repeat an id. */
  lemma ClockSetBackRepeatsId(node: nat, t: nat)
    requires node <= NODE_MAX && 0 < t && t + 1 < LAST_STAMP
    ensures var first := NextStamp(Stamp(0, node, 0), [t]).value;
            var second := NextStamp(first, [t + 1]).value;
            Pack(NextStamp(second, [t]).value) == Pack(first)
  {
  }

  /** The busy wait ends as soon as some reading passes the stored timestamp. */
  lemma WaitEnds(last: Stamp, clock: seq<nat>)
    requires clock != [] && exists i :: 0 <= i < |clock| && clock[i] > last.timestamp
    ensures NextStamp(last, clock).Some?
  {
    FirstPastIsPast(clock, 1, last.timestamp);
    var i :| 0 <= i < |clock| && clock[i] > last.timestamp;
    if i >= 1 {
      assert exists j :: 1 <= j < |clock| && clock[j] > last.timestamp;
    }
  }

  // ---------------------------------------------------------------- many calls of one node

  /** Consecutive stamps of one node whose clock never runs backwards: each call's readings start at or after
      the reading the call before it ended with. */
  ghost predicate Issued(stamps: seq<Stamp>) {
    && (forall i | 0 <= i < |stamps| :: WellFormed(stamps[i]))
    && (forall i | 0 <= i < |stamps| - 1 :: Follows(stamps[i], stamps[i + 1]))
  }

  ghost predicate Follows(a: Stamp, b: Stamp) {
    exists clock: seq<nat> :: clock != [] && clock[0] >= a.timestamp && NextStamp(a, clock) == Some(b)
  }

  /** One step up: the same millisecond and the next sequence number, or a later millisecond and sequence 0. */
  lemma FollowsMeaning(a: Stamp, b: Stamp)
    requires Follows(a, b)
    ensures b.node == a.node
    ensures (b.timestamp == a.timestamp && b.sequence == a.sequence + 1)
              || (b.timestamp > a.timestamp && b.sequence == 0)
  {
    var clock: seq<nat> :| clock != [] && clock[0] >= a.timestamp && NextStamp(a, clock) == Some(b);
    if clock[0] == a.timestamp && a.sequence == SEQUENCE_MASK {
      FirstPastIsPast(clock, 1, a.timestamp);
    }
  }

  /** Ids from one node strictly increase, whatever the distance between the calls. */
  lemma {:induction false} IdsIncrease(stamps: seq<Stamp>, i: nat, j: nat)
    requires Issued(stamps) && i < j < |stamps|
    ensures Pack(stamps[i]) < Pack(stamps[j]) && stamps[i].node == stamps[j].node
    ensures stamps[i].timestamp <= stamps[j].timestamp
    decreases j
  {
    if i < j - 1 {
      IdsIncrease(stamps, i, j - 1);
    }
    assert Follows(stamps[j - 1], stamps[j - 1 + 1]);
    FollowsMeaning(stamps[j - 1], stamps[j]);
    PackLayout(stamps[j - 1]);
    PackLayout(stamps[j]);
  }

  /** The milliseconds in which ids were issued. */
  function Milliseconds(stamps: seq<Stamp>): set<nat> {
    set i | 0 <= i < |stamps| :: stamps[i].timestamp
  }

  lemma MillisecondsPush(stamps: seq<Stamp>, s: Stamp)
    ensures Milliseconds(stamps + [s]) == Milliseconds(stamps) + {s.timestamp}
  {
    var longer := stamps + [s];
    assert longer[|stamps|] == s;
    assert forall i | 0 <= i < |stamps| :: longer[i] == stamps[i];
  }

  /** How many of the ids were issued in millisecond t. */
  function IssuedIn(stamps: seq<Stamp>, t: nat): nat {
    if stamps == [] then 0
    else IssuedIn(stamps[..|stamps| - 1], t) + (if stamps[|stamps| - 1].timestamp == t then 1 else 0)
  }

  /** In one millisecond sequence numbers count up from zero, so none holds more than 4096 ids. */
  lemma {:induction false} MillisecondHolds(stamps: seq<Stamp>, t: nat)
    requires Issued(stamps)
    ensures IssuedIn(stamps, t) <= 4096
    ensures stamps != [] && stamps[|stamps| - 1].timestamp == t ==>
              IssuedIn(stamps, t) <= stamps[|stamps| - 1].sequence + 1
    ensures stamps != [] && stamps[|stamps| - 1].timestamp < t ==> IssuedIn(stamps, t) == 0
    decreases |stamps|
  {
    var last := |stamps| - 1;
    if last >= 0 {
      MillisecondHolds(stamps[..last], t);
      if last > 0 {
        assert Follows(stamps[last - 1], stamps[last - 1 + 1]);
        FollowsMeaning(stamps[last - 1], stamps[last]);
      }
    }
  }

  /** Ids need milliseconds: all but the last of those used hold at most 4096 ids each. */
  lemma {:induction false} FullMilliseconds(stamps: seq<Stamp>)
    requires Issued(stamps) && stamps != []
    ensures |stamps| <= 4096 * (|Milliseconds(stamps)| - 1) + stamps[|stamps| - 1].sequence + 1
    decreases |stamps|
  {
    var last := |stamps| - 1;
    var before := stamps[..last];
    assert stamps == before + [stamps[last]];
    MillisecondsPush(before, stamps[last]);
    if last > 0 {
      FullMilliseconds(before);
      assert Follows(stamps[last - 1], stamps[last - 1 + 1]);
      FollowsMeaning(stamps[last - 1], stamps[last]);
      if stamps[last].timestamp == stamps[last - 1].timestamp {
        assert before[last - 1].timestamp in Milliseconds(before);
        assert Milliseconds(stamps) == Milliseconds(before);
      } else {
        NewMillisecond(before, stamps[last].timestamp);
      }
    } else {
      assert Milliseconds(before) == {};
    }
  }

  lemma NewMillisecond(stamps: seq<Stamp>, now: nat)
    requires Issued(stamps) && stamps != [] && now > stamps[|stamps| - 1].timestamp
    ensures now !in Milliseconds(stamps)
  {
    forall i | 0 <= i < |stamps| ensures stamps[i].timestamp != now {
      if i < |stamps| - 1 {
        IdsIncrease(stamps, i, |stamps| - 1);
      }
    }
  }

  /** Rate bound: n ids take at least n/4096 distinct milliseconds, rounded up, so the last one is at least
      that many milliseconds, less one, after the first. */
  lemma RateBound(stamps: seq<Stamp>)
    requires Issued(stamps) && stamps != []
    ensures |Milliseconds(stamps)| >= (|stamps| + 4095) / 4096
    ensures stamps[|stamps| - 1].timestamp - stamps[0].timestamp >= (|stamps| + 4095) / 4096 - 1
  {
    FullMilliseconds(stamps);
    TimePasses(stamps);
  }

  lemma {:induction false} TimePasses(stamps: seq<Stamp>)
    requires Issued(stamps) && stamps != []
    ensures var last := stamps[|stamps| - 1];
            last.timestamp * 4096 + last.sequence >= stamps[0].timestamp * 4096 + stamps[0].sequence + |stamps| - 1
    decreases |stamps|
  {
    var last := |stamps| - 1;
    if last > 0 {
      var before := stamps[..last];
      TimePasses(before);
      assert Follows(stamps[last - 1], stamps[last - 1 + 1]);
      FollowsMeaning(stamps[last - 1], stamps[last]);
    }
  }
}

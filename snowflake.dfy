/** The Snowflake id generator: 64-bit ids made of a 41-bit millisecond delta
    from 2023-01-01T00:00:00Z, a 10-bit machine id and a 12-bit sequence
    number within the millisecond.

    Java longs are modelled as mathematical integers with the wrap-around
    written out (JavaLang.ToLong). On a long, `x >> k` is floor division by
    2^k and `x & (2^k - 1)` is the non-negative remainder modulo 2^k, which
    are exactly Dafny's `/` and `%` by a positive constant; `a << k` is
    multiplication by 2^k, and the OR of fields that occupy disjoint bits is
    their sum. The wall clock is an input: the list of readings
    System.currentTimeMillis would return during one call. */
module Snowflake {
  import opened JavaLang

  /** 2023-01-01T00:00:00Z in milliseconds since the Unix epoch. */
  const EPOCH: int := 1672531200000

  const MACHINE_ID_BITS: nat := 10
  const SEQUENCE_BITS: nat := 12
  const MAX_MACHINE_ID: int := 0x3FF  // (1 << MACHINE_ID_BITS) - 1 = 1023
  const MAX_SEQUENCE: int := 0xFFF    // (1 << SEQUENCE_BITS) - 1 = 4095

  /** 2^MACHINE_ID_SHIFT and 2^TIMESTAMP_SHIFT: a left shift by 12 and by 22. */
  const MACHINE_ID_UNIT: int := 0x1000      // 1 << 12
  const TIMESTAMP_UNIT: int := 0x40_0000    // 1 << 22

  /** Number of distinct 41-bit timestamp deltas: about 69.7 years. */
  const TIMESTAMP_RANGE: int := 0x200_0000_0000  // 1 << 41

  /** Clock readings whose delta from EPOCH fits the 41-bit field. */
  predicate InWindow(timestamp: int)
  {
    EPOCH <= timestamp < EPOCH + TIMESTAMP_RANGE
  }

  predicate ValidMachineId(machineId: int) { 0 <= machineId <= MAX_MACHINE_ID }

  predicate ValidSequence(sequence: int) { 0 <= sequence <= MAX_SEQUENCE }

  datatype SnowflakeError =
    | InvalidMachineId(machineId: int)      // IllegalArgumentException from the constructor
    | ClockMovedBackwards(millis: int)      // RuntimeException from nextId, carrying the regression

  /** The fields parseId recovers from an id. */
  datatype IdInfo = IdInfo(timestamp: int, machineId: int, sequence: int)

  /** The id nextId returns: ((timestamp - EPOCH) << 22) | (machineId << 12) | sequence
      evaluated on Java longs. */
  function Compose(timestamp: int, machineId: int, sequence: int): (id: int)
    requires ValidMachineId(machineId) && ValidSequence(sequence)
    ensures IsLong(id)
  {
    ToLong((timestamp - EPOCH) * TIMESTAMP_UNIT + machineId * MACHINE_ID_UNIT + sequence)
  }

  /** parseId: ((id >> 22) + EPOCH, (id >> 12) & 0x3FF, id & 0xFFF). It accepts
      every long; the machine id and sequence it reports are always in range. */
  function ParseId(id: int): (info: IdInfo)
    ensures ValidMachineId(info.machineId) && ValidSequence(info.sequence)
  {
    IdInfo(id / TIMESTAMP_UNIT + EPOCH, (id / MACHINE_ID_UNIT) % (MAX_MACHINE_ID + 1), id % (MAX_SEQUENCE + 1))
  }

  /** Euclidean division by a positive constant undoes a multiply-and-add. */
  lemma DivModOfSum(q: int, r: int, n: int)
    requires n > 0 && 0 <= r < n
    ensures (q * n + r) / n == q && (q * n + r) % n == r
  {
    var x := q * n + r;
    assert x == (x / n) * n + x % n;
    var d := x / n - q;
    assert d * n == r - x % n;
    assert -n < d * n < n;
  }

  /** Within the 41-bit window the composition does not wrap: the value is the plain sum. */
  lemma ComposeNoWrap(timestamp: int, machineId: int, sequence: int)
    requires InWindow(timestamp) && ValidMachineId(machineId) && ValidSequence(sequence)
    ensures Compose(timestamp, machineId, sequence)
         == (timestamp - EPOCH) * TIMESTAMP_UNIT + machineId * MACHINE_ID_UNIT + sequence
    ensures 0 <= Compose(timestamp, machineId, sequence)
  {
    var d := timestamp - EPOCH;
    assert 0 <= d * TIMESTAMP_UNIT <= (TIMESTAMP_RANGE - 1) * TIMESTAMP_UNIT;
  }

  /** Round trip: parseId recovers exactly the timestamp, machine id and sequence
      that were packed, for every timestamp in the 41-bit window. */
  lemma {:induction false} ParseCompose(timestamp: int, machineId: int, sequence: int)
    requires InWindow(timestamp) && ValidMachineId(machineId) && ValidSequence(sequence)
    ensures ParseId(Compose(timestamp, machineId, sequence)) == IdInfo(timestamp, machineId, sequence)
  {
    ComposeNoWrap(timestamp, machineId, sequence);
    var d := timestamp - EPOCH;
    var low := machineId * MACHINE_ID_UNIT + sequence;
    var id := d * TIMESTAMP_UNIT + low;
    assert 0 <= low < TIMESTAMP_UNIT;
    DivModOfSum(d, low, TIMESTAMP_UNIT);
    assert id == (d * (MAX_MACHINE_ID + 1) + machineId) * MACHINE_ID_UNIT + sequence;
    DivModOfSum(d * (MAX_MACHINE_ID + 1) + machineId, sequence, MACHINE_ID_UNIT);
    DivModOfSum(d, machineId, MAX_MACHINE_ID + 1);
  }

  /** Ids from one machine are ordered like their (timestamp, sequence) pairs. */
  lemma ComposeMonotone(machineId: int, t1: int, s1: int, t2: int, s2: int)
    requires ValidMachineId(machineId) && ValidSequence(s1) && ValidSequence(s2)
    requires InWindow(t1) && InWindow(t2)
    requires t1 < t2 || (t1 == t2 && s1 < s2)
    ensures Compose(t1, machineId, s1) < Compose(t2, machineId, s2)
  {
    ComposeNoWrap(t1, machineId, s1);
    ComposeNoWrap(t2, machineId, s2);
    if t1 < t2 {
      assert (t2 - EPOCH) * TIMESTAMP_UNIT >= (t1 - EPOCH) * TIMESTAMP_UNIT + TIMESTAMP_UNIT;
    }
  }

  /** Within the window two ids are equal only if all three fields are. */
  lemma ComposeInjective(t1: int, m1: int, s1: int, t2: int, m2: int, s2: int)
    requires InWindow(t1) && ValidMachineId(m1) && ValidSequence(s1)
    requires InWindow(t2) && ValidMachineId(m2) && ValidSequence(s2)
    requires Compose(t1, m1, s1) == Compose(t2, m2, s2)
    ensures t1 == t2 && m1 == m2 && s1 == s2
  {
    ParseCompose(t1, m1, s1);
    ParseCompose(t2, m2, s2);
  }

  /** Range of the ids: once the clock is past EPOCH an id is positive, and no id of
      the window exceeds Long.MAX_VALUE; the largest one, at the last millisecond of
      the window with machine id 1023 and sequence 4095, is Long.MAX_VALUE itself. */
  lemma IdRange(timestamp: int, machineId: int, sequence: int)
    requires InWindow(timestamp) && ValidMachineId(machineId) && ValidSequence(sequence)
    ensures EPOCH < timestamp ==> 0 < Compose(timestamp, machineId, sequence)
    ensures Compose(timestamp, machineId, sequence) <= LONG_MAX
    ensures Compose(timestamp, machineId, sequence) == LONG_MAX
        <==> timestamp == EPOCH + TIMESTAMP_RANGE - 1 && machineId == MAX_MACHINE_ID && sequence == MAX_SEQUENCE
  {
    ComposeNoWrap(timestamp, machineId, sequence);
    var id := Compose(timestamp, machineId, sequence);
    if id == LONG_MAX {
      ParseCompose(timestamp, machineId, sequence);
      assert ParseId(LONG_MAX) == IdInfo(EPOCH + TIMESTAMP_RANGE - 1, MAX_MACHINE_ID, MAX_SEQUENCE);
    }
  }

  /** Generators with different machine ids never produce the same id in the window. */
  lemma DistinctMachinesNeverCollide(t1: int, m1: int, s1: int, t2: int, m2: int, s2: int)
    requires InWindow(t1) && ValidMachineId(m1) && ValidSequence(s1)
    requires InWindow(t2) && ValidMachineId(m2) && ValidSequence(s2)
    requires m1 != m2
    ensures Compose(t1, m1, s1) != Compose(t2, m2, s2)
  {
    if Compose(t1, m1, s1) == Compose(t2, m2, s2) {
      ComposeInjective(t1, m1, s1, t2, m2, s2);
    }
  }

  /** generateMachineId when the host name and process name are known: the 32-bit
      String.hashCode widened to long, Math.abs, then `% 1024`. */
  function MachineIdFromHash(hash: int): (machineId: int)
    requires IsInt(hash)
    ensures ValidMachineId(machineId)
    ensures machineId == (if hash < 0 then -hash else hash) % (MAX_MACHINE_ID + 1)
  {
    (if hash < 0 then -hash else hash) % (MAX_MACHINE_ID + 1)
  }

  /** generateMachineId's fallback: `(long) (Math.random() * MAX_MACHINE_ID)` with
      Math.random() in [0, 1). The cast truncates, so 1023 is never chosen. */
  function MachineIdFromRandom(random: real): (machineId: int)
    requires 0.0 <= random < 1.0
    ensures 0 <= machineId <= MAX_MACHINE_ID - 1
  {
    (random * MAX_MACHINE_ID as real).Floor
  }

  /** Every machine id below 1023 is reachable by the random fallback. */
  lemma RandomFallbackReaches(machineId: int)
    requires 0 <= machineId < MAX_MACHINE_ID
    ensures MachineIdFromRandom(machineId as real / MAX_MACHINE_ID as real) == machineId
  {
    var r := machineId as real / MAX_MACHINE_ID as real;
    assert r * MAX_MACHINE_ID as real == machineId as real;
  }

  /** The (timestamp, sequence) pair behind one issued id. */
  datatype Slot = Slot(timestamp: int, sequence: int)

  /** Strict lexicographic order on slots: the order of the ids they produce. */
  predicate SlotBefore(a: Slot, b: Slot)
  {
    a.timestamp < b.timestamp || (a.timestamp == b.timestamp && a.sequence < b.sequence)
  }

  /** Slots issued in strictly increasing order, each with a valid sequence number. */
  predicate Chronological(slots: seq<Slot>)
  {
    && (forall i :: 0 <= i < |slots| ==> ValidSequence(slots[i].sequence))
    && (forall i, j :: 0 <= i < j < |slots| ==> SlotBefore(slots[i], slots[j]))
  }

  /** The ids a machine produces for a list of slots. */
  function IdsOf(machineId: int, slots: seq<Slot>): (ids: seq<int>)
    requires ValidMachineId(machineId) && Chronological(slots)
    ensures |ids| == |slots|
    ensures forall i :: 0 <= i < |slots| ==> ids[i] == Compose(slots[i].timestamp, machineId, slots[i].sequence)
  {
    seq(|slots|, i requires 0 <= i < |slots| => Compose(slots[i].timestamp, machineId, slots[i].sequence))
  }

  /** Uniqueness and monotonicity: while the clock stays in the 41-bit window, the ids
      of chronologically issued slots are strictly increasing, hence pairwise distinct. */
  lemma IssuedIdsIncrease(machineId: int, slots: seq<Slot>)
    requires ValidMachineId(machineId) && Chronological(slots)
    requires forall i :: 0 <= i < |slots| ==> InWindow(slots[i].timestamp)
    ensures forall i, j :: 0 <= i < j < |slots| ==> IdsOf(machineId, slots)[i] < IdsOf(machineId, slots)[j]
  {
    var ids := IdsOf(machineId, slots);
    forall i, j | 0 <= i < j < |slots| ensures ids[i] < ids[j] {
      ComposeMonotone(machineId, slots[i].timestamp, slots[i].sequence, slots[j].timestamp, slots[j].sequence);
    }
  }

  /** Some reading in the list is later than `last`: the clock eventually advances. */
  predicate ClockAdvancesPast(readings: seq<int>, last: int)
  {
    exists k :: 0 <= k < |readings| && readings[k] > last
  }

  /** The first reading later than `last`. */
  function FirstAfter(readings: seq<int>, last: int): (t: int)
    requires ClockAdvancesPast(readings, last)
    ensures t > last
    ensures exists k :: 0 <= k < |readings| && readings[k] == t && forall j :: 0 <= j < k ==> readings[j] <= last
  {
    if readings[0] > last then readings[0]
    else
      assert ClockAdvancesPast(readings[1..], last) by {
        var k :| 0 <= k < |readings| && readings[k] > last;
        assert readings[1..][k - 1] == readings[k];
      }
      var t := FirstAfter(readings[1..], last);
      assert exists k :: 0 <= k < |readings| && readings[k] == t && forall j :: 0 <= j < k ==> readings[j] <= last by {
        var k :| 0 <= k < |readings[1..]| && readings[1..][k] == t && forall j :: 0 <= j < k ==> readings[1..][j] <= last;
        assert readings[k + 1] == t;
        assert forall j :: 0 <= j < k + 1 ==> readings[j] <= last by {
          forall j | 0 <= j < k + 1 ensures readings[j] <= last {
            if j > 0 { assert readings[j] == readings[1..][j - 1]; }
          }
        }
      }
      t
  }

  /** waitForNextMillisecond: re-read the clock until it is past `lastTimestamp`; the
      result is the first such reading. */
  method WaitForNextMillisecond(lastTimestamp: int, readings: seq<int>) returns (timestamp: int)
    requires ClockAdvancesPast(readings, lastTimestamp)
    ensures timestamp > lastTimestamp
    ensures timestamp == FirstAfter(readings, lastTimestamp)
  {
    var i := 0;
    timestamp := readings[0];
    while timestamp <= lastTimestamp
      invariant 0 <= i < |readings| && timestamp == readings[i]
      invariant ClockAdvancesPast(readings[i..], lastTimestamp)
      invariant FirstAfter(readings[i..], lastTimestamp) == FirstAfter(readings, lastTimestamp)
      decreases |readings| - i
    {
      assert readings[i..][1..] == readings[i + 1..];
      i := i + 1;
      timestamp := readings[i];
    }
    assert readings[i..][0] == timestamp;
  }

  /** One generator instance. The machine id is fixed; lastTimestamp and sequence
      describe the last id issued. The ghost history records every issued slot. */
  class Generator {
    const machineId: int
    var lastTimestamp: int
    var sequence: int
    ghost var slots: seq<Slot>

    ghost predicate Valid()
      reads this
    {
      && ValidMachineId(machineId)
      && ValidSequence(sequence)
      && Chronological(slots)
      && (slots == [] ==> lastTimestamp == -1 && sequence == 0)
      && (slots != [] ==> slots[|slots| - 1] == Slot(lastTimestamp, sequence))
    }

    /** The ids issued so far, in order. */
    ghost function Issued(): seq<int>
      reads this
      requires Valid()
    {
      IdsOf(machineId, slots)
    }

    /** `new SnowflakeIdGenerator(machineId)` once the range check has passed. */
    constructor (machineId: int)
      requires ValidMachineId(machineId)
      ensures Valid()
      ensures this.machineId == machineId && lastTimestamp == -1 && sequence == 0 && slots == []
    {
      this.machineId := machineId;
      lastTimestamp := -1;
      sequence := 0;
      slots := [];
    }

    /** `new SnowflakeIdGenerator()`: the machine id comes from the host identity hash
        when the host lookup succeeds, and from Math.random() otherwise. */
    constructor FromHost(hostHash: Option<int>, random: real)
      requires hostHash.Some? ==> IsInt(hostHash.value)
      requires 0.0 <= random < 1.0
      ensures Valid()
      ensures machineId == (if hostHash.Some? then MachineIdFromHash(hostHash.value) else MachineIdFromRandom(random))
      ensures lastTimestamp == -1 && sequence == 0 && slots == []
    {
      machineId := if hostHash.Some? then MachineIdFromHash(hostHash.value) else MachineIdFromRandom(random);
      lastTimestamp := -1;
      sequence := 0;
      slots := [];
    }

    /** The constructor with its range check: a machine id outside 0..1023 is
        rejected and no generator is produced. */
    static method Create(machineId: int) returns (r: Result<Generator, SnowflakeError>)
      ensures r.Failure? <==> !ValidMachineId(machineId)
      ensures r.Failure? ==> r.error == InvalidMachineId(machineId)
      ensures r.Success? ==> fresh(r.value) && r.value.Valid() && r.value.machineId == machineId
      ensures r.Success? ==> r.value.lastTimestamp == -1 && r.value.sequence == 0 && r.value.slots == []
    {
      if machineId > MAX_MACHINE_ID || machineId < 0 {
        return Failure(InvalidMachineId(machineId));
      }
      var g := new Generator(machineId);
      return Success(g);
    }

    /** nextId would have to wait for the clock: same millisecond as the last id and
        the sequence wraps to 0. */
    predicate MustWait(now: int)
      reads this
    {
      now == lastTimestamp && (sequence + 1) % (MAX_SEQUENCE + 1) == 0
    }

    /** nextId. `readings` are the successive clock readings during the call: the
        first one is the call's own, the rest are re-read by the spin loop. */
    method NextId(readings: seq<int>) returns (r: Result<int, SnowflakeError>)
      requires Valid()
      requires |readings| > 0
      requires MustWait(readings[0]) ==> ClockAdvancesPast(readings[1..], lastTimestamp)
      modifies this
      ensures Valid()
      // a backwards clock fails the call and changes nothing
      ensures r.Failure? <==> readings[0] < old(lastTimestamp)
      ensures r.Failure? ==> r.error == ClockMovedBackwards(old(lastTimestamp) - readings[0])
      ensures r.Failure? ==> lastTimestamp == old(lastTimestamp) && sequence == old(sequence) && slots == old(slots)
      // same millisecond: the sequence advances modulo 4096; on wrap-around the timestamp is a later reading
      ensures r.Success? && readings[0] == old(lastTimestamp) ==> sequence == (old(sequence) + 1) % (MAX_SEQUENCE + 1)
      ensures r.Success? && readings[0] == old(lastTimestamp) && sequence != 0 ==> lastTimestamp == old(lastTimestamp)
      ensures r.Success? && readings[0] == old(lastTimestamp) && sequence == 0
           ==> lastTimestamp == FirstAfter(readings[1..], old(lastTimestamp)) && lastTimestamp > old(lastTimestamp)
      // new millisecond: the sequence restarts at 0
      ensures r.Success? && readings[0] > old(lastTimestamp) ==> lastTimestamp == readings[0] && sequence == 0
      // the id encodes the new state and is recorded in the history
      ensures r.Success? ==> r.value == Compose(lastTimestamp, machineId, sequence)
      ensures r.Success? ==> slots == old(slots) + [Slot(lastTimestamp, sequence)]
      ensures r.Success? && InWindow(lastTimestamp) ==> ParseId(r.value) == IdInfo(lastTimestamp, machineId, sequence)
    {
      var timestamp := readings[0];
      if timestamp < lastTimestamp {
        return Failure(ClockMovedBackwards(lastTimestamp - timestamp));
      }
      if timestamp == lastTimestamp {
        sequence := (sequence + 1) % (MAX_SEQUENCE + 1);
        if sequence == 0 {
          timestamp := WaitForNextMillisecond(lastTimestamp, readings[1..]);
        }
      } else {
        sequence := 0;
      }
      ghost var previous := Slot(lastTimestamp, old(sequence));
      lastTimestamp := timestamp;
      ghost var slot := Slot(lastTimestamp, sequence);
      assert slots != [] ==> SlotBefore(previous, slot);
      slots := slots + [slot];
      r := Success(Compose(timestamp, machineId, sequence));
      if InWindow(lastTimestamp) {
        ParseCompose(lastTimestamp, machineId, sequence);
      }
    }
  }
}

/** Sliding-window counters: a ring of one-minute buckets against the full log of events. */
module RecentBucketCounters {

  // ----- The log -----

  /** How many logged events happened in one minute. */
  ghost function InMinute(log: seq<nat>, minute: int): nat {
    if log == [] then 0
    else InMinute(log[..|log| - 1], minute) + if log[|log| - 1] == minute then 1 else 0
  }

  /** How many logged events happened from minute `lo` to minute `hi`, both included. */
  ghost function InMinutes(log: seq<nat>, lo: int, hi: int): nat {
    if log == [] then 0
    else InMinutes(log[..|log| - 1], lo, hi) + if lo <= log[|log| - 1] <= hi then 1 else 0
  }

  lemma {:induction false} NoneAfter(log: seq<nat>, last: int, minute: int)
    requires minute > last && forall i :: 0 <= i < |log| ==> log[i] <= last
    ensures InMinute(log, minute) == 0
  {
    if log != [] {
      NoneAfter(log[..|log| - 1], last, minute);
    }
  }

  lemma {:induction false} NeverMoreThanLogged(log: seq<nat>, lo: int, hi: int)
    ensures InMinutes(log, lo, hi) <= |log|
  {
    if log != [] {
      NeverMoreThanLogged(log[..|log| - 1], lo, hi);
    }
  }

  lemma {:induction false} WiderCountsMore(log: seq<nat>, lo: int, lo': int, hi: int)
    requires lo' <= lo
    ensures InMinutes(log, lo, hi) <= InMinutes(log, lo', hi)
  {
    if log != [] {
      WiderCountsMore(log[..|log| - 1], lo, lo', hi);
    }
  }

  /** Minutes are counted from zero. */
  lemma {:induction false} LogStartsAtZero(log: seq<nat>, lo: int, hi: int)
    ensures InMinutes(log, lo, hi) == InMinutes(log, Max(0, lo), hi)
  {
    if log != [] {
      LogStartsAtZero(log[..|log| - 1], lo, hi);
    }
  }

  lemma {:induction false} NoneInEmptyRange(log: seq<nat>, last: int, lo: int, hi: int)
    requires lo > hi || (lo > last && forall i :: 0 <= i < |log| ==> log[i] <= last)
    ensures InMinutes(log, lo, hi) == 0
  {
    if log != [] {
      NoneInEmptyRange(log[..|log| - 1], last, lo, hi);
    }
  }

  function Max(x: int, y: int): int {
    if x >= y then x else y
  }

  // ----- The ring -----

  /** The minute the bucket at `idx` stands for when `current` is the last minute written. */
  function MinuteOf(current: nat, capacity: nat, idx: nat): int
    requires capacity > 0 && idx < capacity
  {
    var offset := (current % capacity + capacity - idx) % capacity;
    current - offset
  }

  /** Multiples of `m` are at least `m` apart. */
  lemma Stride(k: int, m: int)
    requires m > 0
    ensures k >= 1 ==> k * m >= m
    ensures k <= -1 ==> k * m <= -m
  {
  }

  lemma SameQuotient(a: int, r: int, b: int, s: int, m: int)
    requires m > 0 && 0 <= r < m && 0 <= s < m && a * m + r == b * m + s
    ensures a == b && r == s
  {
    Stride(a - b, m);
    assert (a - b) * m == s - r;
  }

  lemma SameRemainder(q: int, r: int, m: int)
    requires m > 0 && 0 <= r < m
    ensures (q * m + r) % m == r
  {
    var n := q * m + r;
    assert n == (n / m) * m + n % m;
    SameQuotient(q, r, n / m, n % m, m);
  }

  /** The buckets stand for the last `capacity` minutes, each for the one with its remainder. */
  lemma MinuteOfBucket(current: nat, capacity: nat, idx: nat)
    requires capacity > 0 && idx < capacity
    ensures current - capacity < MinuteOf(current, capacity, idx) <= current
    ensures MinuteOf(current, capacity, idx) % capacity == idx
  {
    var c, q := current % capacity, current / capacity;
    assert current == q * capacity + c;
    if idx <= c {
      SameRemainder(1, c - idx, capacity);
      SameRemainder(q, idx, capacity);
    } else {
      SameRemainder(0, c + capacity - idx, capacity);
      SameRemainder(q - 1, idx, capacity);
      assert q * capacity - capacity == (q - 1) * capacity;
    }
  }

  /** Minutes less than `capacity` apart share a bucket only if they are the same. */
  lemma OneMinutePerBucket(m: int, n: int, capacity: int)
    requires capacity > 0 && m % capacity == n % capacity && -capacity < m - n < capacity
    ensures m == n
  {
    assert m == (m / capacity) * capacity + m % capacity;
    assert n == (n / capacity) * capacity + n % capacity;
    assert m - n == (m / capacity - n / capacity) * capacity;
    Stride(m / capacity - n / capacity, capacity);
  }

  lemma BucketOfRecentMinute(current: nat, capacity: nat, minute: nat)
    requires capacity > 0 && current - capacity < minute <= current
    ensures MinuteOf(current, capacity, minute % capacity) == minute
  {
    MinuteOfBucket(current, capacity, minute % capacity);
    OneMinutePerBucket(MinuteOf(current, capacity, minute % capacity), minute, capacity);
  }

  /** Every bucket holds exactly the logged events of the minute it stands for. */
  ghost predicate Mirrors(ring: seq<nat>, currentMinute: nat, log: seq<nat>) {
    && |ring| > 0
    && (forall i :: 0 <= i < |log| ==> log[i] <= currentMinute)
    && (forall idx :: 0 <= idx < |ring| ==> ring[idx] == InMinute(log, MinuteOf(currentMinute, |ring|, idx)))
  }

  /** Moving on by one minute reuses exactly one bucket. */
  lemma NextMinute(ring: seq<nat>, minute: nat, log: seq<nat>)
    requires Mirrors(ring, minute, log)
    ensures Mirrors(ring[(minute + 1) % |ring| := 0], minute + 1, log)
  {
    var capacity := |ring|;
    var next := ring[(minute + 1) % capacity := 0];
    forall idx | 0 <= idx < capacity
      ensures next[idx] == InMinute(log, MinuteOf(minute + 1, capacity, idx))
    {
      MinuteOfBucket(minute, capacity, idx);
      MinuteOfBucket(minute + 1, capacity, idx);
      if idx == (minute + 1) % capacity {
        BucketOfRecentMinute(minute + 1, capacity, minute + 1);
        NoneAfter(log, minute, minute + 1);
      } else {
        SameRemainderShift(minute + 1, capacity);
        OneMinutePerBucket(MinuteOf(minute, capacity, idx), MinuteOf(minute + 1, capacity, idx), capacity);
      }
    }
  }

  lemma SameRemainderShift(m: int, capacity: int)
    requires capacity > 0
    ensures (m - capacity) % capacity == m % capacity
  {
    assert m == (m / capacity) * capacity + m % capacity;
    assert m - capacity == (m / capacity - 1) * capacity + m % capacity;
    SameRemainder(m / capacity - 1, m % capacity, capacity);
  }

  /** A whole turn of the ring leaves nothing. */
  lemma AllZero(ring: seq<nat>, was: nat, minute: nat, log: seq<nat>)
    requires |ring| > 0 && minute >= was + |ring|
    requires forall i :: 0 <= i < |log| ==> log[i] <= was
    requires forall idx :: 0 <= idx < |ring| ==> ring[idx] == 0
    ensures Mirrors(ring, minute, log)
  {
    forall idx | 0 <= idx < |ring|
      ensures InMinute(log, MinuteOf(minute, |ring|, idx)) == 0
    {
      MinuteOfBucket(minute, |ring|, idx);
      NoneAfter(log, was, MinuteOf(minute, |ring|, idx));
    }
  }

  lemma OneMoreRecord(ring: seq<nat>, minute: nat, log: seq<nat>)
    requires Mirrors(ring, minute, log)
    ensures Mirrors(ring[minute % |ring| := ring[minute % |ring|] + 1], minute, log + [minute])
  {
    var capacity := |ring|;
    var next := ring[minute % capacity := ring[minute % capacity] + 1];
    assert (log + [minute])[..|log|] == log;
    forall idx | 0 <= idx < capacity
      ensures next[idx] == InMinute(log + [minute], MinuteOf(minute, capacity, idx))
    {
      MinuteOfBucket(minute, capacity, idx);
      BucketOfRecentMinute(minute, capacity, minute);
    }
  }

  class RecentBuckets {
    const buckets: array<nat>
    var currentMinute: nat
    const capacity: nat
    /** The minute of every event recorded so far. */
    ghost var log: seq<nat>

    ghost predicate Valid()
      reads this, buckets
    {
      capacity == buckets.Length && Mirrors(buckets[..], currentMinute, log)
    }

    constructor (capacityMinutes: nat)
      requires capacityMinutes > 0
      ensures Valid() && fresh(buckets) && log == [] && capacity == capacityMinutes && currentMinute == 0
    {
      buckets := new nat[capacityMinutes](_ => 0);
      currentMinute := 0;
      capacity := capacityMinutes;
      log := [];
    }

    /** Overwrite the bucket of one minute. */
    method Put(minute: nat, count: nat)
      requires 0 < capacity == buckets.Length
      modifies buckets
      ensures buckets[..] == old(buckets[..])[minute % capacity := count]
    {
      buckets[minute % capacity] := count;
    }

    /** Move the ring on to a later minute. */
    method RollTo(minute: nat)
      requires Valid() && currentMinute <= minute
      modifies this`currentMinute, buckets
      ensures Valid() && currentMinute == minute
    {
      if minute >= currentMinute + capacity {
        for i := 0 to capacity
          invariant forall k :: 0 <= k < i ==> buckets[k] == 0
          invariant currentMinute == old(currentMinute)
        {
          buckets[i] := 0;
        }
        AllZero(buckets[..], currentMinute, minute, log);
      } else if minute > currentMinute {
        for m := currentMinute + 1 to minute + 1
          invariant Mirrors(buckets[..], m - 1, log)
        {
          NextMinute(buckets[..], m - 1, log);
          Put(m, 0);
        }
      }
      currentMinute := minute;
    }

    /** `minute` is the whole minutes elapsed since the start; that clock never runs backwards. */
    method Record(minute: nat)
      requires Valid() && currentMinute <= minute
      modifies this, buckets
      ensures Valid() && currentMinute == minute && log == old(log) + [minute]
    {
      RollTo(minute);
      OneMoreRecord(buckets[..], minute, log);
      Put(currentMinute, buckets[currentMinute % capacity] + 1);
      log := log + [minute];
    }

    function CountLastNMinutes(n: nat, current: nat): nat
      requires Valid()
      reads this, buckets
    {
      RingCount(buckets[..], currentMinute, n, current)
    }
  }

  // ----- What the counter answers -----

  /** The buckets before `upTo` whose minute lies in the window, added up. */
  function RingSum(ring: seq<nat>, currentMinute: nat, windowStart: int, current: int, upTo: nat): nat
    requires |ring| > 0 && upTo <= |ring|
  {
    if upTo == 0 then 0
    else
      var bucketMinute := MinuteOf(currentMinute, |ring|, upTo - 1);
      RingSum(ring, currentMinute, windowStart, current, upTo - 1)
      + if windowStart <= bucketMinute <= current then ring[upTo - 1] else 0
  }

  function RingCount(ring: seq<nat>, currentMinute: nat, n: nat, current: nat): nat
    requires |ring| > 0
  {
    if n == 0 then 0
    else if current >= currentMinute + |ring| then 0
    else RingSum(ring, currentMinute, Max(0, current - (n - 1)), current, |ring|)
  }

  /** One more logged event adds one to the sum exactly if its bucket is among those summed and its minute counts. */
  lemma {:induction false} SumOfOneMore(ring: seq<nat>, ring': seq<nat>, log: seq<nat>, r: nat, currentMinute: nat,
                                        windowStart: int, current: int, upTo: nat)
    requires Mirrors(ring, currentMinute, log) && Mirrors(ring', currentMinute, log + [r]) && |ring| == |ring'|
    requires upTo <= |ring|
    ensures RingSum(ring', currentMinute, windowStart, current, upTo)
            == RingSum(ring, currentMinute, windowStart, current, upTo)
               + if r % |ring| < upTo && currentMinute - |ring| < r && windowStart <= r <= current then 1 else 0
  {
    if upTo > 0 {
      SumOfOneMore(ring, ring', log, r, currentMinute, windowStart, current, upTo - 1);
      assert (log + [r])[..|log|] == log && (log + [r])[|log|] == r;
      MinuteOfBucket(currentMinute, |ring|, upTo - 1);
      if r % |ring| == upTo - 1 && currentMinute - |ring| < r {
        BucketOfRecentMinute(currentMinute, |ring|, r);
      }
    }
  }

  /** The ring that mirrors a log. */
  ghost function RingOf(capacity: nat, currentMinute: nat, log: seq<nat>): (ring: seq<nat>)
    requires capacity > 0
    ensures |ring| == capacity
    ensures forall idx :: 0 <= idx < capacity ==> ring[idx] == InMinute(log, MinuteOf(currentMinute, capacity, idx))
  {
    seq(capacity, idx requires 0 <= idx < capacity => InMinute(log, MinuteOf(currentMinute, capacity, idx)))
  }

  lemma {:induction false} SumOfZeros(ring: seq<nat>, currentMinute: nat, windowStart: int, current: int, upTo: nat)
    requires |ring| > 0 && upTo <= |ring| && forall idx :: 0 <= idx < |ring| ==> ring[idx] == 0
    ensures RingSum(ring, currentMinute, windowStart, current, upTo) == 0
  {
    if upTo > 0 {
      SumOfZeros(ring, currentMinute, windowStart, current, upTo - 1);
    }
  }

  /** The sum over the whole ring is the number of logged events in the window that the ring still covers. */
  lemma {:induction false} SumIsLogCount(ring: seq<nat>, log: seq<nat>, currentMinute: nat, windowStart: int, current: int)
    requires Mirrors(ring, currentMinute, log)
    ensures RingSum(ring, currentMinute, windowStart, current, |ring|)
            == InMinutes(log, Max(windowStart, currentMinute - |ring| + 1), current)
    decreases |log|
  {
    if log == [] {
      SumOfZeros(ring, currentMinute, windowStart, current, |ring|);
    } else {
      var n := |log| - 1;
      var earlier := RingOf(|ring|, currentMinute, log[..n]);
      assert log[..n] + [log[n]] == log;
      SumIsLogCount(earlier, log[..n], currentMinute, windowStart, current);
      SumOfOneMore(earlier, ring, log[..n], log[n], currentMinute, windowStart, current, |ring|);
    }
  }

  /** The counter against the log, for every window and every later minute. Up to the ring's capacity
      it is exact; beyond that it leaves out what the ring no longer covers, and never counts too much. */
  lemma CountIsExact(ring: seq<nat>, log: seq<nat>, currentMinute: nat, n: nat, current: nat)
    requires Mirrors(ring, currentMinute, log) && currentMinute <= current
    ensures n <= |ring| ==> RingCount(ring, currentMinute, n, current) == InMinutes(log, current - n + 1, current)
    ensures n > |ring| && current < currentMinute + |ring| ==>
              RingCount(ring, currentMinute, n, current)
              == InMinutes(log, Max(current - n + 1, currentMinute - |ring| + 1), current)
    ensures RingCount(ring, currentMinute, n, current) <= InMinutes(log, current - n + 1, current) <= |log|
  {
    NeverMoreThanLogged(log, current - n + 1, current);
    if n == 0 {
      NoneInEmptyRange(log, currentMinute, current + 1, current);
    } else if current >= currentMinute + |ring| {
      if n <= |ring| {
        NoneInEmptyRange(log, currentMinute, current - n + 1, current);
      }
    } else {
      var lo := Max(current - n + 1, currentMinute - |ring| + 1);
      SumIsLogCount(ring, log, currentMinute, Max(0, current - (n - 1)), current);
      LogStartsAtZero(log, lo, current);
      LogStartsAtZero(log, Max(Max(0, current - (n - 1)), currentMinute - |ring| + 1), current);
      WiderCountsMore(log, lo, current - n + 1, current);
    }
  }

  // ----- Paired with the lifetime totals -----

  /** One pair of `Diagnostics`: a lifetime total and the recent counts reported beside it. */
  class Diagnostics {
    var eventsReceivedTotal: nat
    const received: RecentBuckets

    ghost predicate Valid()
      reads this, received, received.buckets
    {
      received.Valid() && received.capacity == 60 && eventsReceivedTotal == |received.log|
    }

    constructor ()
      ensures Valid() && eventsReceivedTotal == 0 && fresh(received) && fresh(received.buckets)
    {
      eventsReceivedTotal := 0;
      received := new RecentBuckets(60);
    }

    method RecordEventReceived(minute: nat)
      requires Valid() && received.currentMinute <= minute
      modifies this, received, received.buckets
      ensures Valid() && eventsReceivedTotal == old(eventsReceivedTotal) + 1
      ensures received.log == old(received.log) + [minute] && received.currentMinute == minute
    {
      eventsReceivedTotal := eventsReceivedTotal + 1;
      received.Record(minute);
    }

    /** The recent count of a snapshot is the number of events of the last ten minutes, and is never above the total. */
    method Snapshot(current: nat) returns (total: nat, recent: nat)
      requires Valid() && received.currentMinute <= current
      ensures total == eventsReceivedTotal && recent <= total
      ensures recent == InMinutes(received.log, current - 9, current)
    {
      total := eventsReceivedTotal;
      recent := received.CountLastNMinutes(10, current);
      CountIsExact(received.buckets[..], received.log, received.currentMinute, 10, current);
    }
  }
}

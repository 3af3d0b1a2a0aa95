/** The keyed collection of token buckets: stale buckets are dropped, and when
    too many remain the oldest go first. Dropping a stale bucket must not change
    what any later call is told. */
module BucketMaps {
  import opened Clock
  import opened TokenBucket
  import opened Eviction

  /** A bucket carries the limits it was created with. */
  datatype Entry = Entry(limits: Limits, state: State)

  type Table = map<string, Entry>

  /** When buckets count as stale and how many may stay. */
  datatype Policy = Policy(staleAfter: real, maxBuckets: nat)

  predicate NeedsSweep(size: nat, lastSweep: real, now: real, policy: Policy) {
    size > policy.maxBuckets || Elapsed(lastSweep, now) >= policy.staleAfter
  }

  predicate IsLive(last: real, now: real, policy: Policy) {
    Elapsed(last, now) <= policy.staleAfter
  }

  /** When a bucket was last replenished. */
  ghost function Age(): Entry -> real {
    (e: Entry) => e.state.last
  }

  ghost function Live(t: Table, now: real, policy: Policy): Table {
    map k | k in t && IsLive(t[k].state.last, now, policy) :: t[k]
  }

  /** `after` is a possible outcome of sweeping `t`: stale buckets go; then, only
      if too many are left, exactly enough of the oldest go. Which of several
      equally old buckets goes is not determined. */
  ghost predicate Swept(t: Table, now: real, policy: Policy, after: Table) {
    Evicted(Age(), Live(t, now, policy), policy.maxBuckets, after)
  }

  /** Look the key up, creating a full bucket if it is new, and check it. */
  ghost function Hit(t: Table, key: string, limits: Limits, now: real): (Table, bool) {
    var entry := if key in t then t[key] else Entry(limits, State(limits.burst, now));
    var (s, ok) := Checked(entry.state, entry.limits, now);
    (t[key := entry.(state := s)], ok)
  }

  /** The whole of one use of the map: sweep if due, then check the key. */
  ghost predicate Used(t: Table, lastSweep: real, key: string, limits: Limits, now: real, policy: Policy,
                       after: Table, sweptAt: real, ok: bool) {
    if NeedsSweep(|t|, lastSweep, now, policy) then
      sweptAt == now && exists mid :: Swept(t, now, policy, mid) && Hit(mid, key, limits, now) == (after, ok)
    else
      sweptAt == lastSweep && Hit(t, key, limits, now) == (after, ok)
  }

  datatype Call = Call(key: string, now: real)

  /** A map as it stands between two uses. */
  datatype Snapshot = Snapshot(table: Table, lastSweep: real)

  ghost predicate Step(limits: Limits, policy: Policy, s: Snapshot, c: Call, s': Snapshot, ok: bool) {
    Used(s.table, s.lastSweep, c.key, limits, c.now, policy, s'.table, s'.lastSweep, ok)
  }

  class BucketMap {
    /** The map owns its buckets; one is borrowed, checked in place and handed back. */
    var buckets: Table
    var lastSweep: real

    ghost function Snap(): Snapshot
      reads this
    {
      Snapshot(buckets, lastSweep)
    }

    constructor (at: real)
      ensures Snap() == Snapshot(map[], at)
    {
      buckets := map[];
      lastSweep := at;
    }

    method Sweep(now: real, policy: Policy)
      modifies this
      ensures lastSweep == now && Swept(old(buckets), now, policy, buckets)
    {
      lastSweep := now;
      buckets := map k | k in buckets && IsLive(buckets[k].state.last, now, policy) :: buckets[k];
      ghost var live := buckets;
      while |buckets| > policy.maxBuckets
        invariant lastSweep == now
        invariant OldestDropped(Age(), live, buckets)
        invariant |buckets| <= |live|
        invariant |live| <= policy.maxBuckets ==> |buckets| == |live|
        invariant |live| > policy.maxBuckets ==> |buckets| >= policy.maxBuckets
      {
        ghost var some := SomeOldest(Age(), buckets);
        var oldest :| oldest in buckets
                      && forall k :: k in buckets ==> buckets[oldest].state.last <= buckets[k].state.last;
        DropOldest(Age(), live, buckets, oldest);
        buckets := buckets - {oldest};
      }
    }

    /** Look the key up, creating its bucket if needed, and check it. `created` is
        the clock a new bucket reads for itself. */
    method Touch(key: string, limits: Limits, now: real, created: real) returns (ok: bool)
      requires ValidLimits(limits)
      modifies this`buckets
      ensures (buckets, ok) == Hit(old(buckets), key, limits, now)
    {
      var bucket: Bucket;
      if key in buckets {
        bucket := new Bucket.Borrow(buckets[key].limits, buckets[key].state);
      } else {
        bucket := new Bucket(limits, created);
        CreationInstantIsIrrelevant(limits, created, now);
      }
      ok := bucket.Check(now);
      buckets := buckets[key := Entry(bucket.limits, State(bucket.tokens, bucket.lastReplenished))];
    }

    /** One use of the map, as `RateLimiter::check` and `check_group` make it. */
    method Use(key: string, limits: Limits, now: real, created: real, policy: Policy) returns (ok: bool)
      requires ValidLimits(limits)
      modifies this
      ensures Step(limits, policy, old(Snap()), Call(key, now), Snap(), ok)
    {
      if NeedsSweep(|buckets|, lastSweep, now, policy) {
        Sweep(now, policy);
      }
      ghost var mid := buckets;
      ok := Touch(key, limits, now, created);
      assert Hit(mid, key, limits, now) == (buckets, ok);
    }
  }

  /** However many keys are used, the map never holds more than one bucket above its limit. */
  lemma UseKeepsTheSizeBound(t: Table, lastSweep: real, key: string, limits: Limits, now: real, policy: Policy,
                             after: Table, sweptAt: real, ok: bool)
    requires Used(t, lastSweep, key, limits, now, policy, after, sweptAt, ok)
    ensures |after| <= policy.maxBuckets + 1
  {
    var mid := t;
    if NeedsSweep(|t|, lastSweep, now, policy) {
      mid :| Swept(t, now, policy, mid) && Hit(mid, key, limits, now) == (after, ok);
    }
    AtMostOneMore(mid, key, after[key]);
  }

  // ----- Whole runs of uses with one limit -----

  /** A run of the real map: from empty, one use after another, sweeps included. */
  ghost predicate Run(limits: Limits, policy: Policy, calls: seq<Call>, states: seq<Snapshot>, answers: seq<bool>) {
    && |states| == |calls| + 1 && |answers| == |calls|
    && states[0].table == map[]
    && forall i :: 0 <= i < |calls| ==> Step(limits, policy, states[i], calls[i], states[i + 1], answers[i])
  }

  ghost predicate ClockForward(calls: seq<Call>) {
    forall i, j :: 0 <= i < j < |calls| ==> calls[i].now <= calls[j].now
  }

  /** No sweep of the run had to drop live buckets for want of room. */
  ghost predicate NoCapacityEviction(policy: Policy, calls: seq<Call>, states: seq<Snapshot>)
    requires |states| == |calls| + 1
  {
    forall i :: 0 <= i < |calls| ==> |Live(states[i].table, calls[i].now, policy)| <= policy.maxBuckets
  }

  /** The times of the calls made with one key. */
  ghost function TimesOf(calls: seq<Call>, key: string): seq<real> {
    if calls == [] then []
    else
      var n := |calls| - 1;
      TimesOf(calls[..n], key) + if calls[n].key == key then [calls[n].now] else []
  }

  /** A bucket idle for longer than `staleAfter` refills completely in that time. */
  ghost predicate StaleMeansFull(limits: Limits, policy: Policy) {
    limits.burst <= limits.rate * policy.staleAfter
  }

  lemma {:induction false} TimesAreOrdered(calls: seq<Call>, key: string, now: real)
    requires ClockForward(calls) && forall i :: 0 <= i < |calls| ==> calls[i].now <= now
    ensures NonDecreasing(TimesOf(calls, key))
    ensures forall i :: 0 <= i < |TimesOf(calls, key)| ==> TimesOf(calls, key)[i] <= now
  {
    if calls != [] {
      TimesAreOrdered(calls[..|calls| - 1], key, calls[|calls| - 1].now);
    }
  }

  /** What the map remembers, set against one everlasting bucket per key: a bucket it
      holds is in the everlasting bucket's state, and a key it has forgotten has an
      everlasting bucket that is full again by `now`. */
  ghost predicate Agrees(limits: Limits, calls: seq<Call>, t: Table, now: real, key: string) {
    var ts := TimesOf(calls, key);
    if key in t then
      ts != [] && t[key] == Entry(limits, After(limits, ts))
    else
      ts != [] ==> Replenished(After(limits, ts), limits, now).tokens == limits.burst
  }

  lemma LaterIsStillFull(limits: Limits, s: State, now: real, later: real)
    requires ValidLimits(limits) && s.last <= now <= later && s.tokens <= limits.burst
    requires Replenished(s, limits, now).tokens == limits.burst
    ensures Replenished(s, limits, later).tokens == limits.burst
  {
    assert Gained(limits, s.last, later) == Gained(limits, s.last, now) + Gained(limits, now, later);
  }

  lemma StaleIsFull(limits: Limits, policy: Policy, s: State, now: real)
    requires ValidLimits(limits) && StaleMeansFull(limits, policy) && s.tokens >= 0.0
    requires !IsLive(s.last, now, policy)
    ensures Replenished(s, limits, now).tokens == limits.burst
  {
    assert limits.rate * policy.staleAfter <= Gained(limits, s.last, now);
  }

  /** Sweeping keeps the agreement. */
  lemma SweepAgrees(limits: Limits, policy: Policy, calls: seq<Call>, t: Table, now: real, mid: Table, key: string)
    requires ValidLimits(limits) && StaleMeansFull(limits, policy)
    requires Agrees(limits, calls, t, now, key)
    requires mid == t || mid == Live(t, now, policy)
    ensures Agrees(limits, calls, mid, now, key)
  {
    if key in t && key !in mid {
      TokensInRange(limits, TimesOf(calls, key));
      StaleIsFull(limits, policy, t[key].state, now);
    }
  }

  lemma TimesOfSnoc(calls: seq<Call>, c: Call, key: string)
    ensures TimesOf(calls + [c], key) == TimesOf(calls, key) + if c.key == key then [c.now] else []
  {
    assert (calls + [c])[..|calls|] == calls;
  }

  lemma AfterSnoc(limits: Limits, ts: seq<real>, now: real)
    ensures After(limits, ts + [now]) == Checked(Met(limits, ts, now), limits, now).0
  {
    assert (ts + [now])[..|ts|] == ts;
  }

  /** A forgotten bucket that is full again answers as a new one does. */
  lemma EntryAgrees(limits: Limits, calls: seq<Call>, mid: Table, c: Call)
    requires ValidLimits(limits) && Agrees(limits, calls, mid, c.now, c.key)
    ensures var entry := if c.key in mid then mid[c.key] else Entry(limits, State(limits.burst, c.now));
            && entry.limits == limits
            && Checked(entry.state, limits, c.now)
               == Checked(Met(limits, TimesOf(calls, c.key), c.now), limits, c.now)
  {
    assert Replenished(State(limits.burst, c.now), limits, c.now).tokens == limits.burst;
  }

  lemma HitAgrees(limits: Limits, calls: seq<Call>, mid: Table, c: Call, key: string)
    requires ValidLimits(limits)
    requires Agrees(limits, calls, mid, c.now, key) && Agrees(limits, calls, mid, c.now, c.key)
    ensures var (after, ok) := Hit(mid, c.key, limits, c.now);
            && ok == Admits(limits, TimesOf(calls, c.key), c.now)
            && Agrees(limits, calls + [c], after, c.now, key)
  {
    EntryAgrees(limits, calls, mid, c);
    TimesOfSnoc(calls, c, key);
    assert TimesOf(calls, key) + [] == TimesOf(calls, key);
    AfterSnoc(limits, TimesOf(calls, c.key), c.now);
  }

  lemma UsedWithoutEviction(limits: Limits, policy: Policy, s: Snapshot, c: Call, s': Snapshot, ok: bool)
    returns (mid: Table)
    requires Step(limits, policy, s, c, s', ok)
    requires |Live(s.table, c.now, policy)| <= policy.maxBuckets
    ensures mid == s.table || mid == Live(s.table, c.now, policy)
    ensures Hit(mid, c.key, limits, c.now) == (s'.table, ok)
  {
    if NeedsSweep(|s.table|, s.lastSweep, c.now, policy) {
      var live := Live(s.table, c.now, policy);
      mid :| Swept(s.table, c.now, policy, mid) && Hit(mid, c.key, limits, c.now) == (s'.table, ok);
      NothingEvicted(Age(), live, policy.maxBuckets, mid);
    } else {
      mid := s.table;
    }
  }

  lemma StepAgrees(limits: Limits, policy: Policy, calls: seq<Call>, s: Snapshot, c: Call, s': Snapshot, ok: bool,
                   key: string)
    requires ValidLimits(limits) && StaleMeansFull(limits, policy)
    requires Step(limits, policy, s, c, s', ok) && |Live(s.table, c.now, policy)| <= policy.maxBuckets
    requires Agrees(limits, calls, s.table, c.now, key) && Agrees(limits, calls, s.table, c.now, c.key)
    ensures ok == Admits(limits, TimesOf(calls, c.key), c.now)
    ensures Agrees(limits, calls + [c], s'.table, c.now, key)
  {
    var mid := UsedWithoutEviction(limits, policy, s, c, s', ok);
    SweepAgrees(limits, policy, calls, s.table, c.now, mid, key);
    SweepAgrees(limits, policy, calls, s.table, c.now, mid, c.key);
    HitAgrees(limits, calls, mid, c, key);
  }

  lemma StaysInAgreement(limits: Limits, calls: seq<Call>, t: Table, now: real, later: real, key: string)
    requires ValidLimits(limits) && ClockForward(calls) && now <= later
    requires forall i :: 0 <= i < |calls| ==> calls[i].now <= now
    requires Agrees(limits, calls, t, now, key)
    ensures Agrees(limits, calls, t, later, key)
  {
    var ts := TimesOf(calls, key);
    if key !in t && ts != [] {
      TimesAreOrdered(calls, key, now);
      TokensInRange(limits, ts);
      LaterIsStillFull(limits, After(limits, ts), now, later);
    }
  }

  lemma RunPrefix(limits: Limits, policy: Policy, calls: seq<Call>, states: seq<Snapshot>, answers: seq<bool>, n: nat)
    requires Run(limits, policy, calls, states, answers) && NoCapacityEviction(policy, calls, states)
    requires ClockForward(calls) && n <= |calls|
    ensures Run(limits, policy, calls[..n], states[..n + 1], answers[..n])
    ensures NoCapacityEviction(policy, calls[..n], states[..n + 1]) && ClockForward(calls[..n])
  {
  }

  lemma {:induction false} RunAgrees(limits: Limits, policy: Policy, calls: seq<Call>, states: seq<Snapshot>,
                                     answers: seq<bool>, now: real, key: string)
    requires ValidLimits(limits) && StaleMeansFull(limits, policy)
    requires Run(limits, policy, calls, states, answers) && NoCapacityEviction(policy, calls, states)
    requires ClockForward(calls) && forall i :: 0 <= i < |calls| ==> calls[i].now <= now
    ensures Agrees(limits, calls, states[|calls|].table, now, key)
  {
    if calls != [] {
      var n := |calls| - 1;
      var c := calls[n];
      RunPrefix(limits, policy, calls, states, answers, n);
      RunAgrees(limits, policy, calls[..n], states[..n + 1], answers[..n], c.now, key);
      RunAgrees(limits, policy, calls[..n], states[..n + 1], answers[..n], c.now, c.key);
      AgreesOneMore(limits, policy, calls, states, answers, now, key);
    }
  }

  lemma AgreesOneMore(limits: Limits, policy: Policy, calls: seq<Call>, states: seq<Snapshot>, answers: seq<bool>,
                      now: real, key: string)
    requires ValidLimits(limits) && StaleMeansFull(limits, policy) && calls != []
    requires Run(limits, policy, calls, states, answers) && NoCapacityEviction(policy, calls, states)
    requires ClockForward(calls) && calls[|calls| - 1].now <= now
    requires var n := |calls| - 1; var c := calls[n];
             Agrees(limits, calls[..n], states[n].table, c.now, key) && Agrees(limits, calls[..n], states[n].table, c.now, c.key)
    ensures Agrees(limits, calls, states[|calls|].table, now, key)
  {
    var n := |calls| - 1;
    var c := calls[n];
    assert calls[..n] + [c] == calls;
    assert Step(limits, policy, states[n], c, states[n + 1], answers[n]);
    StepAgrees(limits, policy, calls[..n], states[n], c, states[n + 1], answers[n], key);
    StaysInAgreement(limits, calls, states[n + 1].table, c.now, now, key);
  }

  /** Forgetting is invisible: along every run without capacity eviction, each answer is
      the one an everlasting bucket for that key would have given. */
  lemma SweepingIsInvisible(limits: Limits, policy: Policy, calls: seq<Call>, states: seq<Snapshot>,
                            answers: seq<bool>, i: nat)
    requires ValidLimits(limits) && StaleMeansFull(limits, policy)
    requires Run(limits, policy, calls, states, answers) && NoCapacityEviction(policy, calls, states)
    requires ClockForward(calls) && i < |calls|
    ensures answers[i] == Admits(limits, TimesOf(calls[..i], calls[i].key), calls[i].now)
  {
    var c := calls[i];
    RunPrefix(limits, policy, calls, states, answers, i);
    RunAgrees(limits, policy, calls[..i], states[..i + 1], answers[..i], c.now, c.key);
    assert states[..i + 1][i] == states[i];
    StepAgrees(limits, policy, calls[..i], states[i], c, states[i + 1], answers[i], c.key);
  }

  // ----- The map among other events -----

  /** An event of a run that may or may not use the map. */
  datatype Use = Use(used: bool, call: Call, ok: bool)

  ghost predicate UsesRun(limits: Limits, policy: Policy, uses: seq<Use>, states: seq<Snapshot>) {
    && |states| == |uses| + 1 && states[0].table == map[]
    && forall i :: 0 <= i < |uses| ==>
         if uses[i].used then Step(limits, policy, states[i], uses[i].call, states[i + 1], uses[i].ok)
         else states[i + 1] == states[i]
  }

  /** Stale buckets are full ones, the uses come in the order of their times, and no live bucket is dropped for want of room. */
  ghost predicate Orderly(limits: Limits, policy: Policy, uses: seq<Use>, states: seq<Snapshot>)
    requires |states| == |uses| + 1
  {
    && ValidLimits(limits) && StaleMeansFull(limits, policy)
    && (forall i, j :: 0 <= i < j < |uses| && uses[i].used && uses[j].used ==> uses[i].call.now <= uses[j].call.now)
    && (forall i :: 0 <= i < |uses| && uses[i].used ==>
          |Live(states[i].table, uses[i].call.now, policy)| <= policy.maxBuckets)
  }

  ghost function CallsIn(uses: seq<Use>): seq<Call> {
    if uses == [] then []
    else
      var n := |uses| - 1;
      CallsIn(uses[..n]) + if uses[n].used then [uses[n].call] else []
  }

  lemma {:induction false} CallsInOrder(uses: seq<Use>, now: real)
    requires forall i, j :: 0 <= i < j < |uses| && uses[i].used && uses[j].used ==> uses[i].call.now <= uses[j].call.now
    requires forall i :: 0 <= i < |uses| && uses[i].used ==> uses[i].call.now <= now
    ensures ClockForward(CallsIn(uses))
    ensures forall i :: 0 <= i < |CallsIn(uses)| ==> CallsIn(uses)[i].now <= now
  {
    if uses != [] {
      var n := |uses| - 1;
      CallsInOrder(uses[..n], if uses[n].used then uses[n].call.now else now);
    }
  }

  /** Appending one use to a run of a bucket map. */
  lemma ExtendRun(limits: Limits, policy: Policy, calls: seq<Call>, states: seq<Snapshot>, answers: seq<bool>,
                  c: Call, s: Snapshot, ok: bool)
    requires Run(limits, policy, calls, states, answers) && NoCapacityEviction(policy, calls, states)
    requires Step(limits, policy, states[|calls|], c, s, ok)
    requires |Live(states[|calls|].table, c.now, policy)| <= policy.maxBuckets
    ensures Run(limits, policy, calls + [c], states + [s], answers + [ok])
    ensures NoCapacityEviction(policy, calls + [c], states + [s])
  {
  }

  lemma Prefix(limits: Limits, policy: Policy, uses: seq<Use>, states: seq<Snapshot>, n: nat)
    requires UsesRun(limits, policy, uses, states) && Orderly(limits, policy, uses, states) && n <= |uses|
    ensures UsesRun(limits, policy, uses[..n], states[..n + 1]) && Orderly(limits, policy, uses[..n], states[..n + 1])
  {
  }

  /** The uses alone are a run of the map. */
  lemma {:induction false} UsesAreARun(limits: Limits, policy: Policy, uses: seq<Use>, states: seq<Snapshot>)
    returns (own: seq<Snapshot>, answers: seq<bool>)
    requires UsesRun(limits, policy, uses, states) && Orderly(limits, policy, uses, states)
    ensures Run(limits, policy, CallsIn(uses), own, answers) && NoCapacityEviction(policy, CallsIn(uses), own)
    ensures own[|CallsIn(uses)|] == states[|uses|]
    ensures uses != [] && uses[|uses| - 1].used ==> answers != [] && answers[|answers| - 1] == uses[|uses| - 1].ok
  {
    if uses == [] {
      own, answers := [states[0]], [];
    } else {
      var n := |uses| - 1;
      var calls, last := CallsIn(uses[..n]), states[n + 1];
      Prefix(limits, policy, uses, states, n);
      own, answers := UsesAreARun(limits, policy, uses[..n], states[..n + 1]);
      if uses[n].used {
        ExtendRun(limits, policy, calls, own, answers, uses[n].call, last, uses[n].ok);
        own, answers := own + [last], answers + [uses[n].ok];
        assert CallsIn(uses) == calls + [uses[n].call];
      } else {
        assert CallsIn(uses) == calls;
      }
    }
  }

  lemma LastAnswer(limits: Limits, policy: Policy, uses: seq<Use>, states: seq<Snapshot>)
    requires UsesRun(limits, policy, uses, states) && Orderly(limits, policy, uses, states)
    requires uses != [] && uses[|uses| - 1].used
    ensures var n := |uses| - 1;
            uses[n].ok == Admits(limits, TimesOf(CallsIn(uses[..n]), uses[n].call.key), uses[n].call.now)
  {
    var n := |uses| - 1;
    var own, answers := UsesAreARun(limits, policy, uses, states);
    var earlier := CallsIn(uses[..n]);
    assert CallsIn(uses) == earlier + [uses[n].call] && CallsIn(uses)[..|earlier|] == earlier;
    CallsInOrder(uses, uses[n].call.now);
    SweepingIsInvisible(limits, policy, CallsIn(uses), own, answers, |earlier|);
  }

  /** Every answer is that of an everlasting bucket. */
  lemma AnswersAsItsBucket(limits: Limits, policy: Policy, uses: seq<Use>, states: seq<Snapshot>, i: nat)
    requires UsesRun(limits, policy, uses, states) && Orderly(limits, policy, uses, states) && i < |uses| && uses[i].used
    ensures uses[i].ok == Admits(limits, TimesOf(CallsIn(uses[..i]), uses[i].call.key), uses[i].call.now)
  {
    Prefix(limits, policy, uses, states, i + 1);
    LastAnswer(limits, policy, uses[..i + 1], states[..i + 2]);
    assert uses[..i + 1][..i] == uses[..i];
  }

  /** A use is let pass exactly when that fits every window of its key's earlier uses. */
  lemma PassesExactlyWhenItFits(limits: Limits, policy: Policy, uses: seq<Use>, states: seq<Snapshot>, i: nat)
    requires UsesRun(limits, policy, uses, states) && Orderly(limits, policy, uses, states) && i < |uses| && uses[i].used
    ensures var ts := TimesOf(CallsIn(uses[..i]), uses[i].call.key);
            uses[i].ok <==> FitsEveryWindow(limits, ts, Answers(limits, ts), uses[i].call.now)
  {
    var c := uses[i].call;
    AnswersAsItsBucket(limits, policy, uses, states, i);
    CallsInOrder(uses[..i], c.now);
    TimesAreOrdered(CallsIn(uses[..i]), c.key, c.now);
    AdmitsExactlyWhatFits(limits, TimesOf(CallsIn(uses[..i]), c.key), c.now);
  }

  // ----- Counting -----

  /** How many uses of one key are let pass between two instants. */
  ghost function Passed(uses: seq<Use>, key: string, start: real, end: real): nat {
    if uses == [] then 0
    else
      var n := |uses| - 1;
      Passed(uses[..n], key, start, end) + if PassesWithin(uses[n], key, start, end) then 1 else 0
  }

  ghost predicate PassesWithin(u: Use, key: string, start: real, end: real) {
    u.used && u.ok && u.call.key == key && start <= u.call.now <= end
  }

  /** How many of one key's calls an everlasting bucket admits between two instants. */
  ghost function KeyCount(limits: Limits, calls: seq<Call>, key: string, start: real, end: real): nat {
    CountBetween(TimesOf(calls, key), Answers(limits, TimesOf(calls, key)), start, end)
  }

  lemma CountSnoc(ts: seq<real>, d: seq<bool>, t: real, ok: bool, start: real, end: real)
    requires |d| == |ts|
    ensures CountBetween(ts + [t], d + [ok], start, end)
            == CountBetween(ts, d, start, end) + if ok && start <= t <= end then 1 else 0
  {
    assert (ts + [t])[..|ts|] == ts && (d + [ok])[..|d|] == d;
  }

  lemma OtherKeyCount(limits: Limits, calls: seq<Call>, c: Call, key: string, start: real, end: real)
    requires c.key != key
    ensures KeyCount(limits, calls + [c], key, start, end) == KeyCount(limits, calls, key, start, end)
  {
    TimesOfSnoc(calls, c, key);
    assert TimesOf(calls, key) + [] == TimesOf(calls, key);
  }

  lemma OwnKeyCount(limits: Limits, calls: seq<Call>, c: Call, start: real, end: real)
    ensures var ok := Admits(limits, TimesOf(calls, c.key), c.now);
            KeyCount(limits, calls + [c], c.key, start, end)
            == KeyCount(limits, calls, c.key, start, end) + if ok && start <= c.now <= end then 1 else 0
  {
    var ts := TimesOf(calls, c.key);
    TimesOfSnoc(calls, c, c.key);
    assert (ts + [c.now])[..|ts|] == ts;
    CountSnoc(ts, Answers(limits, ts), c.now, Admits(limits, ts, c.now), start, end);
  }

  lemma KeyCountSnoc(limits: Limits, calls: seq<Call>, c: Call, key: string, start: real, end: real)
    ensures KeyCount(limits, calls + [c], key, start, end)
            == KeyCount(limits, calls, key, start, end)
               + if c.key == key && Admits(limits, TimesOf(calls, c.key), c.now) && start <= c.now <= end then 1 else 0
  {
    if c.key == key {
      OwnKeyCount(limits, calls, c, start, end);
    } else {
      OtherKeyCount(limits, calls, c, key, start, end);
    }
  }

  lemma {:induction false} PassedIsItsBucket(limits: Limits, policy: Policy, uses: seq<Use>, states: seq<Snapshot>,
                                             key: string, start: real, end: real)
    requires UsesRun(limits, policy, uses, states) && Orderly(limits, policy, uses, states)
    ensures Passed(uses, key, start, end) == KeyCount(limits, CallsIn(uses), key, start, end)
  {
    if uses != [] {
      var n := |uses| - 1;
      Prefix(limits, policy, uses, states, n);
      PassedIsItsBucket(limits, policy, uses[..n], states[..n + 1], key, start, end);
      if uses[n].used {
        LastAnswer(limits, policy, uses, states);
        KeyCountSnoc(limits, CallsIn(uses[..n]), uses[n].call, key, start, end);
      } else {
        assert CallsIn(uses) == CallsIn(uses[..n]);
      }
    }
  }

  /** Some instant no use comes after. */
  lemma {:induction false} LatestUse(uses: seq<Use>) returns (latest: real)
    ensures forall i :: 0 <= i < |uses| ==> uses[i].call.now <= latest
  {
    latest := 0.0;
    if uses != [] {
      var n := |uses| - 1;
      latest := LatestUse(uses[..n]);
      if latest < uses[n].call.now {
        latest := uses[n].call.now;
      }
    }
  }

  /** In every window, at most the allowance of one key is let pass. */
  lemma WindowsHold(limits: Limits, policy: Policy, uses: seq<Use>, states: seq<Snapshot>, key: string, start: real, end: real)
    requires UsesRun(limits, policy, uses, states) && Orderly(limits, policy, uses, states) && start <= end
    ensures Passed(uses, key, start, end) as real <= Allowance(limits, start, end)
  {
    var latest := LatestUse(uses);
    CallsInOrder(uses, latest);
    TimesAreOrdered(CallsIn(uses), key, latest);
    PassedIsItsBucket(limits, policy, uses, states, key, start, end);
    EveryWindowIsBounded(limits, TimesOf(CallsIn(uses), key), start, end);
  }
}

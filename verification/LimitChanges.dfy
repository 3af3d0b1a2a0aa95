/** What changing a map's limits while it is in use does to the buckets it has. */
module LimitChanges {
  import opened Clock
  import opened TokenBucket
  import opened BucketMaps
  import opened Eviction

  /** The sweep of this use, if one is due, leaves the bucket of this key alone. */
  ghost predicate Spared(s: Snapshot, now: real, policy: Policy, key: string) {
    key in s.table
    && (|s.table| > policy.maxBuckets || Elapsed(s.lastSweep, now) >= policy.staleAfter ==>
          Elapsed(s.table[key].state.last, now) <= policy.staleAfter)
  }

  /** What a use leaves when nothing is dropped for want of room. */
  ghost function Outcome(limits: Limits, policy: Policy, s: Snapshot, c: Call): (Snapshot, bool) {
    if NeedsSweep(|s.table|, s.lastSweep, c.now, policy) then
      var (after, ok) := Hit(Live(s.table, c.now, policy), c.key, limits, c.now);
      (Snapshot(after, c.now), ok)
    else
      var (after, ok) := Hit(s.table, c.key, limits, c.now);
      (Snapshot(after, s.lastSweep), ok)
  }

  lemma StepIsOutcome(limits: Limits, policy: Policy, s: Snapshot, c: Call, s': Snapshot, ok: bool)
    requires |Live(s.table, c.now, policy)| <= policy.maxBuckets
    ensures Step(limits, policy, s, c, s', ok) <==> Outcome(limits, policy, s, c) == (s', ok)
  {
    var live := Live(s.table, c.now, policy);
    if Step(limits, policy, s, c, s', ok) && NeedsSweep(|s.table|, s.lastSweep, c.now, policy) {
      var mid :| Swept(s.table, c.now, policy, mid) && Hit(mid, c.key, limits, c.now) == (s'.table, ok);
      NothingEvicted(Age(), live, policy.maxBuckets, mid);
    }
    assert Swept(s.table, c.now, policy, live);
  }

  /** A call under new limits is answered, and leaves the map, as under the old ones exactly when the key has a bucket and
      the sweep spares it. */
  lemma SameExactlyWhenSpared(limits: Limits, limits': Limits, policy: Policy, s: Snapshot, c: Call)
    requires limits != limits' && |Live(s.table, c.now, policy)| <= policy.maxBuckets
    ensures (forall s', ok :: Step(limits, policy, s, c, s', ok) <==> Step(limits', policy, s, c, s', ok))
            <==> Spared(s, c.now, policy, c.key)
  {
    var (s1, ok1) := Outcome(limits, policy, s, c);
    StepIsOutcome(limits, policy, s, c, s1, ok1);
    StepIsOutcome(limits', policy, s, c, s1, ok1);
    if Spared(s, c.now, policy, c.key) {
      assert Outcome(limits, policy, s, c) == Outcome(limits', policy, s, c);
      forall s', ok
        ensures Step(limits, policy, s, c, s', ok) <==> Step(limits', policy, s, c, s', ok)
      {
        StepIsOutcome(limits, policy, s, c, s', ok);
        StepIsOutcome(limits', policy, s, c, s', ok);
      }
    } else {
      assert s1.table[c.key].limits == limits;
      assert Outcome(limits', policy, s, c).0.table[c.key].limits == limits';
    }
  }

  // ----- Whole runs under changing limits -----

  /** A run of the map where each call finds the limits set at that time. */
  ghost predicate ChangingRun(ls: seq<Limits>, policy: Policy, calls: seq<Call>, states: seq<Snapshot>, answers: seq<bool>) {
    && |ls| == |calls| && |states| == |calls| + 1 && |answers| == |calls| && states[0].table == map[]
    && forall i :: 0 <= i < |calls| ==> Step(ls[i], policy, states[i], calls[i], states[i + 1], answers[i])
  }

  lemma SparedKeepsItsLimits(limits: Limits, policy: Policy, s: Snapshot, c: Call, s': Snapshot, ok: bool, key: string)
    requires Step(limits, policy, s, c, s', ok) && |Live(s.table, c.now, policy)| <= policy.maxBuckets
    requires Spared(s, c.now, policy, key)
    ensures key in s'.table && s'.table[key].limits == s.table[key].limits
    ensures c.key == key ==> Step(s.table[key].limits, policy, s, c, s', ok)
  {
    StepIsOutcome(limits, policy, s, c, s', ok);
    StepIsOutcome(s.table[key].limits, policy, s, c, s', ok);
    if c.key == key {
      assert Outcome(limits, policy, s, c) == Outcome(s.table[key].limits, policy, s, c);
    }
  }

  /** As long as no sweep takes a bucket, its limits and all its answers stay those it was made with, whatever limits are
      set meanwhile. */
  lemma {:induction false} OldLimitsUntilSwept(ls: seq<Limits>, policy: Policy, calls: seq<Call>, states: seq<Snapshot>,
                                               answers: seq<bool>, i: nat, j: nat, key: string)
    requires ChangingRun(ls, policy, calls, states, answers) && NoCapacityEviction(policy, calls, states)
    requires i <= j < |calls| && key in states[i].table
    requires forall k :: i <= k <= j && key in states[k].table ==> Spared(states[k], calls[k].now, policy, key)
    ensures key in states[j].table && states[j].table[key].limits == states[i].table[key].limits
    ensures calls[j].key == key ==>
              Step(states[i].table[key].limits, policy, states[j], calls[j], states[j + 1], answers[j])
    decreases j
  {
    if i < j {
      OldLimitsUntilSwept(ls, policy, calls, states, answers, i, j - 1, key);
      SparedKeepsItsLimits(ls[j - 1], policy, states[j - 1], calls[j - 1], states[j], answers[j - 1], key);
    }
    SparedKeepsItsLimits(ls[j], policy, states[j], calls[j], states[j + 1], answers[j], key);
  }

  /** After that, the next call makes one with the limits of its own time. */
  lemma NewLimitsOnceSwept(ls: seq<Limits>, policy: Policy, calls: seq<Call>, states: seq<Snapshot>, answers: seq<bool>, j: nat)
    requires ChangingRun(ls, policy, calls, states, answers) && NoCapacityEviction(policy, calls, states) && j < |calls|
    requires !Spared(states[j], calls[j].now, policy, calls[j].key)
    ensures calls[j].key in states[j + 1].table && states[j + 1].table[calls[j].key].limits == ls[j]
    ensures answers[j] <==> ls[j].burst >= 1.0
  {
    StepIsOutcome(ls[j], policy, states[j], calls[j], states[j + 1], answers[j]);
  }

  // ----- How long a bucket may stay -----

  /** No bucket is older than the last sweep allows, and the last sweep is less than `staleAfter` ago. */
  ghost predicate Recent(policy: Policy, s: Snapshot, now: real) {
    && s.lastSweep <= now && now - s.lastSweep < policy.staleAfter
    && forall k :: k in s.table ==> s.lastSweep - policy.staleAfter <= s.table[k].state.last <= now
  }

  ghost predicate YoungerThan(s: Snapshot, now: real, age: real) {
    forall k :: k in s.table ==> now - s.table[k].state.last < age
  }

  lemma UseLeavesRecent(limits: Limits, policy: Policy, s: Snapshot, c: Call, s': Snapshot, ok: bool)
    requires Step(limits, policy, s, c, s', ok) && policy.staleAfter > 0.0
    requires s.lastSweep <= c.now
    requires forall k :: k in s.table ==> s.lastSweep - policy.staleAfter <= s.table[k].state.last <= c.now
    ensures Recent(policy, s', c.now)
  {
    var mid := s.table;
    if NeedsSweep(|s.table|, s.lastSweep, c.now, policy) {
      mid :| Swept(s.table, c.now, policy, mid) && Hit(mid, c.key, limits, c.now) == (s'.table, ok);
      forall k | k in mid
        ensures c.now - policy.staleAfter <= mid[k].state.last <= c.now
      {
        assert k in Live(s.table, c.now, policy);
      }
    }
  }

  /** After every call each bucket was last used less than twice `staleAfter` ago, however few there are. */
  lemma {:induction false} NoBucketGrowsOld(ls: seq<Limits>, policy: Policy, calls: seq<Call>, states: seq<Snapshot>,
                                            answers: seq<bool>, i: nat)
    requires ChangingRun(ls, policy, calls, states, answers) && ClockForward(calls) && policy.staleAfter > 0.0
    requires i < |calls| && states[0].lastSweep <= calls[0].now
    ensures Recent(policy, states[i + 1], calls[i].now)
    ensures YoungerThan(states[i + 1], calls[i].now, 2.0 * policy.staleAfter)
  {
    if i > 0 {
      NoBucketGrowsOld(ls, policy, calls, states, answers, i - 1);
    }
    assert Step(ls[i], policy, states[i], calls[i], states[i + 1], answers[i]);
    UseLeavesRecent(ls[i], policy, states[i], calls[i], states[i + 1], answers[i]);
  }

  /** So a key that has not been used for that long gets a bucket with the limits of its next call. */
  lemma IdleKeyGetsNewLimits(ls: seq<Limits>, policy: Policy, calls: seq<Call>, states: seq<Snapshot>, answers: seq<bool>, j: nat)
    requires ChangingRun(ls, policy, calls, states, answers) && NoCapacityEviction(policy, calls, states)
    requires ClockForward(calls) && policy.staleAfter > 0.0 && j < |calls| && states[0].lastSweep <= calls[0].now
    requires calls[j].key in states[j].table ==>
               calls[j].now - states[j].table[calls[j].key].state.last >= 2.0 * policy.staleAfter
    ensures calls[j].key in states[j + 1].table && states[j + 1].table[calls[j].key].limits == ls[j]
    ensures answers[j] <==> ls[j].burst >= 1.0
  {
    if j > 0 {
      NoBucketGrowsOld(ls, policy, calls, states, answers, j - 1);
    }
    NewLimitsOnceSwept(ls, policy, calls, states, answers, j);
  }

  // ----- Runs that show it -----

  lemma TwoCalls(l0: Limits, l1: Limits, policy: Policy, c0: Call, c1: Call, s0: Snapshot, s1: Snapshot, s2: Snapshot,
                 ok0: bool, ok1: bool)
    requires s0.table == map[] && Step(l0, policy, s0, c0, s1, ok0) && Step(l1, policy, s1, c1, s2, ok1)
    ensures ChangingRun([l0, l1], policy, [c0, c1], [s0, s1, s2], [ok0, ok1])
  {
  }

  /** A map whose only bucket has just been emptied. */
  ghost function Emptied(limits: Limits, key: string): Snapshot {
    Snapshot(map[key := Entry(limits, State(0.0, 0.0))], 0.0)
  }

  lemma FirstCallEmpties(limits: Limits, policy: Policy, key: string)
    requires limits.burst == 1.0 && policy.staleAfter > 0.0
    ensures Step(limits, policy, Snapshot(map[], 0.0), Call(key, 0.0), Emptied(limits, key), true)
  {
    var empty: Table := map[];
    assert |empty| == 0;
    assert Min(1.0 + Gained(limits, 0.0, 0.0), limits.burst) == 1.0;
    assert Hit(empty, key, limits, 0.0) == (Emptied(limits, key).table, true);
  }

  lemma NextCallIsRefused(before: Limits, raised: Limits, policy: Policy, key: string, now: real) returns (s: Snapshot)
    requires before.burst == 1.0 && 0.0 <= now < policy.staleAfter && policy.maxBuckets >= 1 && Gained(before, 0.0, now) < 1.0
    ensures Step(raised, policy, Emptied(before, key), Call(key, now), s, false)
  {
    var (t, ok) := Hit(Emptied(before, key).table, key, raised, now);
    assert |Emptied(before, key).table| == 1;
    s := Snapshot(t, 0.0);
  }

  /** A bucket for one call is empty when the limits are raised. A later call that its tokens, refilling at the new rate,
      would pay for is refused as long as the old rate does not. */
  lemma ExistingBucketKeepsItsRate(before: Limits, raised: Limits, policy: Policy, key: string, now: real)
    returns (states: seq<Snapshot>)
    requires before.burst == 1.0 && raised.burst >= 1.0 && 0.0 <= now < policy.staleAfter && policy.maxBuckets >= 1
    requires Gained(before, 0.0, now) < 1.0 <= Gained(raised, 0.0, now)
    ensures ChangingRun([before, raised], policy, [Call(key, 0.0), Call(key, now)], states, [true, false])
    ensures key in states[1].table && Checked(states[1].table[key].state, raised, now).1
  {
    FirstCallEmpties(before, policy, key);
    var s := NextCallIsRefused(before, raised, policy, key, now);
    states := [Snapshot(map[], 0.0), Emptied(before, key), s];
    TwoCalls(before, raised, policy, Call(key, 0.0), Call(key, now), states[0], states[1], s, true, false);
  }
}

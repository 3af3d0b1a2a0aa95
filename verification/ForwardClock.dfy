/** What a bucket map lets pass when its lock is not taken in the order of the callers' times.

    Callers read the clock before they wait for the lock, so a later time may come first. Every step forwards then
    earns tokens again; the bound counts exactly the steps forwards, and asks for no order. */
module ForwardClock {
  import opened Clock
  import opened TokenBucket
  import opened BucketMaps

  /** Stale buckets are full ones, and no live bucket is dropped for want of room. Of the order of the times nothing is asked. */
  ghost predicate Roomy(limits: Limits, policy: Policy, uses: seq<Use>, states: seq<Snapshot>)
    requires |states| == |uses| + 1
  {
    && ValidLimits(limits) && StaleMeansFull(limits, policy)
    && forall i :: 0 <= i < |uses| && uses[i].used ==>
         |Live(states[i].table, uses[i].call.now, policy)| <= policy.maxBuckets
  }

  /** The times of the uses, under whatever keys. */
  ghost function TimesIn(uses: seq<Use>): seq<real> {
    if uses == [] then []
    else
      var n := |uses| - 1;
      TimesIn(uses[..n]) + if uses[n].used then [uses[n].call.now] else []
  }

  /** The time of the last use, or `first` before any. */
  ghost function LastUse(uses: seq<Use>, first: real): real {
    var ts := TimesIn(uses);
    if ts == [] then first else ts[|ts| - 1]
  }

  /** How far a use's time is ahead of that of the use before it, under whatever key. */
  ghost function StepForward(uses: seq<Use>, u: Use): real {
    if u.used then Elapsed(LastUse(uses, u.call.now), u.call.now) else 0.0
  }

  /** How far the times of the uses have gone forwards in all, steps back not counted. */
  ghost function Forward(uses: seq<Use>): real {
    Credit(TimesIn(uses))
  }

  lemma ForwardOneMore(uses: seq<Use>)
    requires uses != []
    ensures var n := |uses| - 1; Forward(uses) == Forward(uses[..n]) + StepForward(uses[..n], uses[n])
  {
    var n := |uses| - 1;
    var ts := TimesIn(uses[..n]);
    if uses[n].used {
      assert (ts + [uses[n].call.now])[..|ts|] == ts;
    } else {
      assert ts + [] == ts;
    }
  }

  ghost predicate Passes(u: Use, key: string) {
    u.used && u.ok && u.call.key == key
  }

  /** How many uses from position `i` on pass with this key. */
  ghost function PassedFrom(uses: seq<Use>, key: string, i: nat): nat {
    if |uses| <= i then 0
    else
      var n := |uses| - 1;
      PassedFrom(uses[..n], key, i) + if Passes(uses[n], key) then 1 else 0
  }

  // ----- A bucket that never forgets and whose clock is never set back -----

  /** What a use finds in that bucket. */
  ghost function Refreshed(limits: Limits, budget: real, uses: seq<Use>, u: Use): real {
    if u.used then Min(budget + Gained(limits, LastUse(uses, u.call.now), u.call.now), limits.burst) else budget
  }

  /** Its tokens after these uses, where it is made to pay for whatever passes. */
  ghost function Budget(limits: Limits, uses: seq<Use>, key: string): real {
    if uses == [] then limits.burst
    else
      var n := |uses| - 1;
      Refreshed(limits, Budget(limits, uses[..n], key), uses[..n], uses[n]) - if Passes(uses[n], key) then 1.0 else 0.0
  }

  /** The map's own bucket never has more, not even once it is refilled up to the last use; a key the map does not have
      is one whose bucket is full. */
  ghost predicate Covered(limits: Limits, uses: seq<Use>, t: Table, key: string) {
    var budget := Budget(limits, uses, key);
    && budget <= limits.burst
    && if key in t then
         && t[key].limits == limits && 0.0 <= t[key].state.tokens <= limits.burst
         && Min(t[key].state.tokens + Gained(limits, t[key].state.last, LastUse(uses, t[key].state.last)), limits.burst) <= budget
       else budget == limits.burst
  }

  /** A time in between earns no less. */
  lemma GainedOnTheWay(limits: Limits, a: real, b: real, c: real)
    requires ValidLimits(limits)
    ensures Gained(limits, a, c) <= Gained(limits, a, b) + Gained(limits, b, c)
  {
    assert Elapsed(a, c) <= Elapsed(a, b) + Elapsed(b, c);
    assert Elapsed(a, c) * limits.rate <= (Elapsed(a, b) + Elapsed(b, c)) * limits.rate;
  }

  /** What is left of the map by the sweep is still covered, by what the use finds in the other bucket. */
  lemma SweepCovered(limits: Limits, policy: Policy, uses: seq<Use>, t: Table, mid: Table, u: Use, key: string)
    requires ValidLimits(limits) && StaleMeansFull(limits, policy) && u.used
    requires Covered(limits, uses, t, key) && (mid == t || mid == Live(t, u.call.now, policy))
    ensures var budget := Refreshed(limits, Budget(limits, uses, key), uses, u);
            && budget <= limits.burst
            && if key in mid then
                 && mid[key].limits == limits && 0.0 <= mid[key].state.tokens <= limits.burst
                 && Replenished(mid[key].state, limits, u.call.now).tokens <= budget
               else budget == limits.burst
  {
    var now := u.call.now;
    if key in t {
      var s := t[key].state;
      GainedOnTheWay(limits, s.last, LastUse(uses, s.last), now);
      if key !in mid {
        StaleIsFull(limits, policy, s, now);
      }
    }
  }

  lemma HitCovered(limits: Limits, uses: seq<Use>, mid: Table, u: Use, key: string)
    requires ValidLimits(limits) && u.used && u.ok == Hit(mid, u.call.key, limits, u.call.now).1
    requires var budget := Refreshed(limits, Budget(limits, uses, key), uses, u);
             && budget <= limits.burst
             && if key in mid then
                  && mid[key].limits == limits && 0.0 <= mid[key].state.tokens <= limits.burst
                  && Replenished(mid[key].state, limits, u.call.now).tokens <= budget
                else budget == limits.burst
    ensures Covered(limits, uses + [u], Hit(mid, u.call.key, limits, u.call.now).0, key)
  {
    assert (uses + [u])[..|uses|] == uses;
  }

  lemma StepCovered(limits: Limits, policy: Policy, uses: seq<Use>, s: Snapshot, u: Use, s': Snapshot, key: string)
    requires ValidLimits(limits) && StaleMeansFull(limits, policy) && Covered(limits, uses, s.table, key)
    requires if u.used then Step(limits, policy, s, u.call, s', u.ok) && |Live(s.table, u.call.now, policy)| <= policy.maxBuckets
             else s' == s
    ensures Covered(limits, uses + [u], s'.table, key)
  {
    if u.used {
      var mid := UsedWithoutEviction(limits, policy, s, u.call, s', u.ok);
      SweepCovered(limits, policy, uses, s.table, mid, u, key);
      HitCovered(limits, uses, mid, u, key);
    } else {
      assert (uses + [u])[..|uses|] == uses;
    }
  }

  lemma RoomyPrefix(limits: Limits, policy: Policy, uses: seq<Use>, states: seq<Snapshot>, n: nat)
    requires UsesRun(limits, policy, uses, states) && Roomy(limits, policy, uses, states) && n <= |uses|
    ensures UsesRun(limits, policy, uses[..n], states[..n + 1]) && Roomy(limits, policy, uses[..n], states[..n + 1])
  {
  }

  lemma {:induction false} RunIsCovered(limits: Limits, policy: Policy, uses: seq<Use>, states: seq<Snapshot>, key: string)
    requires UsesRun(limits, policy, uses, states) && Roomy(limits, policy, uses, states)
    ensures Covered(limits, uses, states[|uses|].table, key)
  {
    if uses != [] {
      var n := |uses| - 1;
      RoomyPrefix(limits, policy, uses, states, n);
      RunIsCovered(limits, policy, uses[..n], states[..n + 1], key);
      StepCovered(limits, policy, uses[..n], states[n], uses[n], states[n + 1], key);
      assert uses[..n] + [uses[n]] == uses;
    }
  }

  // ----- The bound -----

  lemma RefreshedEarns(limits: Limits, budget: real, uses: seq<Use>, u: Use)
    ensures Refreshed(limits, budget, uses, u) <= budget + Share(limits.rate, StepForward(uses, u))
  {
  }

  /** Whatever has passed from position `i` on is paid for by a full bucket and by what the steps forwards have earned. */
  ghost predicate PaidFor(limits: Limits, uses: seq<Use>, key: string, i: nat)
    requires i < |uses|
  {
    PassedFrom(uses, key, i) as real + Budget(limits, uses, key)
    <= limits.burst + Share(limits.rate, Forward(uses) - Forward(uses[..i + 1]))
  }

  /** A use adds to what has passed and to the budget together at most what its step forwards earns. */
  lemma OneUseEarns(limits: Limits, uses: seq<Use>, key: string, i: nat)
    requires i < |uses| - 1
    ensures var n := |uses| - 1;
            PassedFrom(uses, key, i) as real + Budget(limits, uses, key)
            <= PassedFrom(uses[..n], key, i) as real + Budget(limits, uses[..n], key)
               + Share(limits.rate, StepForward(uses[..n], uses[n]))
  {
    var n := |uses| - 1;
    RefreshedEarns(limits, Budget(limits, uses[..n], key), uses[..n], uses[n]);
  }

  lemma ForwardSince(rate: real, uses: seq<Use>, i: nat)
    requires i < |uses| - 1
    ensures var n := |uses| - 1;
            Share(rate, Forward(uses) - Forward(uses[..i + 1]))
            == Share(rate, Forward(uses[..n]) - Forward(uses[..n][..i + 1])) + Share(rate, StepForward(uses[..n], uses[n]))
  {
    var n := |uses| - 1;
    assert uses[..n][..i + 1] == uses[..i + 1];
    ForwardOneMore(uses);
    SharesAdd(rate, Forward(uses[..n]) - Forward(uses[..i + 1]), StepForward(uses[..n], uses[n]));
  }

  lemma PaidForOneMore(limits: Limits, uses: seq<Use>, key: string, i: nat)
    requires i < |uses| - 1 && PaidFor(limits, uses[..|uses| - 1], key, i)
    ensures PaidFor(limits, uses, key, i)
  {
    OneUseEarns(limits, uses, key, i);
    ForwardSince(limits.rate, uses, i);
  }

  lemma {:induction false} PassesArePaidFor(limits: Limits, uses: seq<Use>, key: string, i: nat)
    requires ValidLimits(limits) && i < |uses|
    ensures PaidFor(limits, uses, key, i)
    decreases |uses|
  {
    var n := |uses| - 1;
    if i == n {
      assert uses[..i + 1] == uses;
      assert PassedFrom(uses[..n], key, i) == 0;
      BudgetIsCapped(limits, uses, key);
    } else {
      PassesArePaidFor(limits, uses[..n], key, i);
      PaidForOneMore(limits, uses, key, i);
    }
  }

  lemma {:induction false} BudgetIsCapped(limits: Limits, uses: seq<Use>, key: string)
    requires ValidLimits(limits)
    ensures Budget(limits, uses, key) + (if uses != [] && Passes(uses[|uses| - 1], key) then 1.0 else 0.0) <= limits.burst
  {
    if uses != [] {
      BudgetIsCapped(limits, uses[..|uses| - 1], key);
    }
  }

  /** In whatever order the times come: from any use to any later one, one key passes at most the burst and the rate times
      how far the times of the uses in between have gone forwards. */
  lemma ForwardTimeBounds(limits: Limits, policy: Policy, uses: seq<Use>, states: seq<Snapshot>, key: string, i: nat, j: nat)
    requires UsesRun(limits, policy, uses, states) && Roomy(limits, policy, uses, states) && i < j <= |uses|
    ensures PassedFrom(uses[..j], key, i) as real
            <= limits.burst + Share(limits.rate, Forward(uses[..j]) - Forward(uses[..i + 1]))
  {
    RoomyPrefix(limits, policy, uses, states, j);
    RunIsCovered(limits, policy, uses[..j], states[..j + 1], key);
    assert uses[..j][..i + 1] == uses[..i + 1];
    PassesArePaidFor(limits, uses[..j], key, i);
  }

  // ----- In order -----

  lemma {:induction false} InOrderCreditIsElapsed(ts: seq<real>)
    requires ts != [] && NonDecreasing(ts)
    ensures Credit(ts) == ts[|ts| - 1] - ts[0]
  {
    if |ts| > 1 {
      InOrderCreditIsElapsed(ts[..|ts| - 1]);
    }
  }

  lemma {:induction false} TimesInPrefix(uses: seq<Use>, n: nat)
    requires n <= |uses|
    ensures TimesIn(uses[..n]) <= TimesIn(uses)
    decreases |uses|
  {
    if n < |uses| {
      assert uses[..|uses| - 1][..n] == uses[..n];
      TimesInPrefix(uses[..|uses| - 1], n);
    } else {
      assert uses[..n] == uses;
    }
  }

  /** If the times do come in order, that is the time between the two uses. */
  lemma InOrderForwardIsElapsed(uses: seq<Use>, i: nat, j: nat)
    requires i < j <= |uses| && uses[i].used && NonDecreasing(TimesIn(uses[..j]))
    ensures Forward(uses[..j]) - Forward(uses[..i + 1]) == LastUse(uses[..j], 0.0) - uses[i].call.now
  {
    var all, upTo := TimesIn(uses[..j]), TimesIn(uses[..i + 1]);
    assert uses[..j][..i + 1] == uses[..i + 1];
    TimesInPrefix(uses[..j], i + 1);
    assert uses[..i + 1][..i] == uses[..i];
    assert upTo[|upTo| - 1] == uses[i].call.now && upTo[0] == all[0];
    assert NonDecreasing(upTo);
    InOrderCreditIsElapsed(all);
    InOrderCreditIsElapsed(upTo);
    assert Forward(uses[..i + 1]) == Credit(upTo);
  }
}

/** The cache of recently accepted event ids.

    It forgets: expired entries at a clean-up, and the oldest ones when too many
    are left. The results below say exactly when that shows in an answer. */
module DedupCaches {
  import opened Clock
  import opened Eviction

  type Times = map<string, real>

  const CLEANUP_THRESHOLD: nat := 1000

  predicate IsFresh(at: real, now: real, window: real) {
    Elapsed(at, now) < window
  }

  ghost function Fresh(seen: Times, now: real, window: real): Times {
    map id | id in seen && IsFresh(seen[id], now, window) :: seen[id]
  }

  ghost function Itself(): real -> real {
    (at: real) => at
  }

  /** What the cache knows when it looks an id up: cleaned first, if it has grown large. */
  ghost predicate Prepared(seen: Times, maxSize: nat, window: real, now: real, mid: Times) {
    if |seen| >= CLEANUP_THRESHOLD then Evicted(Itself(), Fresh(seen, now, window), maxSize, mid) else mid == seen
  }

  /** A duplicate changes nothing: its timestamp stays that of the acceptance. */
  ghost function Lookup(mid: Times, id: string, window: real, now: real): (Times, bool) {
    if id in mid && IsFresh(mid[id], now, window) then (mid, true) else (mid[id := now], false)
  }

  ghost predicate Asked(seen: Times, maxSize: nat, id: string, window: real, now: real, after: Times, dup: bool) {
    exists mid :: Prepared(seen, maxSize, window, now, mid) && Lookup(mid, id, window, now) == (after, dup)
  }

  class DedupCache {
    var seen: Times
    const maxSize: nat

    constructor (maxSize: nat)
      ensures this.maxSize == maxSize && seen == map[]
    {
      this.maxSize := maxSize;
      seen := map[];
    }

    method IsDuplicate(id: string, window: real, now: real) returns (dup: bool)
      modifies this
      ensures Asked(old(seen), maxSize, id, window, now, seen, dup)
    {
      if |seen| >= CLEANUP_THRESHOLD {
        Cleanup(now, window);
      }
      ghost var mid := seen;
      if id in seen && IsFresh(seen[id], now, window) {
        dup := true;
      } else {
        seen := seen[id := now];
        dup := false;
      }
      assert Lookup(mid, id, window, now) == (seen, dup);
    }

    method Cleanup(now: real, window: real)
      modifies this
      ensures Evicted(Itself(), Fresh(old(seen), now, window), maxSize, seen)
    {
      seen := map id | id in seen && IsFresh(seen[id], now, window) :: seen[id];
      ghost var current := seen;
      while |seen| > maxSize
        invariant OldestDropped(Itself(), current, seen)
        invariant |seen| <= |current|
        invariant |current| <= maxSize ==> |seen| == |current|
        invariant |current| > maxSize ==> |seen| >= maxSize
      {
        ghost var some := SomeOldest(Itself(), seen);
        var oldest :| oldest in seen && forall id :: id in seen ==> seen[oldest] <= seen[id];
        DropOldest(Itself(), current, seen, oldest);
        seen := seen - {oldest};
      }
    }
  }

  /** Whatever the windows and the clock, the cache never outgrows this. */
  lemma AskingKeepsTheSizeBound(seen: Times, maxSize: nat, id: string, window: real, now: real, after: Times, dup: bool)
    requires |seen| <= CLEANUP_THRESHOLD || |seen| <= maxSize + 1
    requires Asked(seen, maxSize, id, window, now, after, dup)
    ensures |after| <= CLEANUP_THRESHOLD || |after| <= maxSize + 1
  {
    var mid :| Prepared(seen, maxSize, window, now, mid) && Lookup(mid, id, window, now) == (after, dup);
    AtMostOneMore(mid, id, now);
  }

  // ----- Whole runs of queries -----

  datatype Query = Query(id: string, window: real, now: real)

  ghost predicate Run(maxSize: nat, qs: seq<Query>, states: seq<Times>, dups: seq<bool>) {
    && |states| == |qs| + 1 && |dups| == |qs|
    && states[0] == map[]
    && forall i :: 0 <= i < |qs| ==>
         Asked(states[i], maxSize, qs[i].id, qs[i].window, qs[i].now, states[i + 1], dups[i])
  }

  ghost predicate ClockForward(qs: seq<Query>) {
    forall i, j :: 0 <= i < j < |qs| ==> qs[i].now <= qs[j].now
  }

  /** When each id was last accepted, that is, last answered "not a duplicate". */
  ghost function Accepted(qs: seq<Query>, dups: seq<bool>): Times
    requires |dups| == |qs|
  {
    if qs == [] then map[]
    else
      var n := |qs| - 1;
      var earlier := Accepted(qs[..n], dups[..n]);
      if dups[n] then earlier else earlier[qs[n].id := qs[n].now]
  }

  /** The id was accepted less than a window ago. */
  ghost predicate RecentlyAccepted(qs: seq<Query>, dups: seq<bool>, q: Query)
    requires |dups| == |qs|
  {
    var accepted := Accepted(qs, dups);
    q.id in accepted && Elapsed(accepted[q.id], q.now) < q.window
  }

  lemma RunPrefix(maxSize: nat, qs: seq<Query>, states: seq<Times>, dups: seq<bool>, n: nat)
    requires Run(maxSize, qs, states, dups) && n <= |qs|
    ensures Run(maxSize, qs[..n], states[..n + 1], dups[..n])
  {
  }

  /** The cache holds nothing but true acceptance times. */
  lemma {:induction false} HoldsOnlyAcceptances(maxSize: nat, qs: seq<Query>, states: seq<Times>, dups: seq<bool>)
    requires Run(maxSize, qs, states, dups)
    ensures var accepted := Accepted(qs, dups);
            forall id :: id in states[|qs|] ==> id in accepted && accepted[id] == states[|qs|][id]
  {
    if qs != [] {
      var n := |qs| - 1;
      RunPrefix(maxSize, qs, states, dups, n);
      HoldsOnlyAcceptances(maxSize, qs[..n], states[..n + 1], dups[..n]);
      assert Asked(states[n], maxSize, qs[n].id, qs[n].window, qs[n].now, states[n + 1], dups[n]);
    }
  }

  /** A "duplicate" answer is always right: with any mix of windows, any clock and any evictions,
      the id was accepted less than this window ago. Repeats in between count for nothing. */
  lemma DuplicateIsAlwaysRight(maxSize: nat, qs: seq<Query>, states: seq<Times>, dups: seq<bool>, i: nat)
    requires Run(maxSize, qs, states, dups) && i < |qs| && dups[i]
    ensures RecentlyAccepted(qs[..i], dups[..i], qs[i])
  {
    RunPrefix(maxSize, qs, states, dups, i);
    HoldsOnlyAcceptances(maxSize, qs[..i], states[..i + 1], dups[..i]);
    assert Asked(states[i], maxSize, qs[i].id, qs[i].window, qs[i].now, states[i + 1], dups[i]);
  }

  /** The other ids accepted no earlier than this one. */
  ghost function NoEarlier(accepted: Times, id: string): set<string>
    requires id in accepted
  {
    set other | other in accepted && other != id && accepted[other] >= accepted[id]
  }

  lemma {:induction false} AcceptedBy(qs: seq<Query>, dups: seq<bool>, now: real)
    requires |dups| == |qs| && forall i :: 0 <= i < |qs| ==> qs[i].now <= now
    ensures forall id :: id in Accepted(qs, dups) ==> Accepted(qs, dups)[id] <= now
  {
    if qs != [] {
      AcceptedBy(qs[..|qs| - 1], dups[..|qs| - 1], now);
    }
  }

  lemma CrowdedOut(accepted: Times, current: Times, mid: Times, id: string)
    requires forall o :: o in current ==> o in accepted && accepted[o] == current[o]
    requires OldestDropped(Itself(), current, mid) && id in current && id !in mid
    ensures |mid| <= |NoEarlier(accepted, id)|
  {
    forall o | o in mid.Keys
      ensures o in NoEarlier(accepted, id)
    {
      assert Itself()(current[id]) <= Itself()(current[o]);
    }
    SubsetIsSmaller(mid.Keys, NoEarlier(accepted, id));
  }

  lemma SubsetIsSmaller(a: set<string>, b: set<string>)
    requires a <= b
    ensures |a| <= |b|
  {
    assert |b - a| == |b| - |a|;
  }

  // ----- Callers with different windows -----

  /** Query `k` is the last acceptance of its id before query `i`. */
  ghost predicate LastAcceptance(qs: seq<Query>, dups: seq<bool>, k: nat, i: nat)
    requires |dups| == |qs|
  {
    k < i <= |qs| && !dups[k] && forall j :: k < j < i && qs[j].id == qs[k].id ==> dups[j]
  }

  /** The clean-up at query `j` finds the acceptance of query `k` expired for its own window. */
  ghost predicate DropsAt(qs: seq<Query>, states: seq<Times>, k: nat, j: nat)
    requires |states| == |qs| + 1 && k < |qs| && j < |qs|
  {
    |states[j]| >= CLEANUP_THRESHOLD && Elapsed(qs[k].now, qs[j].now) >= qs[j].window
  }

  lemma {:induction false} LastAcceptanceCounts(qs: seq<Query>, dups: seq<bool>, k: nat, i: nat)
    requires |dups| == |qs| && LastAcceptance(qs, dups, k, i)
    ensures qs[k].id in Accepted(qs[..i], dups[..i]) && Accepted(qs[..i], dups[..i])[qs[k].id] == qs[k].now
    decreases i
  {
    var n := i - 1;
    assert qs[..i][..n] == qs[..n] && dups[..i][..n] == dups[..n];
    if k < n {
      LastAcceptanceCounts(qs, dups, k, n);
    }
  }

  lemma {:induction false} LastAcceptanceOf(qs: seq<Query>, dups: seq<bool>, i: nat, id: string) returns (k: nat)
    requires |dups| == |qs| && i <= |qs| && id in Accepted(qs[..i], dups[..i])
    ensures LastAcceptance(qs, dups, k, i) && qs[k].id == id
    decreases i
  {
    k := i - 1;
    assert qs[..i][..k] == qs[..k] && dups[..i][..k] == dups[..k];
    if qs[k].id != id || dups[k] {
      k := LastAcceptanceOf(qs, dups, i - 1, id);
    }
  }

  /** What the cache knows when it answers, if it need not evict: nothing that has expired for this query, once it is large. */
  ghost function Cleaned(seen: Times, q: Query): Times {
    if |seen| >= CLEANUP_THRESHOLD then Fresh(seen, q.now, q.window) else seen
  }

  ghost predicate AnswersFromCleaned(qs: seq<Query>, states: seq<Times>, dups: seq<bool>)
    requires |states| == |qs| + 1 && |dups| == |qs|
  {
    forall n :: 0 <= n < |qs| ==> Lookup(Cleaned(states[n], qs[n]), qs[n].id, qs[n].window, qs[n].now) == (states[n + 1], dups[n])
  }

  lemma RunAnswersFromCleaned(maxSize: nat, qs: seq<Query>, states: seq<Times>, dups: seq<bool>)
    requires Run(maxSize, qs, states, dups) && NoCapacityEviction(maxSize, qs, states)
    ensures AnswersFromCleaned(qs, states, dups)
  {
    forall n | 0 <= n < |qs|
      ensures Lookup(Cleaned(states[n], qs[n]), qs[n].id, qs[n].window, qs[n].now) == (states[n + 1], dups[n])
    {
      assert Asked(states[n], maxSize, qs[n].id, qs[n].window, qs[n].now, states[n + 1], dups[n]);
      var mid := PreparedByWindow(maxSize, states[n], qs[n], states[n + 1], dups[n]);
    }
  }

  /** Until it is accepted anew, an id is held for exactly as long as no clean-up finds it expired for its own window. */
  lemma {:induction false} HeldUntilDropped(qs: seq<Query>, states: seq<Times>, dups: seq<bool>, k: nat, i: nat)
    requires |states| == |qs| + 1 && |dups| == |qs|
    requires AnswersFromCleaned(qs, states, dups) && LastAcceptance(qs, dups, k, i)
    ensures qs[k].id in states[i] <==> NeverDropped(qs, states, k, i)
    ensures qs[k].id in states[i] ==> states[i][qs[k].id] == qs[k].now
    decreases i
  {
    if k < i - 1 {
      HeldUntilDropped(qs, states, dups, k, i - 1);
      HeldOneMore(qs, states, dups, k, i - 1, Cleaned(states[i - 1], qs[i - 1]));
    }
  }

  ghost predicate NeverDropped(qs: seq<Query>, states: seq<Times>, k: nat, i: nat)
    requires |states| == |qs| + 1 && k < i <= |qs|
  {
    forall j :: k < j < i ==> !DropsAt(qs, states, k, j)
  }

  lemma HeldOneMore(qs: seq<Query>, states: seq<Times>, dups: seq<bool>, k: nat, n: nat, mid: Times)
    requires |states| == |qs| + 1 && |dups| == |qs| && k < n < |qs| && LastAcceptance(qs, dups, k, n + 1)
    requires mid == Cleaned(states[n], qs[n])
    requires Lookup(mid, qs[n].id, qs[n].window, qs[n].now) == (states[n + 1], dups[n])
    requires qs[k].id in states[n] ==> states[n][qs[k].id] == qs[k].now
    ensures qs[k].id in states[n + 1] <==> qs[k].id in states[n] && !DropsAt(qs, states, k, n)
    ensures qs[k].id in states[n + 1] ==> states[n + 1][qs[k].id] == qs[k].now
  {
  }

  lemma PreparedByWindow(maxSize: nat, seen: Times, q: Query, after: Times, dup: bool) returns (mid: Times)
    requires Asked(seen, maxSize, q.id, q.window, q.now, after, dup)
    requires |seen| >= CLEANUP_THRESHOLD ==> |Fresh(seen, q.now, q.window)| <= maxSize
    ensures mid == Cleaned(seen, q)
    ensures Lookup(mid, q.id, q.window, q.now) == (after, dup)
  {
    mid :| Prepared(seen, maxSize, q.window, q.now, mid) && Lookup(mid, q.id, q.window, q.now) == (after, dup);
    if |seen| >= CLEANUP_THRESHOLD {
      NothingEvicted(Itself(), Fresh(seen, q.now, q.window), maxSize, mid);
    }
  }

  /** With any mix of windows and without eviction, an id accepted less than this window ago is answered "not a
      duplicate" exactly when some clean-up since its last acceptance found it expired for its own caller's window. */
  lemma WrongExactlyWhenDropped(maxSize: nat, qs: seq<Query>, states: seq<Times>, dups: seq<bool>, k: nat, i: nat)
    requires Run(maxSize, qs, states, dups) && NoCapacityEviction(maxSize, qs, states)
    requires i < |qs| && LastAcceptance(qs, dups, k, i) && qs[k].id == qs[i].id
    requires Elapsed(qs[k].now, qs[i].now) < qs[i].window
    ensures RecentlyAccepted(qs[..i], dups[..i], qs[i])
    ensures !dups[i] <==> exists j :: k < j < i && DropsAt(qs, states, k, j)
  {
    LastAcceptanceCounts(qs, dups, k, i);
    RunAnswersFromCleaned(maxSize, qs, states, dups);
    HeldUntilDropped(qs, states, dups, k, i);
    assert Lookup(Cleaned(states[i], qs[i]), qs[i].id, qs[i].window, qs[i].now) == (states[i + 1], dups[i]);
  }

  /** The clean-up at query `j` may have lost the acceptance of query `k`: expired for its window, or crowded out. */
  ghost predicate MayLoseAt(maxSize: nat, qs: seq<Query>, states: seq<Times>, dups: seq<bool>, k: nat, j: nat)
    requires |states| == |qs| + 1 && |dups| == |qs| && k < j < |qs| && LastAcceptance(qs, dups, k, j)
  {
    LastAcceptanceCounts(qs, dups, k, j);
    && |states[j]| >= CLEANUP_THRESHOLD
    && (Elapsed(qs[k].now, qs[j].now) >= qs[j].window || |NoEarlier(Accepted(qs[..j], dups[..j]), qs[k].id)| >= maxSize)
  }

  ghost predicate LostBefore(maxSize: nat, qs: seq<Query>, states: seq<Times>, dups: seq<bool>, k: nat, i: nat)
    requires |states| == |qs| + 1 && |dups| == |qs| && i <= |qs|
  {
    exists j :: k < j < i && LastAcceptance(qs, dups, k, j) && MayLoseAt(maxSize, qs, states, dups, k, j)
  }

  lemma KeptByQuery(maxSize: nat, qs: seq<Query>, states: seq<Times>, dups: seq<bool>, k: nat, n: nat) returns (mid: Times)
    requires Run(maxSize, qs, states, dups) && k < n < |qs| && LastAcceptance(qs, dups, k, n)
    requires qs[k].id in states[n] && states[n][qs[k].id] == qs[k].now && !MayLoseAt(maxSize, qs, states, dups, k, n)
    ensures Lookup(mid, qs[n].id, qs[n].window, qs[n].now) == (states[n + 1], dups[n])
    ensures qs[k].id in mid && mid[qs[k].id] == qs[k].now
  {
    var q, id := qs[n], qs[k].id;
    RunPrefix(maxSize, qs, states, dups, n);
    HoldsOnlyAcceptances(maxSize, qs[..n], states[..n + 1], dups[..n]);
    LastAcceptanceCounts(qs, dups, k, n);
    assert Asked(states[n], maxSize, q.id, q.window, q.now, states[n + 1], dups[n]);
    mid :| Prepared(states[n], maxSize, q.window, q.now, mid) && Lookup(mid, q.id, q.window, q.now) == (states[n + 1], dups[n]);
    if |states[n]| >= CLEANUP_THRESHOLD && id !in mid {
      var current := Fresh(states[n], q.now, q.window);
      if id in current {
        if |current| <= maxSize {
          NothingEvicted(Itself(), current, maxSize, mid);
        }
        CrowdedOut(Accepted(qs[..n], dups[..n]), current, mid, id);
      }
    }
  }

  lemma HeldOnceAccepted(maxSize: nat, qs: seq<Query>, states: seq<Times>, dups: seq<bool>, k: nat)
    requires Run(maxSize, qs, states, dups) && k < |qs| && !dups[k]
    ensures qs[k].id in states[k + 1] && states[k + 1][qs[k].id] == qs[k].now
  {
    assert Asked(states[k], maxSize, qs[k].id, qs[k].window, qs[k].now, states[k + 1], dups[k]);
  }

  lemma LostOneLater(maxSize: nat, qs: seq<Query>, states: seq<Times>, dups: seq<bool>, k: nat, n: nat)
    requires |states| == |qs| + 1 && |dups| == |qs| && k < n < |qs| && LastAcceptance(qs, dups, k, n)
    requires LostBefore(maxSize, qs, states, dups, k, n) || MayLoseAt(maxSize, qs, states, dups, k, n)
    ensures LostBefore(maxSize, qs, states, dups, k, n + 1)
  {
  }

  lemma {:induction false} HeldOrLost(maxSize: nat, qs: seq<Query>, states: seq<Times>, dups: seq<bool>, k: nat, i: nat)
    requires Run(maxSize, qs, states, dups) && LastAcceptance(qs, dups, k, i)
    ensures (qs[k].id in states[i] && states[i][qs[k].id] == qs[k].now) || LostBefore(maxSize, qs, states, dups, k, i)
    decreases i
  {
    var n := i - 1;
    if k == n {
      HeldOnceAccepted(maxSize, qs, states, dups, k);
    } else {
      HeldOrLost(maxSize, qs, states, dups, k, n);
      if LostBefore(maxSize, qs, states, dups, k, n) || MayLoseAt(maxSize, qs, states, dups, k, n) {
        LostOneLater(maxSize, qs, states, dups, k, n);
      } else {
        var mid := KeptByQuery(maxSize, qs, states, dups, k, n);
      }
    }
  }

  /** A wrong "not a duplicate" has two possible causes, whatever the windows, the clock and the evictions: some clean-up
      since the acceptance found it expired for its own window, or at least `maxSize` other ids were by then accepted
      no earlier. */
  lemma WrongHasTwoCauses(maxSize: nat, qs: seq<Query>, states: seq<Times>, dups: seq<bool>, i: nat) returns (k: nat)
    requires Run(maxSize, qs, states, dups) && i < |qs| && !dups[i] && RecentlyAccepted(qs[..i], dups[..i], qs[i])
    ensures LastAcceptance(qs, dups, k, i) && qs[k].id == qs[i].id
    ensures LostBefore(maxSize, qs, states, dups, k, i) || MayLoseAt(maxSize, qs, states, dups, k, i)
  {
    k := LastAcceptanceOf(qs, dups, i, qs[i].id);
    LastAcceptanceCounts(qs, dups, k, i);
    HeldOrLost(maxSize, qs, states, dups, k, i);
    if !LostBefore(maxSize, qs, states, dups, k, i) && !MayLoseAt(maxSize, qs, states, dups, k, i) {
      var mid := KeptByQuery(maxSize, qs, states, dups, k, i);
    }
  }

  /** Once accepted, an id stays so, and its time only moves on. */
  lemma {:induction false} AcceptancesGrow(qs: seq<Query>, dups: seq<bool>, j: nat, i: nat, id: string)
    requires |dups| == |qs| && j <= i <= |qs| && ClockForward(qs) && id in Accepted(qs[..j], dups[..j])
    ensures id in Accepted(qs[..i], dups[..i]) && Accepted(qs[..j], dups[..j])[id] <= Accepted(qs[..i], dups[..i])[id]
    decreases i
  {
    if j < i {
      AcceptancesGrow(qs, dups, j, i - 1, id);
      AcceptedBy(qs[..i - 1], dups[..i - 1], qs[i - 1].now);
      assert qs[..i][..i - 1] == qs[..i - 1] && dups[..i][..i - 1] == dups[..i - 1];
    }
  }

  lemma StillCrowded(qs: seq<Query>, dups: seq<bool>, k: nat, j: nat, i: nat)
    requires |dups| == |qs| && j <= i && ClockForward(qs)
    requires LastAcceptance(qs, dups, k, j) && LastAcceptance(qs, dups, k, i)
    ensures qs[k].id in Accepted(qs[..j], dups[..j]) && qs[k].id in Accepted(qs[..i], dups[..i])
    ensures |NoEarlier(Accepted(qs[..j], dups[..j]), qs[k].id)| <= |NoEarlier(Accepted(qs[..i], dups[..i]), qs[k].id)|
  {
    LastAcceptanceCounts(qs, dups, k, j);
    LastAcceptanceCounts(qs, dups, k, i);
    var before, after := NoEarlier(Accepted(qs[..j], dups[..j]), qs[k].id), NoEarlier(Accepted(qs[..i], dups[..i]), qs[k].id);
    forall o | o in before
      ensures o in after
    {
      AcceptancesGrow(qs, dups, j, i, o);
    }
    SubsetIsSmaller(before, after);
  }

  /** A wrong "not a duplicate" has one cause, when the caller uses no larger a window than any query before it: at
      least `maxSize` other ids were accepted no earlier than the forgotten one. */
  lemma WrongOnlyWhenCrowdedOut(maxSize: nat, qs: seq<Query>, states: seq<Times>, dups: seq<bool>, i: nat)
    requires Run(maxSize, qs, states, dups) && ClockForward(qs) && i < |qs|
    requires forall j :: 0 <= j < i ==> qs[i].window <= qs[j].window
    requires !dups[i] && RecentlyAccepted(qs[..i], dups[..i], qs[i])
    ensures |NoEarlier(Accepted(qs[..i], dups[..i]), qs[i].id)| >= maxSize
  {
    var k := WrongHasTwoCauses(maxSize, qs, states, dups, i);
    LastAcceptanceCounts(qs, dups, k, i);
    if LostBefore(maxSize, qs, states, dups, k, i) {
      var j: nat :| k < j < i && LastAcceptance(qs, dups, k, j) && MayLoseAt(maxSize, qs, states, dups, k, j);
      StillCrowded(qs, dups, k, j, i);
    }
  }

  // ----- Against a cache that remembers every acceptance -----

  /** No clean-up of the run had to drop current entries for want of room. */
  ghost predicate NoCapacityEviction(maxSize: nat, qs: seq<Query>, states: seq<Times>)
    requires |states| == |qs| + 1
  {
    forall i :: 0 <= i < |qs| && |states[i]| >= CLEANUP_THRESHOLD ==>
      |Fresh(states[i], qs[i].now, qs[i].window)| <= maxSize
  }

  /** No query uses a larger window than one before it; one window for all is the plain case. */
  ghost predicate WindowsNeverGrow(qs: seq<Query>) {
    forall i, j :: 0 <= i < j < |qs| ==> qs[j].window <= qs[i].window
  }

  /** The answers of a cache that remembers every acceptance for ever. */
  ghost function Remembering(qs: seq<Query>): (dups: seq<bool>)
    ensures |dups| == |qs|
  {
    if qs == [] then []
    else
      var n := |qs| - 1;
      var earlier := Remembering(qs[..n]);
      earlier + [RecentlyAccepted(qs[..n], earlier, qs[n])]
  }

  /** Without eviction every answer is exact: duplicate if and only if accepted less than a window ago. */
  lemma ExactWithoutEviction(maxSize: nat, qs: seq<Query>, states: seq<Times>, dups: seq<bool>, i: nat)
    requires Run(maxSize, qs, states, dups) && ClockForward(qs) && WindowsNeverGrow(qs) && i < |qs|
    requires NoCapacityEviction(maxSize, qs, states)
    ensures dups[i] <==> RecentlyAccepted(qs[..i], dups[..i], qs[i])
  {
    if dups[i] {
      DuplicateIsAlwaysRight(maxSize, qs, states, dups, i);
    } else if RecentlyAccepted(qs[..i], dups[..i], qs[i]) {
      var k := LastAcceptanceOf(qs, dups, i, qs[i].id);
      LastAcceptanceCounts(qs, dups, k, i);
      WrongExactlyWhenDropped(maxSize, qs, states, dups, k, i);
    }
  }

  lemma ForgivingPrefix(maxSize: nat, qs: seq<Query>, states: seq<Times>, dups: seq<bool>, n: nat)
    requires Run(maxSize, qs, states, dups) && ClockForward(qs) && WindowsNeverGrow(qs)
    requires NoCapacityEviction(maxSize, qs, states) && n <= |qs|
    ensures Run(maxSize, qs[..n], states[..n + 1], dups[..n]) && ClockForward(qs[..n]) && WindowsNeverGrow(qs[..n])
    ensures NoCapacityEviction(maxSize, qs[..n], states[..n + 1])
  {
  }

  /** Forgetting is invisible: the whole run is answered as if every acceptance were remembered. */
  lemma {:induction false} ForgettingIsInvisible(maxSize: nat, qs: seq<Query>, states: seq<Times>, dups: seq<bool>)
    requires Run(maxSize, qs, states, dups) && ClockForward(qs) && WindowsNeverGrow(qs)
    requires NoCapacityEviction(maxSize, qs, states)
    ensures dups == Remembering(qs)
  {
    if qs != [] {
      var n := |qs| - 1;
      ForgivingPrefix(maxSize, qs, states, dups, n);
      ForgettingIsInvisible(maxSize, qs[..n], states[..n + 1], dups[..n]);
      ExactWithoutEviction(maxSize, qs, states, dups, n);
      assert dups == dups[..n] + [dups[n]];
    }
  }

  /** Two acceptances of one id are at least a window apart. */
  lemma AcceptancesAreAWindowApart(maxSize: nat, qs: seq<Query>, states: seq<Times>, dups: seq<bool>, i: nat, j: nat)
    requires Run(maxSize, qs, states, dups) && ClockForward(qs) && WindowsNeverGrow(qs)
    requires NoCapacityEviction(maxSize, qs, states)
    requires i < j < |qs| && qs[i].id == qs[j].id && !dups[i] && !dups[j]
    ensures qs[j].now - qs[i].now >= qs[j].window
  {
    ExactWithoutEviction(maxSize, qs, states, dups, j);
    AcceptedSince(qs[..j], dups[..j], i);
    AcceptedBy(qs[..j], dups[..j], qs[j].now);
  }

  lemma {:induction false} AcceptedSince(qs: seq<Query>, dups: seq<bool>, i: nat)
    requires |dups| == |qs| && i < |qs| && !dups[i] && ClockForward(qs)
    ensures qs[i].id in Accepted(qs, dups) && qs[i].now <= Accepted(qs, dups)[qs[i].id]
  {
    var n := |qs| - 1;
    if i < n {
      AcceptedSince(qs[..n], dups[..n], i);
    }
  }

  // ----- A run in which a short window forgets -----

  function Name(n: nat): string {
    seq(n, i => 'a')
  }

  /** The first `n` names, all accepted at one instant. */
  ghost function Crowd(n: nat, at: real): Times {
    map i | 0 <= i < n :: Name(i) := at
  }

  lemma NamesDiffer(i: nat, j: nat)
    ensures Name(i) == Name(j) <==> i == j
  {
    assert |Name(i)| == i && |Name(j)| == j;
  }

  lemma {:induction false} CrowdSize(n: nat, at: real)
    ensures |Crowd(n, at)| == n && Name(n) !in Crowd(n, at)
    ensures Crowd(n + 1, at) == Crowd(n, at)[Name(n) := at]
  {
    if n > 0 {
      CrowdSize(n - 1, at);
    }
    assert forall i: nat :: i < n ==> |Name(i)| != |Name(n)|;
  }

  /** One more name is accepted while the cache is below its threshold. */
  lemma CrowdGrows(maxSize: nat, n: nat, long: real, at: real)
    requires n < CLEANUP_THRESHOLD
    ensures Asked(Crowd(n, at), maxSize, Name(n), long, at, Crowd(n + 1, at), false)
  {
    CrowdSize(n, at);
    assert Prepared(Crowd(n, at), maxSize, long, at, Crowd(n, at));
    assert Lookup(Crowd(n, at), Name(n), long, at) == (Crowd(n + 1, at), false);
  }

  /** A run that accepts a thousand ids at once, with the long window. */
  lemma CrowdRun(maxSize: nat, long: real, at: real) returns (qs: seq<Query>, states: seq<Times>, dups: seq<bool>)
    ensures Run(maxSize, qs, states, dups) && NoCapacityEviction(maxSize, qs, states)
    ensures |qs| == CLEANUP_THRESHOLD && states[|qs|] == Crowd(CLEANUP_THRESHOLD, at)
    ensures forall i :: 0 <= i < |qs| ==> qs[i].id == Name(i) && qs[i].window == long && qs[i].now == at && !dups[i]
  {
    var n := CLEANUP_THRESHOLD;
    qs := seq(n, i requires 0 <= i < n => Query(Name(i), long, at));
    states := seq(n + 1, i requires 0 <= i < n + 1 => Crowd(i, at));
    dups := seq(n, i => false);
    assert Crowd(0, at) == map[];
    forall i | 0 <= i < n
      ensures Asked(states[i], maxSize, qs[i].id, qs[i].window, qs[i].now, states[i + 1], dups[i]) && |states[i]| < n
    {
      CrowdSize(i, at);
      CrowdGrows(maxSize, i, long, at);
    }
  }

  lemma OneMoreQuery(maxSize: nat, qs: seq<Query>, states: seq<Times>, dups: seq<bool>, q: Query, after: Times, dup: bool)
    requires Run(maxSize, qs, states, dups) && NoCapacityEviction(maxSize, qs, states)
    requires Asked(states[|qs|], maxSize, q.id, q.window, q.now, after, dup)
    requires |states[|qs|]| >= CLEANUP_THRESHOLD ==> |Fresh(states[|qs|], q.now, q.window)| <= maxSize
    ensures Run(maxSize, qs + [q], states + [after], dups + [dup])
    ensures NoCapacityEviction(maxSize, qs + [q], states + [after])
  {
  }

  /** After the crowd, a query with a short window leaves the cache with its own id alone. */
  lemma CrowdThenOther(maxSize: nat, short: real, long: real, at: real, later: real)
    returns (qs: seq<Query>, states: seq<Times>, dups: seq<bool>)
    requires at <= later && short <= later - at
    ensures Run(maxSize, qs, states, dups) && NoCapacityEviction(maxSize, qs, states) && ClockForward(qs)
    ensures |qs| == CLEANUP_THRESHOLD + 1 && qs[0].now == at && !dups[0]
    ensures forall i :: 0 <= i < |qs| ==> qs[i].id == Name(i) && qs[i].now <= later
    ensures states[|qs|] == map[Name(CLEANUP_THRESHOLD) := later]
  {
    qs, states, dups := CrowdRun(maxSize, long, at);
    var other := Query(Name(CLEANUP_THRESHOLD), short, later);
    CrowdIsDropped(maxSize, short, at, later);
    OneMoreQuery(maxSize, qs, states, dups, other, map[other.id := later], false);
    qs, states, dups := qs + [other], states + [map[other.id := later]], dups + [false];
  }

  /** A whole run of a cache of any size: a thousand ids are accepted with a long window; a query for another id with a
      short window then empties the cache; and the first id, accepted well within the long window, is answered
      "not a duplicate". */
  lemma ShortWindowForgets(maxSize: nat, short: real, long: real, at: real, later: real)
    returns (qs: seq<Query>, states: seq<Times>, dups: seq<bool>, i: nat)
    requires at <= later && short <= later - at < long
    ensures Run(maxSize, qs, states, dups) && NoCapacityEviction(maxSize, qs, states) && ClockForward(qs) && i < |qs|
    ensures qs[i] == Query(Name(0), long, later) && RecentlyAccepted(qs[..i], dups[..i], qs[i]) && !dups[i] && i == 1001
  {
    i := CLEANUP_THRESHOLD + 1;
    var qs1, states1, dups1 := CrowdThenOther(maxSize, short, long, at, later);
    var again := Query(Name(0), long, later);
    NamesDiffer(0, CLEANUP_THRESHOLD);
    NotHeld(maxSize, states1[i], again);
    OneMoreQuery(maxSize, qs1, states1, dups1, again, states1[i][again.id := later], false);
    FirstIsLast(qs1, dups1, i);
    LastAcceptanceCounts(qs1, dups1, 0, i);
    qs, states, dups := qs1 + [again], states1 + [states1[i][again.id := later]], dups1 + [false];
    assert qs[..i] == qs1 == qs1[..i] && dups[..i] == dups1 == dups1[..i];
  }

  lemma CrowdIsDropped(maxSize: nat, short: real, at: real, later: real)
    requires at <= later && short <= later - at
    ensures var crowd := Crowd(CLEANUP_THRESHOLD, at);
            && |Fresh(crowd, later, short)| == 0
            && Asked(crowd, maxSize, Name(CLEANUP_THRESHOLD), short, later, map[Name(CLEANUP_THRESHOLD) := later], false)
  {
    var crowd := Crowd(CLEANUP_THRESHOLD, at);
    CrowdSize(CLEANUP_THRESHOLD, at);
    assert Fresh(crowd, later, short) == map[];
    NothingLeft(maxSize, crowd, Query(Name(CLEANUP_THRESHOLD), short, later));
  }

  lemma FirstIsLast(qs: seq<Query>, dups: seq<bool>, i: nat)
    requires |dups| == |qs| && 0 < i <= |qs| && !dups[0] && qs[0].id == Name(0)
    requires forall j :: 0 < j < i ==> qs[j].id == Name(j)
    ensures LastAcceptance(qs, dups, 0, i)
  {
    forall j | 0 < j < i
      ensures qs[j].id != qs[0].id
    {
      NamesDiffer(0, j);
    }
  }

  lemma NotHeld(maxSize: nat, seen: Times, q: Query)
    requires |seen| < CLEANUP_THRESHOLD && q.id !in seen
    ensures Asked(seen, maxSize, q.id, q.window, q.now, seen[q.id := q.now], false)
  {
    assert Prepared(seen, maxSize, q.window, q.now, seen);
    assert Lookup(seen, q.id, q.window, q.now) == (seen[q.id := q.now], false);
  }

  lemma NothingLeft(maxSize: nat, seen: Times, q: Query)
    requires |seen| >= CLEANUP_THRESHOLD && Fresh(seen, q.now, q.window) == map[]
    ensures Asked(seen, maxSize, q.id, q.window, q.now, map[q.id := q.now], false)
  {
    assert Prepared(seen, maxSize, q.window, q.now, map[]);
    assert Lookup(map[], q.id, q.window, q.now) == (map[q.id := q.now], false);
  }

  /** A repeat does not extend the window: asked again once the window since the acceptance is over, the id is accepted
      anew although a repeat came in between, less than a window ago. */
  lemma RepeatsDoNotExtend(maxSize: nat, id: string, window: real, first: real, repeat: real, third: real)
    returns (qs: seq<Query>, states: seq<Times>, dups: seq<bool>)
    requires first <= repeat < first + window <= third < repeat + window
    ensures qs == [Query(id, window, first), Query(id, window, repeat), Query(id, window, third)]
    ensures Run(maxSize, qs, states, dups) && dups == [false, true, false]
  {
    var once, anew: Times := map[id := first], map[id := third];
    qs := [Query(id, window, first), Query(id, window, repeat), Query(id, window, third)];
    states, dups := [map[], once, once, anew], [false, true, false];
    assert Prepared(map[], maxSize, window, first, map[]) && Lookup(map[], id, window, first) == (once, false);
    assert Prepared(once, maxSize, window, repeat, once) && Lookup(once, id, window, repeat) == (once, true);
    assert once[id := third] == anew;
    assert Prepared(once, maxSize, window, third, once) && Lookup(once, id, window, third) == (anew, false);
    assert Asked(states[0], maxSize, qs[0].id, qs[0].window, qs[0].now, states[1], dups[0]);
    assert Asked(states[1], maxSize, qs[1].id, qs[1].window, qs[1].now, states[2], dups[1]);
    assert Asked(states[2], maxSize, qs[2].id, qs[2].window, qs[2].now, states[3], dups[2]);
  }

  /** From empty, over any run, the cache stays within its bound. */
  lemma {:induction false} SizeBoundHolds(maxSize: nat, qs: seq<Query>, states: seq<Times>, dups: seq<bool>, i: nat)
    requires Run(maxSize, qs, states, dups) && i <= |qs|
    ensures |states[i]| <= CLEANUP_THRESHOLD || |states[i]| <= maxSize + 1
  {
    if i > 0 {
      SizeBoundHolds(maxSize, qs, states, dups, i - 1);
      var q := qs[i - 1];
      assert Asked(states[i - 1], maxSize, q.id, q.window, q.now, states[i], dups[i - 1]);
      AskingKeepsTheSizeBound(states[i - 1], maxSize, q.id, q.window, q.now, states[i], dups[i - 1]);
    }
  }
}

/** Dropping the oldest entries of a keyed collection, as the rate limiter and the
    deduplication cache both do. Entries of one age go in no particular order. */
module Eviction {

  /** `after` keeps part of `live`, and nothing it dropped is newer than anything it kept. */
  ghost predicate OldestDropped<V>(age: V -> real, live: map<string, V>, after: map<string, V>) {
    && after.Keys <= live.Keys
    && (forall k :: k in after ==> after[k] == live[k])
    && (forall gone, kept :: gone in live && gone !in after && kept in after ==> age(live[gone]) <= age(live[kept]))
  }

  /** `after` is a possible outcome of dropping the oldest entries until at most `cap` are left. */
  ghost predicate Evicted<V>(age: V -> real, live: map<string, V>, cap: nat, after: map<string, V>) {
    && OldestDropped(age, live, after)
    && |after| == (if |live| <= cap then |live| else cap)
  }

  ghost predicate IsOldest<V>(age: V -> real, t: map<string, V>, oldest: string) {
    oldest in t && forall k :: k in t ==> age(t[oldest]) <= age(t[k])
  }

  lemma {:induction false} SomeOldest<V>(age: V -> real, t: map<string, V>) returns (oldest: string)
    requires t != map[]
    ensures IsOldest(age, t, oldest)
    decreases |t|
  {
    var first :| first in t;
    var rest := t - {first};
    assert t.Keys == rest.Keys + {first};
    oldest := first;
    if rest != map[] {
      var other := SomeOldest(age, rest);
      if age(t[other]) < age(t[first]) {
        oldest := other;
      }
      forall k | k in t
        ensures age(t[oldest]) <= age(t[k])
      {
        assert k == first || k in rest;
      }
    }
  }

  lemma DropOldest<V>(age: V -> real, live: map<string, V>, t: map<string, V>, oldest: string)
    requires OldestDropped(age, live, t) && IsOldest(age, t, oldest)
    ensures OldestDropped(age, live, t - {oldest}) && |t - {oldest}| == |t| - 1
  {
    assert t.Keys == (t - {oldest}).Keys + {oldest};
  }

  /** When there is room for everything, nothing is dropped. */
  lemma NothingEvicted<V>(age: V -> real, live: map<string, V>, cap: nat, after: map<string, V>)
    requires Evicted(age, live, cap, after) && |live| <= cap
    ensures after == live
  {
    assert |live.Keys - after.Keys| == |live.Keys| - |after.Keys|;
    assert live.Keys - after.Keys == {};
    assert after.Keys == live.Keys;
  }

  lemma AtMostOneMore<V>(t: map<string, V>, key: string, v: V)
    ensures |t[key := v]| <= |t| + 1
  {
    assert t[key := v].Keys == t.Keys + {key};
    assert |t.Keys + {key}| <= |t.Keys| + 1;
  }
}

/** The token bucket behind every rate limit of the daemon, and what it admits.

    Time is in seconds, as a real number. A bucket starts full, refills at
    `rate` tokens per second up to `burst`, and a call is admitted when at
    least one whole token is there to take. */
module TokenBucket {
  import opened Clock

  datatype Limits = Limits(rate: real, burst: real)

  ghost predicate ValidLimits(limits: Limits) {
    limits.rate >= 0.0 && limits.burst >= 0.0
  }

  /** The part of a bucket that changes. */
  datatype State = State(tokens: real, last: real)

  function Min(x: real, y: real): real {
    if x <= y then x else y
  }

  function Gained(limits: Limits, since: real, now: real): (gain: real)
    ensures limits.rate >= 0.0 ==> gain >= 0.0
    ensures now <= since ==> gain == 0.0
  {
    Elapsed(since, now) * limits.rate
  }

  function Replenished(s: State, limits: Limits, now: real): State {
    State(Min(s.tokens + Gained(limits, s.last, now), limits.burst), now)
  }

  /** One call of `check`: the state it leaves and its answer. */
  function Checked(s: State, limits: Limits, now: real): (State, bool) {
    var r := Replenished(s, limits, now);
    if r.tokens >= 1.0 then (r.(tokens := r.tokens - 1.0), true) else (r, false)
  }

  class Bucket {
    var tokens: real
    var lastReplenished: real
    const limits: Limits

    ghost function Value(): State
      reads this
    {
      State(tokens, lastReplenished)
    }

    constructor (limits: Limits, at: real)
      ensures this.limits == limits
      ensures Value() == State(limits.burst, at)
    {
      this.limits := limits;
      tokens := limits.burst;
      lastReplenished := at;
    }

    /** The bucket a map lends out under one of its keys. */
    constructor Borrow(limits: Limits, s: State)
      ensures this.limits == limits && Value() == s
    {
      this.limits := limits;
      tokens, lastReplenished := s.tokens, s.last;
    }

    method Check(now: real) returns (ok: bool)
      modifies this
      ensures (Value(), ok) == Checked(old(Value()), limits, now)
    {
      var elapsed := Elapsed(lastReplenished, now);
      assert elapsed * limits.rate == Gained(limits, lastReplenished, now);
      tokens := Min(tokens + elapsed * limits.rate, limits.burst);
      lastReplenished := now;
      if tokens >= 1.0 {
        tokens := tokens - 1.0;
        ok := true;
      } else {
        ok := false;
      }
    }
  }

  /** The instant a bucket is created at does not matter to its first check,
      so `Instant::now()` inside the constructor may differ from the caller's clock. */
  lemma CreationInstantIsIrrelevant(limits: Limits, at: real, now: real)
    requires ValidLimits(limits)
    ensures Checked(State(limits.burst, at), limits, now) == Checked(State(limits.burst, now), limits, now)
  {
  }

  // ----- Whole histories of calls on one bucket -----

  ghost predicate NonDecreasing(ts: seq<real>) {
    forall i, j :: 0 <= i < j < |ts| ==> ts[i] <= ts[j]
  }

  /** The state a call at `now` meets after earlier calls at the times `ts`. */
  ghost function Met(limits: Limits, ts: seq<real>, now: real): State
    decreases |ts|, 0
  {
    if ts == [] then State(limits.burst, now) else After(limits, ts)
  }

  /** The state the calls at the times `ts` leave behind. */
  ghost function After(limits: Limits, ts: seq<real>): State
    requires ts != []
    decreases |ts| - 1, 1
  {
    var n := |ts| - 1;
    Checked(Met(limits, ts[..n], ts[n]), limits, ts[n]).0
  }

  ghost predicate Admits(limits: Limits, ts: seq<real>, now: real) {
    Checked(Met(limits, ts, now), limits, now).1
  }

  /** The answers the bucket gives to the calls at the times `ts`. */
  ghost function Answers(limits: Limits, ts: seq<real>): (d: seq<bool>)
    ensures |d| == |ts|
  {
    if ts == [] then []
    else
      var n := |ts| - 1;
      Answers(limits, ts[..n]) + [Admits(limits, ts[..n], ts[n])]
  }

  /** How many calls from the instant `start` on were admitted. */
  ghost function CountFrom(ts: seq<real>, d: seq<bool>, start: real): nat
    requires |d| == |ts|
  {
    if ts == [] then 0
    else
      var n := |ts| - 1;
      CountFrom(ts[..n], d[..n], start) + if d[n] && start <= ts[n] then 1 else 0
  }

  ghost function Admitted(limits: Limits, ts: seq<real>, start: real): nat {
    CountFrom(ts, Answers(limits, ts), start)
  }

  /** What a window may hold: the burst and what its length refills. */
  ghost function Allowance(limits: Limits, start: real, end: real): real {
    limits.burst + limits.rate * (end - start)
  }

  /** A further admission at `now` stays within the limits in every window that ends at `now`. */
  ghost predicate FitsEveryWindow(limits: Limits, ts: seq<real>, d: seq<bool>, now: real)
    requires |d| == |ts|
  {
    forall start: real {:trigger CountFrom(ts, d, start)} :: start <= now ==>
      CountFrom(ts, d, start) as real + 1.0 <= Allowance(limits, start, now)
  }

  lemma AdmittedUnfold(limits: Limits, ts: seq<real>, start: real)
    requires ts != []
    ensures var n := |ts| - 1;
            Admitted(limits, ts, start)
            == Admitted(limits, ts[..n], start)
               + if Admits(limits, ts[..n], ts[n]) && start <= ts[n] then 1 else 0
  {
    var n := |ts| - 1;
    assert Answers(limits, ts)[..n] == Answers(limits, ts[..n]);
  }

  /** Nothing is counted from an instant after every call. */
  lemma {:induction false} NothingLater(ts: seq<real>, d: seq<bool>, start: real)
    requires |d| == |ts|
    requires forall i :: 0 <= i < |ts| ==> ts[i] < start
    ensures CountFrom(ts, d, start) == 0
  {
    if ts != [] {
      NothingLater(ts[..|ts| - 1], d[..|ts| - 1], start);
    }
  }

  lemma {:induction false} TokensInRange(limits: Limits, ts: seq<real>)
    requires ValidLimits(limits) && ts != []
    ensures 0.0 <= After(limits, ts).tokens <= limits.burst
    ensures After(limits, ts).last == ts[|ts| - 1]
  {
    var n := |ts| - 1;
    if n > 0 {
      TokensInRange(limits, ts[..n]);
    }
  }

  lemma AllowanceGrows(limits: Limits, start: real, mid: real, end: real)
    requires ValidLimits(limits) && start <= mid <= end
    ensures Allowance(limits, start, end) == Allowance(limits, start, mid) + Gained(limits, mid, end)
    ensures limits.burst <= Allowance(limits, start, mid) <= Allowance(limits, start, end)
    ensures Allowance(limits, mid, mid) == limits.burst
  {
  }

  /** Safety: the tokens left, plus what was admitted since `start`, never exceed the allowance since `start`. */
  lemma {:induction false} AllowanceCovers(limits: Limits, ts: seq<real>, start: real)
    requires ValidLimits(limits) && ts != [] && NonDecreasing(ts) && start <= ts[|ts| - 1]
    ensures After(limits, ts).tokens + Admitted(limits, ts, start) as real
            <= Allowance(limits, start, ts[|ts| - 1])
  {
    var n := |ts| - 1;
    AdmittedUnfold(limits, ts, start);
    AllowanceGrows(limits, start, ts[n], ts[n]);
    if n == 0 {
      assert Admitted(limits, ts[..0], start) == 0;
    } else if start <= ts[n - 1] {
      AllowanceCovers(limits, ts[..n], start);
      TokensInRange(limits, ts[..n]);
      AllowanceGrows(limits, start, ts[n - 1], ts[n]);
    } else {
      NothingLater(ts[..n], Answers(limits, ts[..n]), start);
    }
  }

  /** What the last call leaves, and what it took, add up to what it found. */
  lemma LastCall(limits: Limits, ts: seq<real>)
    requires ts != []
    ensures var n := |ts| - 1;
            After(limits, ts).tokens + (if Admits(limits, ts[..n], ts[n]) then 1.0 else 0.0)
            == Replenished(Met(limits, ts[..n], ts[n]), limits, ts[n]).tokens
  {
  }

  /** Two calls at one instant, of which the second found a full bucket: the first took nothing. */
  lemma FullAtOnce(limits: Limits, ts: seq<real>)
    requires ValidLimits(limits) && |ts| > 1 && NonDecreasing(ts)
    requires var n := |ts| - 1; ts[n - 1] == ts[n] && Replenished(After(limits, ts[..n]), limits, ts[n]).tokens == limits.burst
    ensures var n := |ts| - 1; Admitted(limits, ts[..n], ts[n]) == 0
  {
    var n := |ts| - 1;
    AllowanceCovers(limits, ts[..n], ts[n]);
    AllowanceGrows(limits, ts[n], ts[n], ts[n]);
    TokensInRange(limits, ts[..n]);
  }

  /** The last call found a full bucket: the window that holds just this instant is tight. */
  lemma TightWhenFull(limits: Limits, ts: seq<real>)
    requires ValidLimits(limits) && ts != [] && NonDecreasing(ts)
    requires var n := |ts| - 1; Replenished(Met(limits, ts[..n], ts[n]), limits, ts[n]).tokens == limits.burst
    ensures var n := |ts| - 1; After(limits, ts).tokens + Admitted(limits, ts, ts[n]) as real == limits.burst
  {
    var n := |ts| - 1;
    LastCall(limits, ts);
    AdmittedUnfold(limits, ts, ts[n]);
    if n == 0 {
      assert Admitted(limits, ts[..0], ts[n]) == 0;
    } else if ts[n - 1] == ts[n] {
      FullAtOnce(limits, ts);
    } else {
      NothingLater(ts[..n], Answers(limits, ts[..n]), ts[n]);
    }
  }

  /** Tightness: some window has used its allowance up to exactly the tokens that are left. */
  lemma {:induction false} SomeWindowIsTight(limits: Limits, ts: seq<real>) returns (start: real)
    requires ValidLimits(limits) && ts != [] && NonDecreasing(ts)
    ensures start <= ts[|ts| - 1]
    ensures After(limits, ts).tokens + Admitted(limits, ts, start) as real
            == Allowance(limits, start, ts[|ts| - 1])
  {
    var n := |ts| - 1;
    start := ts[n];
    if Replenished(Met(limits, ts[..n], ts[n]), limits, ts[n]).tokens == limits.burst {
      TightWhenFull(limits, ts);
    } else {
      start := SomeWindowIsTight(limits, ts[..n]);
      TightStaysTight(limits, ts, start);
    }
  }

  lemma TightStaysTight(limits: Limits, ts: seq<real>, start: real)
    requires ValidLimits(limits) && |ts| > 1 && NonDecreasing(ts) && start <= ts[|ts| - 2]
    requires Replenished(After(limits, ts[..|ts| - 1]), limits, ts[|ts| - 1]).tokens != limits.burst
    requires After(limits, ts[..|ts| - 1]).tokens + Admitted(limits, ts[..|ts| - 1], start) as real
             == Allowance(limits, start, ts[|ts| - 2])
    ensures After(limits, ts).tokens + Admitted(limits, ts, start) as real
            == Allowance(limits, start, ts[|ts| - 1])
  {
    var n := |ts| - 1;
    LastCall(limits, ts);
    AdmittedUnfold(limits, ts, start);
    TokensInRange(limits, ts[..n]);
    AllowanceGrows(limits, start, ts[n - 1], ts[n]);
  }

  /** What the bucket is for: over every non-decreasing history, a call is admitted exactly
      when admitting it keeps every window that ends at it within burst + rate * length. */
  lemma AdmitsExactlyWhatFits(limits: Limits, ts: seq<real>, now: real)
    requires ValidLimits(limits) && NonDecreasing(ts + [now])
    ensures Admits(limits, ts, now) <==> FitsEveryWindow(limits, ts, Answers(limits, ts), now)
  {
    var d := Answers(limits, ts);
    if Admits(limits, ts, now) {
      forall start: real | start <= now
        ensures CountFrom(ts, d, start) as real + 1.0 <= Allowance(limits, start, now)
      {
        AdmittedFits(limits, ts, now, start);
      }
    } else {
      var start := RefusedDoesNotFit(limits, ts, now);
    }
  }

  lemma AdmittedFits(limits: Limits, ts: seq<real>, now: real, start: real)
    requires ValidLimits(limits) && NonDecreasing(ts + [now]) && Admits(limits, ts, now) && start <= now
    ensures Admitted(limits, ts, start) as real + 1.0 <= Allowance(limits, start, now)
  {
    var all := ts + [now];
    assert all[..|ts|] == ts;
    AllowanceCovers(limits, all, start);
    AdmittedUnfold(limits, all, start);
    TokensInRange(limits, all);
  }

  lemma RefusedDoesNotFit(limits: Limits, ts: seq<real>, now: real) returns (start: real)
    requires ValidLimits(limits) && NonDecreasing(ts + [now]) && !Admits(limits, ts, now)
    ensures start <= now
    ensures Admitted(limits, ts, start) as real + 1.0 > Allowance(limits, start, now)
  {
    var all := ts + [now];
    assert all[..|ts|] == ts;
    start := SomeWindowIsTight(limits, all);
    AdmittedUnfold(limits, all, start);
    assert After(limits, all).tokens < 1.0;
  }

  ghost function CountBetween(ts: seq<real>, d: seq<bool>, start: real, end: real): nat
    requires |d| == |ts|
  {
    if ts == [] then 0
    else
      var n := |ts| - 1;
      CountBetween(ts[..n], d[..n], start, end) + if d[n] && start <= ts[n] <= end then 1 else 0
  }

  lemma {:induction false} BetweenIsFrom(ts: seq<real>, d: seq<bool>, start: real, end: real)
    requires |d| == |ts|
    requires forall i :: 0 <= i < |ts| ==> ts[i] <= end
    ensures CountBetween(ts, d, start, end) == CountFrom(ts, d, start)
  {
    if ts != [] {
      BetweenIsFrom(ts[..|ts| - 1], d[..|ts| - 1], start, end);
    }
  }

  /** No window, wherever it starts and ends, holds more admitted calls than its allowance. */
  lemma {:induction false} EveryWindowIsBounded(limits: Limits, ts: seq<real>, start: real, end: real)
    requires ValidLimits(limits) && NonDecreasing(ts) && start <= end
    ensures CountBetween(ts, Answers(limits, ts), start, end) as real <= Allowance(limits, start, end)
  {
    AllowanceGrows(limits, start, start, end);
    if ts != [] {
      var n := |ts| - 1;
      var d := Answers(limits, ts);
      assert d[..n] == Answers(limits, ts[..n]);
      if ts[n] > end {
        EveryWindowIsBounded(limits, ts[..n], start, end);
      } else {
        BetweenIsFrom(ts, d, start, end);
        if start <= ts[n] {
          AllowanceCovers(limits, ts, start);
          TokensInRange(limits, ts);
          AllowanceGrows(limits, start, ts[n], end);
        } else {
          NothingLater(ts, d, start);
        }
      }
    }
  }

  // ----- No safe policy admits more -----

  /** A policy `d` is safe when each call it admits fits every window, given what it admitted before. */
  ghost predicate SafePolicy(limits: Limits, ts: seq<real>, d: seq<bool>)
    requires |d| == |ts|
  {
    forall k :: 0 <= k < |ts| && d[k] ==> FitsEveryWindow(limits, ts[..k], d[..k], ts[k])
  }

  ghost function Total(d: seq<bool>): nat {
    if d == [] then 0 else Total(d[..|d| - 1]) + if d[|d| - 1] then 1 else 0
  }

  /** At every point, `g` has admitted at least as many calls as `d`. */
  ghost predicate NeverBehind(g: seq<bool>, d: seq<bool>) {
    |g| == |d| && Total(d) <= Total(g) && (d == [] || NeverBehind(g[..|d| - 1], d[..|d| - 1]))
  }

  lemma {:induction false} NeverBehindAt(g: seq<bool>, d: seq<bool>, k: nat)
    requires NeverBehind(g, d) && k <= |d|
    ensures Total(d[..k]) <= Total(g[..k])
  {
    if k == |d| {
      assert d[..k] == d && g[..k] == g;
    } else {
      NeverBehindAt(g[..|d| - 1], d[..|d| - 1], k);
      assert d[..|d| - 1][..k] == d[..k] && g[..|d| - 1][..k] == g[..k];
    }
  }

  /** Where the calls from `start` on begin. */
  ghost function FirstFrom(ts: seq<real>, start: real): (i: nat)
    ensures i <= |ts|
  {
    var n := |ts| - 1;
    if n < 0 then 0 else if ts[n] < start then n + 1 else FirstFrom(ts[..n], start)
  }

  /** In a non-decreasing history the calls from `start` on are those after that position. */
  lemma {:induction false} WindowIsSuffix(ts: seq<real>, d: seq<bool>, start: real)
    requires NonDecreasing(ts) && |d| == |ts|
    ensures CountFrom(ts, d, start) == Total(d) - Total(d[..FirstFrom(ts, start)])
  {
    if ts != [] {
      var n := |ts| - 1;
      if ts[n] < start {
        NothingLater(ts, d, start);
        assert d[..n + 1] == d;
      } else {
        WindowIsSuffix(ts[..n], d[..n], start);
        assert d[..n][..FirstFrom(ts, start)] == d[..FirstFrom(ts, start)];
      }
    }
  }

  lemma {:induction false} AnswersPrefix(limits: Limits, ts: seq<real>, k: nat)
    requires k <= |ts|
    ensures Answers(limits, ts)[..k] == Answers(limits, ts[..k])
  {
    if k == |ts| {
      assert ts[..k] == ts;
    } else {
      var n := |ts| - 1;
      AnswersPrefix(limits, ts[..n], k);
      assert ts[..n][..k] == ts[..k];
      assert Answers(limits, ts)[..k] == Answers(limits, ts[..n])[..k];
    }
  }

  /** The bucket's own answers are a safe policy. */
  lemma AnswersAreSafe(limits: Limits, ts: seq<real>)
    requires ValidLimits(limits) && NonDecreasing(ts)
    ensures SafePolicy(limits, ts, Answers(limits, ts))
  {
    var d := Answers(limits, ts);
    forall k | 0 <= k < |ts| && d[k]
      ensures FitsEveryWindow(limits, ts[..k], d[..k], ts[k])
    {
      AnswersPrefix(limits, ts, k);
      AnswersPrefix(limits, ts, k + 1);
      assert ts[..k + 1][..k] == ts[..k];
      assert d[k] == d[..k + 1][k];
      assert ts[..k] + [ts[k]] == ts[..k + 1];
      AdmitsExactlyWhatFits(limits, ts[..k], ts[k]);
    }
  }

  lemma SafePrefix(limits: Limits, ts: seq<real>, d: seq<bool>, n: nat)
    requires |d| == |ts| && SafePolicy(limits, ts, d) && n <= |ts|
    ensures SafePolicy(limits, ts[..n], d[..n])
  {
    forall k | 0 <= k < n && d[..n][k]
      ensures FitsEveryWindow(limits, ts[..n][..k], d[..n][..k], ts[..n][k])
    {
      assert ts[..n][..k] == ts[..k] && d[..n][..k] == d[..k];
    }
  }

  /** A policy that fits a window the bucket has filled is at least one admission behind. */
  lemma CatchUp(limits: Limits, ts: seq<real>, d: seq<bool>, start: real)
    requires NonDecreasing(ts) && |d| == |ts|
    requires NeverBehind(Answers(limits, ts), d)
    requires CountFrom(ts, d, start) < Admitted(limits, ts, start)
    ensures Total(d) + 1 <= Total(Answers(limits, ts))
  {
    var g, i := Answers(limits, ts), FirstFrom(ts, start);
    NeverBehindAt(g, d, i);
    WindowIsSuffix(ts, d, start);
    WindowIsSuffix(ts, g, start);
  }

  lemma BehindAfterRefusal(limits: Limits, ts: seq<real>, d: seq<bool>, now: real)
    requires ValidLimits(limits) && NonDecreasing(ts + [now]) && |d| == |ts|
    requires NeverBehind(Answers(limits, ts), d)
    requires FitsEveryWindow(limits, ts, d, now) && !Admits(limits, ts, now)
    ensures Total(d) + 1 <= Total(Answers(limits, ts))
  {
    var start := RefusedDoesNotFit(limits, ts, now);
    assert NonDecreasing(ts) by {
      assert (ts + [now])[..|ts|] == ts;
    }
    assert CountFrom(ts, d, start) as real + 1.0 <= Allowance(limits, start, now);
    CatchUp(limits, ts, d, start);
  }

  lemma LastAnswer(limits: Limits, ts: seq<real>, d: seq<bool>)
    requires ValidLimits(limits) && NonDecreasing(ts) && ts != []
    requires |d| == |ts| && SafePolicy(limits, ts, d)
    requires NeverBehind(Answers(limits, ts[..|ts| - 1]), d[..|ts| - 1])
    ensures Total(d) <= Total(Answers(limits, ts))
  {
    var n := |ts| - 1;
    assert ts[..n] + [ts[n]] == ts && d[..n][..n] == d[..n];
    assert Answers(limits, ts[..n])[..n] == Answers(limits, ts[..n]) == Answers(limits, ts)[..n];
    if d[n] && !Admits(limits, ts[..n], ts[n]) {
      BehindAfterRefusal(limits, ts[..n], d[..n], ts[n]);
    }
  }

  /** Maximality: at every point of every history, no safe policy has admitted more calls than the bucket. */
  lemma {:induction false} NoSafePolicyAdmitsMore(limits: Limits, ts: seq<real>, d: seq<bool>)
    requires ValidLimits(limits) && NonDecreasing(ts)
    requires |d| == |ts| && SafePolicy(limits, ts, d)
    ensures NeverBehind(Answers(limits, ts), d)
  {
    if ts != [] {
      var n := |ts| - 1;
      SafePrefix(limits, ts, d, n);
      NoSafePolicyAdmitsMore(limits, ts[..n], d[..n]);
      LastAnswer(limits, ts, d);
      assert Answers(limits, ts)[..n] == Answers(limits, ts[..n]);
    }
  }

  // ----- Exactly the histories that keep the bound -----

  ghost predicate Bounded(limits: Limits, ts: seq<real>, start: real, end: real) {
    CountBetween(ts, Answers(limits, ts), start, end) as real <= Allowance(limits, start, end)
  }

  ghost predicate NotBefore(now: real, ts: seq<real>) {
    forall i :: 0 <= i < |ts| ==> ts[i] <= now
  }

  /** Whatever the limits, and whenever the next call comes, no window holds more than its allowance. */
  ghost predicate KeepsEveryBound(ts: seq<real>) {
    forall limits, now, start, end | ValidLimits(limits) && NotBefore(now, ts) && start <= end ::
      Bounded(limits, ts + [now], start, end)
  }

  function Share(rate: real, time: real): real {
    rate * time
  }

  lemma SharesAdd(rate: real, a: real, b: real)
    ensures Share(rate, a + b) == Share(rate, a) + Share(rate, b)
  {
  }

  lemma PositiveShare(rate: real, time: real)
    requires rate > 0.0
    ensures time > 0.0 ==> Share(rate, time) > 0.0
    ensures time >= 0.0 ==> Share(rate, time) >= 0.0
  {
  }

  lemma SharesGrow(rate: real, a: real, b: real)
    requires rate > 0.0
    ensures a < b ==> Share(rate, a) < Share(rate, b)
    ensures a <= b ==> Share(rate, a) <= Share(rate, b)
  {
    SharesAdd(rate, a, b - a);
    PositiveShare(rate, b - a);
  }

  lemma Reciprocal(time: real) returns (rate: real)
    requires time > 0.0
    ensures rate > 0.0 && Share(rate, time) == 1.0
  {
    rate := 1.0 / time;
  }

  /** All the time the bucket has been credited for: only the forward steps count. */
  ghost function Credit(ts: seq<real>): real {
    var n := |ts| - 1;
    if n <= 0 then 0.0 else Credit(ts[..n]) + Elapsed(ts[n - 1], ts[n])
  }

  /** A clock that ever went back has credited more time than has passed. */
  lemma {:induction false} CreditCoversTime(ts: seq<real>)
    requires ts != []
    ensures Credit(ts) >= 0.0 && Credit(ts) >= ts[|ts| - 1] - ts[0]
    ensures !NonDecreasing(ts) ==> Credit(ts) > ts[|ts| - 1] - ts[0]
  {
    var n := |ts| - 1;
    if n > 0 {
      CreditCoversTime(ts[..n]);
      if !NonDecreasing(ts) && NonDecreasing(ts[..n]) {
        assert ts[n] < ts[n - 1] by {
          assert forall i :: 0 <= i < n ==> ts[..n][i] <= ts[..n][n - 1];
        }
      }
    }
  }

  /** With a burst of one and so little credit, only the first call was admitted. */
  lemma {:induction false} Starved(rate: real, ts: seq<real>)
    requires rate > 0.0 && ts != [] && Share(rate, Credit(ts)) < 1.0
    ensures After(Limits(rate, 1.0), ts) == State(Share(rate, Credit(ts)), ts[|ts| - 1])
  {
    var n := |ts| - 1;
    if n > 0 {
      SharesAdd(rate, Credit(ts[..n]), Elapsed(ts[n - 1], ts[n]));
      SharesGrow(rate, Credit(ts[..n]), Credit(ts));
      Starved(rate, ts[..n]);
      GainedIsShare(rate, ts[n - 1], ts[n]);
    }
  }

  lemma {:induction false} FirstCounts(ts: seq<real>, d: seq<bool>, start: real, end: real)
    requires |d| == |ts| && ts != [] && d[0] && start <= ts[0] <= end
    ensures CountBetween(ts, d, start, end) >= 1
  {
    if |ts| > 1 {
      FirstCounts(ts[..|ts| - 1], d[..|ts| - 1], start, end);
    }
  }

  ghost function Latest(ts: seq<real>): (max: real)
    requires ts != []
    ensures NotBefore(max, ts)
  {
    var n := |ts| - 1;
    if n == 0 then ts[0] else if Latest(ts[..n]) <= ts[n] then ts[n] else Latest(ts[..n])
  }

  lemma FirstIsAdmitted(limits: Limits, ts: seq<real>)
    requires limits.burst == 1.0 && limits.rate >= 0.0 && ts != []
    ensures Answers(limits, ts)[0]
  {
    AnswersPrefix(limits, ts, 1);
    assert ts[..1][..0] == [];
    assert Answers(limits, ts[..1]) == Answers(limits, ts[..1][..0]) + [Admits(limits, ts[..1][..0], ts[0])];
    assert Answers(limits, ts)[..1][0] == Answers(limits, ts)[0];
  }

  lemma GainedIsShare(rate: real, since: real, now: real)
    ensures Gained(Limits(rate, 1.0), since, now) == Share(rate, Elapsed(since, now))
  {
  }

  lemma AllowanceIsShare(rate: real, start: real, end: real)
    ensures Allowance(Limits(rate, 1.0), start, end) == 1.0 + Share(rate, end - start)
  {
  }

  /** The call that comes when the credit makes up one token is admitted. */
  lemma CreditIsPaid(rate: real, ts: seq<real>, now: real)
    requires rate > 0.0 && ts != [] && ts[|ts| - 1] < now
    requires Share(rate, Credit(ts) + (now - ts[|ts| - 1])) == 1.0
    ensures Admits(Limits(rate, 1.0), ts, now)
  {
    var wait := now - ts[|ts| - 1];
    SharesGrow(rate, Credit(ts), Credit(ts) + wait);
    Starved(rate, ts);
    SharesAdd(rate, Credit(ts), wait);
    GainedIsShare(rate, ts[|ts| - 1], now);
  }

  /** A history that went back admits two calls in a window for less than two, for some limits and some later call. */
  lemma RewindBreaksTheBound(ts: seq<real>) returns (limits: Limits, now: real)
    requires !NonDecreasing(ts)
    ensures ValidLimits(limits) && NotBefore(now, ts) && ts[0] <= now
    ensures Admits(limits, ts, now) && !Bounded(limits, ts + [now], ts[0], now)
  {
    CreditCoversTime(ts);
    now := Latest(ts) + 1.0;
    var time := Credit(ts) + (now - ts[|ts| - 1]);
    var rate := Reciprocal(time);
    limits := Limits(rate, 1.0);
    CreditIsPaid(rate, ts, now);
    TwoInTheWindow(limits, ts, now);
    SharesGrow(rate, now - ts[0], time);
    AllowanceIsShare(rate, ts[0], now);
  }

  lemma TwoInTheWindow(limits: Limits, ts: seq<real>, now: real)
    requires limits.burst == 1.0 && limits.rate >= 0.0 && ts != [] && ts[0] <= now && Admits(limits, ts, now)
    ensures CountBetween(ts + [now], Answers(limits, ts + [now]), ts[0], now) >= 2
  {
    var all := ts + [now];
    assert all[..|ts|] == ts;
    FirstIsAdmitted(limits, ts);
    FirstCounts(ts, Answers(limits, ts), ts[0], now);
    assert Answers(limits, all)[..|ts|] == Answers(limits, ts);
  }

  /** The bound holds for all limits, all windows and every later call exactly when the clock never ran backwards. */
  lemma BoundedExactlyWhenNonDecreasing(ts: seq<real>)
    ensures NonDecreasing(ts) <==> KeepsEveryBound(ts)
  {
    if NonDecreasing(ts) {
      forall limits, now, start, end | ValidLimits(limits) && NotBefore(now, ts) && start <= end
        ensures Bounded(limits, ts + [now], start, end)
      {
        EveryWindowIsBounded(limits, ts + [now], start, end);
      }
    } else {
      var limits, now := RewindBreaksTheBound(ts);
      assert !Bounded(limits, ts + [now], ts[0], now);
    }
  }
}

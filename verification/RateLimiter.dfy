/** The two-level limiter: a request takes a token of its bot, then one of its handler. */
module RateLimiters {
  import opened TokenBucket
  import opened BucketMaps
  import opened ForwardClock

  const HANDLER_LIMITS := Limits(10.0, 20.0)
  const BOT_LIMITS := Limits(20.0, 40.0)
  const GROUP_LIMITS := Limits(1.0 / 60.0, 1.0)
  const DEFAULT_POLICY := Policy(300.0, 10_000)

  class RateLimiter {
    const handlers: BucketMap
    const bots: BucketMap
    const groups: BucketMap
    const handlerLimits: Limits
    const botLimits: Limits
    var groupLimits: Limits
    const policy: Policy

    ghost predicate Valid()
      reads this
    {
      && handlers != bots && handlers != groups && bots != groups
      && ValidLimits(handlerLimits) && ValidLimits(botLimits) && ValidLimits(groupLimits)
    }

    constructor (handlerLimits: Limits, botLimits: Limits, at: real)
      requires ValidLimits(handlerLimits) && ValidLimits(botLimits)
      ensures Valid() && fresh(handlers) && fresh(bots) && fresh(groups)
      ensures this.handlerLimits == handlerLimits && this.botLimits == botLimits
      ensures groupLimits == GROUP_LIMITS && policy == DEFAULT_POLICY
      ensures handlers.buckets == map[] && bots.buckets == map[] && groups.buckets == map[]
    {
      handlers := new BucketMap(at);
      bots := new BucketMap(at);
      groups := new BucketMap(at);
      this.handlerLimits, this.botLimits, groupLimits := handlerLimits, botLimits, GROUP_LIMITS;
      policy := DEFAULT_POLICY;
    }

    /** New limits apply to buckets made from now on; an existing bucket keeps its own. */
    method SetGroupLimits(limits: Limits)
      requires Valid() && ValidLimits(limits)
      modifies this
      ensures Valid() && groupLimits == limits
    {
      groupLimits := limits;
    }

    method RemoveHandler(handlerId: string)
      modifies handlers
      ensures handlers.Snap() == Snapshot(old(handlers.buckets) - {handlerId}, old(handlers.lastSweep))
    {
      handlers.buckets := handlers.buckets - {handlerId};
    }

    /** The first half of a check, under the lock of the bots' map. */
    method CheckBot(botId: string, now: real, created: real) returns (ok: bool)
      requires Valid()
      modifies bots
      ensures Step(botLimits, policy, old(bots.Snap()), Call(botId, now), bots.Snap(), ok)
    {
      ok := bots.Use(botId, botLimits, now, created, policy);
    }

    /** The second half, under the lock of the handlers' map. */
    method CheckHandler(handlerId: string, now: real, created: real) returns (ok: bool)
      requires Valid()
      modifies handlers
      ensures Step(handlerLimits, policy, old(handlers.Snap()), Call(handlerId, now), handlers.Snap(), ok)
    {
      ok := handlers.Use(handlerId, handlerLimits, now, created, policy);
    }

    /** Both halves; the handler map is not even swept when the bot is out of tokens. */
    method Check(handlerId: string, botId: string, now: real, created: real) returns (ok: bool, ghost passedBot: bool)
      requires Valid()
      modifies handlers, bots
      ensures Step(botLimits, policy, old(bots.Snap()), Call(botId, now), bots.Snap(), passedBot)
      ensures passedBot ==>
                Step(handlerLimits, policy, old(handlers.Snap()), Call(handlerId, now), handlers.Snap(), ok)
      ensures !passedBot ==> handlers.Snap() == old(handlers.Snap()) && !ok
    {
      var passed := CheckBot(botId, now, created);
      passedBot := passed;
      if !passed {
        return false, passedBot;
      }
      ok := CheckHandler(handlerId, now, created);
    }

    method CheckGroup(botId: string, groupId: string, now: real, created: real) returns (ok: bool)
      requires Valid()
      modifies groups
      ensures Step(groupLimits, policy, old(groups.Snap()), Call(botId + ":" + groupId, now), groups.Snap(), ok)
    {
      ok := groups.Use(botId + ":" + groupId, groupLimits, now, created, policy);
    }
  }

  datatype Side = AtBot | AtHandler
  datatype Request = Request(handler: string, bot: string, now: real)
  datatype Limiting = Limiting(handler: Limits, bot: Limits, policy: Policy)
  datatype Pair = Pair(bots: Snapshot, handlers: Snapshot)

  function LimitsAt(l: Limiting, side: Side): Limits {
    if side == AtBot then l.bot else l.handler
  }

  function KeyAt(r: Request, side: Side): string {
    if side == AtBot then r.bot else r.handler
  }

  function SnapAt(s: Pair, side: Side): Snapshot {
    if side == AtBot then s.bots else s.handlers
  }

  function CallAt(r: Request, side: Side): Call {
    Call(KeyAt(r, side), r.now)
  }

  /** The request is for this bot, or from this handler. */
  predicate Concerns(r: Request, side: Side, key: string) {
    match side
    case AtBot => r.bot == key
    case AtHandler => r.handler == key
  }

  // ----- Concurrent checks -----

  /** One half of one request's check, and its answer. The lock of the first is given up before that of the second
      is taken, so halves of other requests may come in between, and two requests may reach the second half in the
      opposite order to the first. */
  datatype Half = Half(pid: nat, side: Side, ok: bool)

  /** Any number of requests, and their halves in the order in which the locks were taken. */
  datatype Trace = Trace(requests: seq<Request>, halves: seq<Half>, states: seq<Pair>)

  ghost predicate WellFormed(t: Trace) {
    && |t.states| == |t.halves| + 1
    && forall i :: 0 <= i < |t.halves| ==> t.halves[i].pid < |t.requests|
  }

  ghost function RequestAt(t: Trace, i: nat): Request
    requires WellFormed(t) && i < |t.halves|
  {
    t.requests[t.halves[i].pid]
  }

  ghost predicate HalfStep(l: Limiting, t: Trace, i: nat)
    requires WellFormed(t) && i < |t.halves|
  {
    var h := t.halves[i];
    && Step(LimitsAt(l, h.side), l.policy, SnapAt(t.states[i], h.side), CallAt(RequestAt(t, i), h.side),
            SnapAt(t.states[i + 1], h.side), h.ok)
    && forall side :: side != h.side ==> SnapAt(t.states[i + 1], side) == SnapAt(t.states[i], side)
  }

  /** Each half at most once, and the second only after the first has let the request pass. */
  ghost predicate InTurn(t: Trace, i: nat)
    requires WellFormed(t) && i < |t.halves|
  {
    var h := t.halves[i];
    && (forall j :: 0 <= j < i ==> t.halves[j].pid != h.pid || t.halves[j].side != h.side)
    && (h.side == AtHandler ==> Half(h.pid, AtBot, true) in t.halves[..i])
  }

  ghost predicate LimiterRun(l: Limiting, t: Trace) {
    && WellFormed(t)
    && t.states[0].bots.table == map[] && t.states[0].handlers.table == map[]
    && (forall i :: 0 <= i < |t.halves| ==> HalfStep(l, t, i))
    && (forall i :: 0 <= i < |t.halves| ==> InTurn(t, i))
  }

  /** What one of the two maps sees: its own halves are uses, the others leave it alone. */
  ghost function UsesAt(t: Trace, side: Side): (uses: seq<Use>)
    requires WellFormed(t)
    ensures |uses| == |t.halves|
    ensures forall i :: 0 <= i < |uses| ==> uses[i] == Use(t.halves[i].side == side, CallAt(RequestAt(t, i), side), t.halves[i].ok)
  {
    seq(|t.halves|, i requires 0 <= i < |t.halves| =>
                      Use(t.halves[i].side == side, CallAt(RequestAt(t, i), side), t.halves[i].ok))
  }

  ghost function StatesAt(t: Trace, side: Side): (states: seq<Snapshot>)
    ensures |states| == |t.states| && forall i :: 0 <= i < |states| ==> states[i] == SnapAt(t.states[i], side)
  {
    seq(|t.states|, i requires 0 <= i < |t.states| => SnapAt(t.states[i], side))
  }

  /** What the bounds ask of one of the two maps: stale buckets are full ones, its lock is taken in the order of the
      requests' times, and none of its live buckets is dropped for want of room. */
  ghost predicate OrderlyAt(l: Limiting, t: Trace, side: Side)
    requires WellFormed(t)
  {
    Orderly(LimitsAt(l, side), l.policy, UsesAt(t, side), StatesAt(t, side))
  }

  /** What the daemon ships with: twenty calls and ten more a second for a handler, twice that for a bot, one message and one
      more a minute for a Squad. All of it refills within the five minutes after which a bucket is stale. */
  lemma ProductionLimitsQualify(start: real, end: real)
    ensures Allowance(HANDLER_LIMITS, start, end) == 20.0 + 10.0 * (end - start)
    ensures Allowance(BOT_LIMITS, start, end) == 40.0 + 20.0 * (end - start)
    ensures Allowance(GROUP_LIMITS, start, end) == 1.0 + (end - start) / 60.0
    ensures DEFAULT_POLICY == Policy(300.0, 10_000)
    ensures ValidLimits(HANDLER_LIMITS) && StaleMeansFull(HANDLER_LIMITS, DEFAULT_POLICY)
    ensures ValidLimits(BOT_LIMITS) && StaleMeansFull(BOT_LIMITS, DEFAULT_POLICY)
    ensures ValidLimits(GROUP_LIMITS) && StaleMeansFull(GROUP_LIMITS, DEFAULT_POLICY)
  {
  }

  lemma SideRuns(l: Limiting, t: Trace, side: Side)
    requires LimiterRun(l, t)
    ensures UsesRun(LimitsAt(l, side), l.policy, UsesAt(t, side), StatesAt(t, side))
  {
    forall i | 0 <= i < |t.halves|
      ensures if t.halves[i].side == side
              then Step(LimitsAt(l, side), l.policy, StatesAt(t, side)[i], UsesAt(t, side)[i].call, StatesAt(t, side)[i + 1],
                        t.halves[i].ok)
              else StatesAt(t, side)[i + 1] == StatesAt(t, side)[i]
    {
      assert HalfStep(l, t, i);
    }
  }

  /** The times of the requests for this bot, or from this handler, whose halves on this side came before the half at `n`. */
  ghost function EarlierTimes(t: Trace, side: Side, key: string, n: nat): seq<real>
    requires WellFormed(t) && n <= |t.halves|
  {
    if n == 0 then []
    else
      EarlierTimes(t, side, key, n - 1)
      + if t.halves[n - 1].side == side && Concerns(RequestAt(t, n - 1), side, key) then [RequestAt(t, n - 1).now] else []
  }

  lemma OneMoreCall(t: Trace, side: Side, n: nat)
    requires WellFormed(t) && n < |t.halves|
    ensures CallsIn(UsesAt(t, side)[..n + 1])
            == CallsIn(UsesAt(t, side)[..n]) + if t.halves[n].side == side then [CallAt(RequestAt(t, n), side)] else []
  {
    assert UsesAt(t, side)[..n + 1][..n] == UsesAt(t, side)[..n];
  }

  lemma OneMoreTime(calls: seq<Call>, r: Request, side: Side, key: string)
    ensures TimesOf(calls + [CallAt(r, side)], key) == TimesOf(calls, key) + if Concerns(r, side, key) then [r.now] else []
  {
    TimesOfSnoc(calls, CallAt(r, side), key);
  }

  lemma {:induction false} KeyHasItsOwnBucket(t: Trace, side: Side, key: string, n: nat)
    requires WellFormed(t) && n <= |t.halves|
    ensures TimesOf(CallsIn(UsesAt(t, side)[..n]), key) == EarlierTimes(t, side, key, n)
  {
    if n > 0 {
      KeyHasItsOwnBucket(t, side, key, n - 1);
      OneMoreCall(t, side, n - 1);
      var earlier := CallsIn(UsesAt(t, side)[..n - 1]);
      if t.halves[n - 1].side == side {
        OneMoreTime(earlier, RequestAt(t, n - 1), side, key);
      } else {
        assert earlier + [] == earlier;
      }
    }
  }

  /** Along every interleaving, sweeps included, each half lets a request pass exactly when that fits every window of the
      earlier requests for its bot, or from its handler, that this side has seen. */
  lemma HalfPassesExactlyWhenItFits(l: Limiting, t: Trace, i: nat)
    requires LimiterRun(l, t) && i < |t.halves| && OrderlyAt(l, t, t.halves[i].side)
    ensures var r, side := RequestAt(t, i), t.halves[i].side;
            var ts := EarlierTimes(t, side, if side == AtBot then r.bot else r.handler, i);
            var limits := if side == AtBot then l.bot else l.handler;
            t.halves[i].ok <==> FitsEveryWindow(limits, ts, Answers(limits, ts), r.now)
  {
    var side := t.halves[i].side;
    SideRuns(l, t, side);
    PassesExactlyWhenItFits(LimitsAt(l, side), l.policy, UsesAt(t, side), StatesAt(t, side), i);
    KeyHasItsOwnBucket(t, side, KeyAt(RequestAt(t, i), side), i);
  }

  // ----- What that means for the requests -----

  /** The requests that one map let pass or refused. */
  ghost function Answered(t: Trace, side: Side, ok: bool): set<nat> {
    set h | h in t.halves && h.side == side && h.ok == ok :: h.pid
  }

  /** The request was admitted. */
  ghost function Admitted(t: Trace): set<nat> {
    Answered(t, AtHandler, true)
  }

  /** It took a token of its bot and was then refused by its handler's bucket. */
  ghost function Wasted(t: Trace): set<nat> {
    Answered(t, AtHandler, false)
  }

  /** It took a token of its bot and has not reached the handlers' map yet. */
  ghost function Between(t: Trace): set<nat> {
    Answered(t, AtBot, true) - Admitted(t) - Wasted(t)
  }

  /** Of these requests, the ones with this key and a time in this window. */
  ghost function Within(t: Trace, pids: set<nat>, side: Side, key: string, start: real, end: real): set<nat> {
    set p | p in pids && p < |t.requests| && Concerns(t.requests[p], side, key) && start <= t.requests[p].now <= end
  }

  ghost function Take(t: Trace, n: nat): Trace
    requires WellFormed(t) && n <= |t.halves|
  {
    Trace(t.requests, t.halves[..n], t.states[..n + 1])
  }

  ghost predicate EachInTurn(t: Trace)
    requires WellFormed(t)
  {
    forall i :: 0 <= i < |t.halves| ==> InTurn(t, i)
  }

  lemma TakeInTurn(t: Trace, n: nat, side: Side)
    requires WellFormed(t) && EachInTurn(t) && n <= |t.halves|
    ensures EachInTurn(Take(t, n)) && UsesAt(Take(t, n), side) == UsesAt(t, side)[..n]
  {
    var t' := Take(t, n);
    forall i | 0 <= i < n
      ensures InTurn(t', i)
    {
      assert InTurn(t, i) && t'.halves[..i] == t.halves[..i];
    }
    assert forall i :: 0 <= i < n ==> RequestAt(t', i) == RequestAt(t, i);
  }

  lemma OneMoreAnswered(t: Trace, side: Side, ok: bool)
    requires WellFormed(t) && t.halves != []
    ensures var h := t.halves[|t.halves| - 1];
            Answered(t, side, ok) == Answered(Take(t, |t.halves| - 1), side, ok)
                                     + if h.side == side && h.ok == ok then {h.pid} else {}
  {
    var n := |t.halves| - 1;
    assert t.halves == t.halves[..n] + [t.halves[n]];
  }

  lemma NewAnswer(t: Trace)
    requires WellFormed(t) && t.halves != [] && InTurn(t, |t.halves| - 1)
    ensures var n := |t.halves| - 1;
            forall ok :: t.halves[n].pid !in Answered(Take(t, n), t.halves[n].side, ok)
  {
  }

  lemma OneMoreWithin(t: Trace, pids: set<nat>, p: nat, side: Side, key: string, start: real, end: real)
    requires p < |t.requests| && p !in pids
    ensures var r := t.requests[p];
            |Within(t, pids + {p}, side, key, start, end)|
            == |Within(t, pids, side, key, start, end)| + if Concerns(r, side, key) && start <= r.now <= end then 1 else 0
  {
    var r := t.requests[p];
    assert Within(t, pids + {p}, side, key, start, end)
           == Within(t, pids, side, key, start, end) + if Concerns(r, side, key) && start <= r.now <= end then {p} else {};
  }

  lemma SameWithin(t: Trace, n: nat, pids: set<nat>, side: Side, key: string, start: real, end: real)
    requires WellFormed(t) && n <= |t.halves|
    ensures Within(Take(t, n), pids, side, key, start, end) == Within(t, pids, side, key, start, end)
  {
  }

  /** One more half on this side adds its request exactly if it passes. */
  lemma PassedHere(t: Trace, key: string, start: real, end: real)
    requires WellFormed(t) && t.halves != [] && InTurn(t, |t.halves| - 1)
    ensures var n := |t.halves| - 1; var h, r := t.halves[n], RequestAt(t, n);
            |Within(t, Answered(t, h.side, true), h.side, key, start, end)|
            == |Within(Take(t, n), Answered(Take(t, n), h.side, true), h.side, key, start, end)|
               + if h.ok && Concerns(r, h.side, key) && start <= r.now <= end then 1 else 0
  {
    var n := |t.halves| - 1;
    var h, before := t.halves[n], Answered(Take(t, n), t.halves[n].side, true);
    OneMoreAnswered(t, h.side, true);
    NewAnswer(t);
    SameWithin(t, n, before, h.side, key, start, end);
    if h.ok {
      OneMoreWithin(t, before, h.pid, h.side, key, start, end);
    } else {
      assert Answered(t, h.side, true) == before;
    }
  }

  lemma PassedElsewhere(t: Trace, side: Side, key: string, start: real, end: real)
    requires WellFormed(t) && t.halves != [] && t.halves[|t.halves| - 1].side != side
    ensures var t' := Take(t, |t.halves| - 1);
            Within(t, Answered(t, side, true), side, key, start, end) == Within(t', Answered(t', side, true), side, key, start, end)
  {
    OneMoreAnswered(t, side, true);
    SameWithin(t, |t.halves| - 1, Answered(t, side, true), side, key, start, end);
  }

  /** Counting requests and counting uses is the same, since each request uses each map once at most. */
  lemma {:induction false} WithinIsPassed(t: Trace, side: Side, key: string, start: real, end: real)
    requires WellFormed(t) && EachInTurn(t)
    ensures |Within(t, Answered(t, side, true), side, key, start, end)| == Passed(UsesAt(t, side), key, start, end)
    decreases |t.halves|
  {
    if t.halves == [] {
      assert Within(t, Answered(t, side, true), side, key, start, end) == {};
    } else {
      var n := |t.halves| - 1;
      TakeInTurn(t, n, side);
      WithinIsPassed(Take(t, n), side, key, start, end);
      if t.halves[n].side == side {
        assert InTurn(t, n);
        PassedHere(t, key, start, end);
      } else {
        PassedElsewhere(t, side, key, start, end);
      }
    }
  }

  /** No window lets either map pass more requests of one key than its allowance. */
  lemma SideWindowsHold(l: Limiting, t: Trace, side: Side, key: string, start: real, end: real)
    requires LimiterRun(l, t) && OrderlyAt(l, t, side) && start <= end
    ensures |Within(t, Answered(t, side, true), side, key, start, end)| as real <= Allowance(LimitsAt(l, side), start, end)
    ensures |Within(t, Answered(t, side, true), side, key, start, end)|
            == KeyCount(LimitsAt(l, side), CallsIn(UsesAt(t, side)), key, start, end)
  {
    SideRuns(l, t, side);
    WithinIsPassed(t, side, key, start, end);
    WindowsHold(LimitsAt(l, side), l.policy, UsesAt(t, side), StatesAt(t, side), key, start, end);
    PassedIsItsBucket(LimitsAt(l, side), l.policy, UsesAt(t, side), StatesAt(t, side), key, start, end);
  }

  /** Admitted requests respect the handler's allowance in every window, if the handlers' lock was taken in the order
      of the requests' times. */
  lemma HandlerWindowsHold(l: Limiting, t: Trace, handler: string, start: real, end: real)
    requires LimiterRun(l, t) && OrderlyAt(l, t, AtHandler) && start <= end
    ensures |Within(t, Admitted(t), AtHandler, handler, start, end)| as real <= Allowance(l.handler, start, end)
  {
    SideWindowsHold(l, t, AtHandler, handler, start, end);
  }

  /** A request that reached its handler's bucket had passed its bot's, and was answered there once. */
  lemma HandlersSawThePassed(l: Limiting, t: Trace)
    requires LimiterRun(l, t)
    ensures Admitted(t) + Wasted(t) <= Answered(t, AtBot, true) && Admitted(t) !! Wasted(t)
  {
    forall p | p in Admitted(t) + Wasted(t)
      ensures p in Answered(t, AtBot, true)
    {
      var h :| h in t.halves && h.side == AtHandler && h.pid == p;
      var i :| 0 <= i < |t.halves| && t.halves[i] == h;
      assert InTurn(t, i);
      assert Half(p, AtBot, true) in t.halves[..i];
    }
    forall p | p in Admitted(t)
      ensures p !in Wasted(t)
    {
      assert Half(p, AtHandler, true) in t.halves;
      var i :| 0 <= i < |t.halves| && t.halves[i] == Half(p, AtHandler, true);
      assert InTurn(t, i);
      forall j | 0 <= j < |t.halves| && j != i
        ensures t.halves[j].pid != p || t.halves[j].side != AtHandler
      {
        assert InTurn(t, j);
      }
    }
  }

  /** The tokens a bot has spent are its admitted requests, those its handlers' buckets refused and those between the
      two halves; and none of them is counted twice. */
  lemma PassedIsAdmittedWastedOrBetween(l: Limiting, t: Trace, bot: string, start: real, end: real)
    requires LimiterRun(l, t)
    ensures |Within(t, Answered(t, AtBot, true), AtBot, bot, start, end)|
            == |Within(t, Admitted(t), AtBot, bot, start, end)| + |Within(t, Wasted(t), AtBot, bot, start, end)|
               + |Within(t, Between(t), AtBot, bot, start, end)|
  {
    HandlersSawThePassed(l, t);
    var admitted, wasted := Within(t, Admitted(t), AtBot, bot, start, end), Within(t, Wasted(t), AtBot, bot, start, end);
    var between := Within(t, Between(t), AtBot, bot, start, end);
    assert Within(t, Answered(t, AtBot, true), AtBot, bot, start, end) == admitted + wasted + between;
    assert admitted !! wasted && (admitted + wasted) !! between;
  }

  /** All of them together respect the bot's allowance in every window, and are exactly the tokens spent. */
  lemma BotWindowsHold(l: Limiting, t: Trace, bot: string, start: real, end: real)
    requires LimiterRun(l, t) && OrderlyAt(l, t, AtBot) && start <= end
    ensures var spent := |Within(t, Admitted(t), AtBot, bot, start, end)| + |Within(t, Wasted(t), AtBot, bot, start, end)|
                         + |Within(t, Between(t), AtBot, bot, start, end)|;
            && spent as real <= Allowance(l.bot, start, end)
            && spent == KeyCount(l.bot, CallsIn(UsesAt(t, AtBot)), bot, start, end)
  {
    PassedIsAdmittedWastedOrBetween(l, t, bot, start, end);
    SideWindowsHold(l, t, AtBot, bot, start, end);
  }

  // ----- In any order of the times -----

  /** The premises of one of the two maps but for the order of the times. */
  ghost predicate RoomyAt(l: Limiting, t: Trace, side: Side)
    requires WellFormed(t)
  {
    Roomy(LimitsAt(l, side), l.policy, UsesAt(t, side), StatesAt(t, side))
  }

  ghost predicate PassesHere(t: Trace, k: nat, side: Side, key: string)
    requires WellFormed(t) && k < |t.halves|
  {
    t.halves[k].side == side && t.halves[k].ok && Concerns(RequestAt(t, k), side, key)
  }

  /** The requests with this key that one map lets pass from the half at `i` up to that at `j`. */
  ghost function Through(t: Trace, side: Side, key: string, i: nat, j: nat): set<nat>
    requires WellFormed(t) && j <= |t.halves|
  {
    set k | i <= k < j && PassesHere(t, k, side, key) :: t.halves[k].pid
  }

  lemma ThroughGrows(t: Trace, side: Side, key: string, i: nat, j: nat)
    requires WellFormed(t) && i < j <= |t.halves|
    ensures Through(t, side, key, i, j)
            == Through(t, side, key, i, j - 1) + if PassesHere(t, j - 1, side, key) then {t.halves[j - 1].pid} else {}
  {
  }

  lemma NewThrough(t: Trace, side: Side, key: string, i: nat, j: nat)
    requires WellFormed(t) && EachInTurn(t) && i <= j < |t.halves| && PassesHere(t, j, side, key)
    ensures t.halves[j].pid !in Through(t, side, key, i, j)
  {
    assert InTurn(t, j);
    forall k | i <= k < j && PassesHere(t, k, side, key)
      ensures t.halves[k].pid != t.halves[j].pid
    {
    }
  }

  lemma {:induction false} ThroughIsPassed(t: Trace, side: Side, key: string, i: nat, j: nat)
    requires WellFormed(t) && EachInTurn(t) && i <= j <= |t.halves|
    ensures |Through(t, side, key, i, j)| == PassedFrom(UsesAt(t, side)[..j], key, i)
    decreases j
  {
    var uses := UsesAt(t, side)[..j];
    if i < j {
      assert uses[..j - 1] == UsesAt(t, side)[..j - 1];
      ThroughIsPassed(t, side, key, i, j - 1);
      ThroughGrows(t, side, key, i, j);
      if PassesHere(t, j - 1, side, key) {
        NewThrough(t, side, key, i, j - 1);
      }
      assert Passes(uses[j - 1], key) <==> PassesHere(t, j - 1, side, key);
    } else {
      assert Through(t, side, key, i, j) == {};
    }
  }

  lemma PassedIsBounded(l: Limiting, t: Trace, side: Side, key: string, i: nat, j: nat)
    requires LimiterRun(l, t) && RoomyAt(l, t, side) && i < j <= |t.halves|
    ensures var uses, limits := UsesAt(t, side), LimitsAt(l, side);
            PassedFrom(uses[..j], key, i) as real
            <= limits.burst + Share(limits.rate, Forward(uses[..j]) - Forward(uses[..i + 1]))
  {
    SideRuns(l, t, side);
    ForwardTimeBounds(LimitsAt(l, side), l.policy, UsesAt(t, side), StatesAt(t, side), key, i, j);
  }

  /** Whatever the order in which the locks are taken: from any half to any later one, a map lets pass at most the burst
      and what the steps forwards of its requests' times in between have earned. */
  lemma AnyOrderIsBounded(l: Limiting, t: Trace, side: Side, key: string, i: nat, j: nat)
    requires LimiterRun(l, t) && RoomyAt(l, t, side) && i < j <= |t.halves|
    ensures var uses, limits := UsesAt(t, side), LimitsAt(l, side);
            |Through(t, side, key, i, j)| as real
            <= limits.burst + Share(limits.rate, Forward(uses[..j]) - Forward(uses[..i + 1]))
  {
    ThroughIsPassed(t, side, key, i, j);
    PassedIsBounded(l, t, side, key, i, j);
  }
}

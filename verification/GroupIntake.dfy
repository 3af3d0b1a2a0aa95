/** Which group messages reach a bot's handlers: each event once per window, and no more per Squad than its bucket allows. */
module GroupIntakes {
  import opened Wrappers
  import opened TokenBucket
  import BucketMaps
  import RateLimiters
  import DedupCaches
  import opened BotDirectories

  datatype Message = Message(bot: string, event: string, chat: Option<string>, window: real, at: real, checkedAt: real)

  datatype Outcome = Duplicate | RateLimited | Delivered

  datatype Metadata = Metadata(isMentioned: bool, mentionedBotIds: seq<string>)

  function Squad(m: Message): string {
    if m.chat.Some? then m.chat.value else ""
  }

  function EventKey(m: Message): string {
    SlotKey(m.bot, m.event)
  }

  function SquadKey(m: Message): string {
    SlotKey(m.bot, Squad(m))
  }

  datatype Config = Config(maxSize: nat, limits: Limits, policy: BucketMaps.Policy)

  datatype Intake = Intake(seen: DedupCaches.Times, groups: BucketMaps.Snapshot)

  /** The Squad's bucket is not touched by a duplicate. */
  ghost predicate Step(c: Config, s: Intake, m: Message, s': Intake, o: Outcome) {
    && DedupCaches.Asked(s.seen, c.maxSize, EventKey(m), m.window, m.at, s'.seen, o == Duplicate)
    && (if o == Duplicate then s'.groups == s.groups
        else BucketMaps.Step(c.limits, c.policy, s.groups, CallOf(m), s'.groups, o == Delivered))
  }

  class GroupIntake {
    const cache: DedupCaches.DedupCache
    const limiter: RateLimiters.RateLimiter

    ghost predicate Valid()
      reads this, limiter
    {
      limiter.Valid()
    }

    constructor (cache: DedupCaches.DedupCache, limiter: RateLimiters.RateLimiter)
      requires limiter.Valid()
      ensures Valid() && this.cache == cache && this.limiter == limiter
    {
      this.cache, this.limiter := cache, limiter;
    }

    ghost function Value(): Intake
      reads this, cache, limiter, limiter.groups
    {
      Intake(cache.seen, limiter.groups.Snap())
    }

    ghost function Settings(): Config
      reads this, limiter
    {
      Config(cache.maxSize, limiter.groupLimits, limiter.policy)
    }

    /** `process_mls_group_message`; the clock is read again before the Squad's bucket is checked. `handlers` are those
        the registry found, `authorized` those with the capability to receive group messages. */
    method Process(m: Message, created: real, handlers: seq<string>, authorized: set<string>,
                   botNpub: string, mentions: seq<string>, ids: map<string, string>)
      returns (o: Outcome, kept: seq<string>, notified: seq<string>, meta: Metadata)
      requires Valid()
      modifies cache, limiter.groups
      ensures Valid() && limiter.groupLimits == old(limiter.groupLimits)
      ensures Step(Settings(), old(Value()), m, Value(), o)
      ensures kept == Retained(handlers, authorized)
      ensures notified == if o == RateLimited then kept else []
      ensures o == Delivered ==> meta == Metadata(botNpub in mentions, Mentioned(mentions, ids))
    {
      meta, notified := Metadata(false, []), [];
      kept := RetainAuthorized(handlers, authorized);
      var dup := cache.IsDuplicate(EventKey(m), m.window, m.at);
      if dup {
        return Duplicate, kept, notified, meta;
      }
      var ok := limiter.CheckGroup(m.bot, Squad(m), m.checkedAt, created);
      if !ok {
        return RateLimited, kept, kept, meta;
      }
      var found := MentionedBotIds(mentions, ids);
      return Delivered, kept, notified, Metadata(botNpub in mentions, found);
    }
  }

  /** The handlers that may receive group messages, in the order in which they were found. */
  ghost function Retained(handlers: seq<string>, authorized: set<string>): seq<string> {
    if handlers == [] then []
    else
      var n := |handlers| - 1;
      Retained(handlers[..n], authorized) + if handlers[n] in authorized then [handlers[n]] else []
  }

  /** The handlers kept come from these positions, all those of authorized ones, in order. */
  ghost predicate ComesFrom(kept: seq<string>, handlers: seq<string>, authorized: set<string>, from: seq<nat>) {
    && |from| == |kept|
    && (forall i :: 0 <= i < |from| ==> from[i] < |handlers| && handlers[from[i]] == kept[i])
    && (forall i, j :: 0 <= i < j < |from| ==> from[i] < from[j])
    && (forall k: nat :: k < |handlers| && handlers[k] in authorized ==> k in from)
  }

  lemma OneMoreKept(kept: seq<string>, handlers: seq<string>, authorized: set<string>, from: seq<nat>, h: string)
    requires ComesFrom(kept, handlers, authorized, from)
    ensures h in authorized ==> ComesFrom(kept + [h], handlers + [h], authorized, from + [|handlers|])
    ensures h !in authorized ==> ComesFrom(kept, handlers + [h], authorized, from)
  {
    assert (from + [|handlers|])[|from|] == |handlers|;
    assert forall k :: k in from ==> k in from + [|handlers|];
  }

  /** Every authorized handler is kept once for each time it was found, in the order found, and no other is. */
  lemma {:induction false} KeptInOrder(handlers: seq<string>, authorized: set<string>) returns (from: seq<nat>)
    ensures ComesFrom(Retained(handlers, authorized), handlers, authorized, from)
    ensures forall i :: 0 <= i < |Retained(handlers, authorized)| ==> Retained(handlers, authorized)[i] in authorized
  {
    from := [];
    if handlers != [] {
      var n := |handlers| - 1;
      from := KeptInOrder(handlers[..n], authorized);
      OneMoreKept(Retained(handlers[..n], authorized), handlers[..n], authorized, from, handlers[n]);
      assert handlers[..n] + [handlers[n]] == handlers;
      if handlers[n] in authorized {
        from := from + [n];
      }
    }
  }

  method RetainAuthorized(handlers: seq<string>, authorized: set<string>) returns (kept: seq<string>)
    ensures kept == Retained(handlers, authorized)
    ensures forall h :: h in kept <==> h in handlers && h in authorized
  {
    kept := [];
    for i := 0 to |handlers|
      invariant kept == Retained(handlers[..i], authorized)
      invariant forall h :: h in kept <==> h in handlers[..i] && h in authorized
    {
      assert handlers[..i + 1][..i] == handlers[..i] && handlers[..i + 1] == handlers[..i] + [handlers[i]];
      if handlers[i] in authorized {
        kept := kept + [handlers[i]];
      }
    }
    assert handlers[..|handlers|] == handlers;
  }

  // ----- Whole runs -----

  datatype Trace = Trace(messages: seq<Message>, states: seq<Intake>, outcomes: seq<Outcome>)

  ghost predicate WellFormed(t: Trace) {
    |t.states| == |t.messages| + 1 && |t.outcomes| == |t.messages|
  }

  ghost predicate Run(c: Config, t: Trace) {
    && WellFormed(t) && t.states[0].seen == map[] && t.states[0].groups.table == map[]
    && forall i :: 0 <= i < |t.messages| ==> Step(c, t.states[i], t.messages[i], t.states[i + 1], t.outcomes[i])
  }

  /** Valid bot ids, one window for all, a clock that does not run backwards, and room enough in both structures. */
  ghost predicate Orderly(c: Config, t: Trace)
    requires WellFormed(t)
  {
    && (forall i :: 0 <= i < |t.messages| ==> ValidateBotId(t.messages[i].bot).Ok? && t.messages[i].at <= t.messages[i].checkedAt)
    && (forall i, j :: 0 <= i < j < |t.messages| ==>
          t.messages[i].checkedAt <= t.messages[j].at && t.messages[i].window == t.messages[j].window)
    && NeverCrowded(c, t)
  }

  ghost predicate NeverCrowded(c: Config, t: Trace)
    requires WellFormed(t)
  {
    forall i :: 0 <= i < |t.messages| ==>
      && (|t.states[i].seen| >= DedupCaches.CLEANUP_THRESHOLD ==>
            |DedupCaches.Fresh(t.states[i].seen, t.messages[i].at, t.messages[i].window)| <= c.maxSize)
      && |BucketMaps.Live(t.states[i].groups.table, t.messages[i].checkedAt, c.policy)| <= c.policy.maxBuckets
  }

  ghost predicate Qualifies(c: Config) {
    ValidLimits(c.limits) && BucketMaps.StaleMeansFull(c.limits, c.policy)
  }

  // ----- What the cache sees -----

  ghost function Queries(ms: seq<Message>): (qs: seq<DedupCaches.Query>)
    ensures |qs| == |ms|
    ensures forall i :: 0 <= i < |ms| ==> qs[i] == DedupCaches.Query(EventKey(ms[i]), ms[i].window, ms[i].at)
  {
    seq(|ms|, i requires 0 <= i < |ms| => DedupCaches.Query(EventKey(ms[i]), ms[i].window, ms[i].at))
  }

  ghost function Dropped(os: seq<Outcome>): (dups: seq<bool>)
    ensures |dups| == |os| && forall i :: 0 <= i < |os| ==> dups[i] == (os[i] == Duplicate)
  {
    seq(|os|, i requires 0 <= i < |os| => os[i] == Duplicate)
  }

  lemma CacheRun(c: Config, t: Trace) returns (states: seq<DedupCaches.Times>)
    requires Run(c, t) && Orderly(c, t)
    ensures DedupCaches.Run(c.maxSize, Queries(t.messages), states, Dropped(t.outcomes))
    ensures DedupCaches.ClockForward(Queries(t.messages)) && DedupCaches.WindowsNeverGrow(Queries(t.messages))
    ensures DedupCaches.NoCapacityEviction(c.maxSize, Queries(t.messages), states)
  {
    states := seq(|t.states|, i requires 0 <= i < |t.states| => t.states[i].seen);
    var qs, dups := Queries(t.messages), Dropped(t.outcomes);
    forall i | 0 <= i < |qs|
      ensures DedupCaches.Asked(states[i], c.maxSize, qs[i].id, qs[i].window, qs[i].now, states[i + 1], dups[i])
    {
      assert Step(c, t.states[i], t.messages[i], t.states[i + 1], t.outcomes[i]);
    }
  }

  ghost predicate SameEvent(m: Message, n: Message) {
    m.bot == n.bot && m.event == n.event
  }

  /** An event reaches a bot at most once per window, even when other bots and other events share the cache. */
  lemma DeliveredOncePerWindow(c: Config, t: Trace, i: nat, j: nat)
    requires Run(c, t) && Orderly(c, t) && i < j < |t.messages|
    requires SameEvent(t.messages[i], t.messages[j]) && t.outcomes[i] == Delivered && t.outcomes[j] == Delivered
    ensures t.messages[j].at - t.messages[i].at >= t.messages[j].window
  {
    var states := CacheRun(c, t);
    DedupCaches.AcceptancesAreAWindowApart(c.maxSize, Queries(t.messages), states, Dropped(t.outcomes), i, j);
  }

  /** An earlier message with the same event for the same bot was not a duplicate, less than a window before. */
  ghost predicate TakenWithin(t: Trace, k: nat, i: nat)
    requires WellFormed(t) && i < |t.messages|
  {
    && k < i && SameEvent(t.messages[k], t.messages[i]) && t.outcomes[k] != Duplicate
    && t.messages[i].at - t.messages[k].at < t.messages[i].window
  }

  /** A message is dropped as a duplicate exactly when the same event was taken for the same bot less than a window ago. */
  lemma DroppedExactlyWhenTaken(c: Config, t: Trace, i: nat)
    requires Run(c, t) && Orderly(c, t) && i < |t.messages|
    ensures t.outcomes[i] == Duplicate <==> exists k :: TakenWithin(t, k, i)
  {
    var qs, dups := Queries(t.messages), Dropped(t.outcomes);
    var states := CacheRun(c, t);
    DedupCaches.ExactWithoutEviction(c.maxSize, qs, states, dups, i);
    DedupCaches.AcceptedBy(qs[..i], dups[..i], qs[i].now);
    if dups[i] {
      var k := DedupCaches.LastAcceptanceOf(qs, dups, i, qs[i].id);
      DedupCaches.LastAcceptanceCounts(qs, dups, k, i);
      SlotsDoNotCollide(t.messages[k].bot, t.messages[k].event, t.messages[i].bot, t.messages[i].event);
      assert TakenWithin(t, k, i);
    }
    if k: nat :| TakenWithin(t, k, i) {
      assert qs[..i][k] == qs[k] && qs[k].id == qs[i].id && !dups[..i][k];
      TakenIsRemembered(qs, dups, k, i);
    }
  }

  lemma TakenIsRemembered(qs: seq<DedupCaches.Query>, dups: seq<bool>, k: nat, i: nat)
    requires |dups| == |qs| && k < i < |qs| && DedupCaches.ClockForward(qs)
    requires qs[k].id == qs[i].id && !dups[k] && qs[i].now - qs[k].now < qs[i].window
    ensures DedupCaches.RecentlyAccepted(qs[..i], dups[..i], qs[i])
  {
    DedupCaches.AcceptedSince(qs[..i], dups[..i], k);
    DedupCaches.AcceptedBy(qs[..i], dups[..i], qs[i].now);
  }

  // ----- What the Squads' buckets see -----

  ghost function CallOf(m: Message): BucketMaps.Call {
    BucketMaps.Call(SquadKey(m), m.checkedAt)
  }

  /** Only messages that are not duplicates use the buckets. */
  ghost function Uses(ms: seq<Message>, os: seq<Outcome>): (uses: seq<BucketMaps.Use>)
    requires |os| == |ms|
    ensures |uses| == |ms|
    ensures forall i :: 0 <= i < |ms| ==> uses[i] == BucketMaps.Use(os[i] != Duplicate, CallOf(ms[i]), os[i] == Delivered)
  {
    seq(|ms|, i requires 0 <= i < |ms| => BucketMaps.Use(os[i] != Duplicate, CallOf(ms[i]), os[i] == Delivered))
  }

  lemma BucketsRun(c: Config, t: Trace) returns (states: seq<BucketMaps.Snapshot>)
    requires Qualifies(c) && Run(c, t) && Orderly(c, t)
    ensures BucketMaps.UsesRun(c.limits, c.policy, Uses(t.messages, t.outcomes), states)
    ensures BucketMaps.Orderly(c.limits, c.policy, Uses(t.messages, t.outcomes), states)
  {
    states := seq(|t.states|, i requires 0 <= i < |t.states| => t.states[i].groups);
    var uses := Uses(t.messages, t.outcomes);
    forall i | 0 <= i < |uses|
      ensures if uses[i].used then BucketMaps.Step(c.limits, c.policy, states[i], uses[i].call, states[i + 1], uses[i].ok)
              else states[i + 1] == states[i]
    {
      assert Step(c, t.states[i], t.messages[i], t.states[i + 1], t.outcomes[i]);
    }
  }

  // ----- One Squad at a time -----

  ghost predicate NoChat(m: Message) {
    m.chat.None? || m.chat.value == ""
  }

  /** Messages from one chat to one bot; those that name no chat go together. */
  ghost predicate SameSquad(m: Message, n: Message) {
    m.bot == n.bot && (m.chat == n.chat || (NoChat(m) && NoChat(n)))
  }

  lemma SameSquadSameKey(m: Message, n: Message)
    requires ValidateBotId(m.bot).Ok? && ValidateBotId(n.bot).Ok?
    ensures SquadKey(m) == SquadKey(n) <==> SameSquad(m, n)
  {
    SlotsDoNotCollide(m.bot, Squad(m), n.bot, Squad(n));
  }

  /** When the messages of the Squad of `m` came that were no duplicates. */
  ghost function SquadTimes(ms: seq<Message>, os: seq<Outcome>, m: Message): seq<real>
    requires |os| == |ms|
  {
    if ms == [] then []
    else
      var n := |ms| - 1;
      SquadTimes(ms[..n], os[..n], m) + if os[n] != Duplicate && SameSquad(ms[n], m) then [ms[n].checkedAt] else []
  }

  lemma CallsOfOneMore(ms: seq<Message>, os: seq<Outcome>)
    requires |os| == |ms| && ms != []
    ensures var n := |ms| - 1;
            BucketMaps.CallsIn(Uses(ms, os))
            == BucketMaps.CallsIn(Uses(ms[..n], os[..n])) + if os[n] != Duplicate then [CallOf(ms[n])] else []
  {
    var n := |ms| - 1;
    assert Uses(ms, os)[..n] == Uses(ms[..n], os[..n]);
  }

  lemma {:induction false} SquadHasItsOwnBucket(ms: seq<Message>, os: seq<Outcome>, m: Message)
    requires |os| == |ms| && ValidateBotId(m.bot).Ok? && forall i :: 0 <= i < |ms| ==> ValidateBotId(ms[i].bot).Ok?
    ensures BucketMaps.TimesOf(BucketMaps.CallsIn(Uses(ms, os)), SquadKey(m)) == SquadTimes(ms, os, m)
  {
    if ms != [] {
      var n := |ms| - 1;
      var earlier := BucketMaps.CallsIn(Uses(ms[..n], os[..n]));
      SquadHasItsOwnBucket(ms[..n], os[..n], m);
      CallsOfOneMore(ms, os);
      SameSquadSameKey(ms[n], m);
      BucketMaps.TimesOfSnoc(earlier, CallOf(ms[n]), SquadKey(m));
      assert earlier + [] == earlier && SquadTimes(ms[..n], os[..n], m) + [] == SquadTimes(ms[..n], os[..n], m);
    }
  }

  /** A message that is no duplicate is delivered exactly when that fits every window of the earlier messages of its own
      Squad that were no duplicates either. */
  lemma DeliveredExactlyWhenItFits(c: Config, t: Trace, i: nat)
    requires Qualifies(c) && Run(c, t) && Orderly(c, t) && i < |t.messages| && t.outcomes[i] != Duplicate
    ensures var ts := SquadTimes(t.messages[..i], t.outcomes[..i], t.messages[i]);
            t.outcomes[i] == Delivered <==> FitsEveryWindow(c.limits, ts, Answers(c.limits, ts), t.messages[i].checkedAt)
  {
    var states := BucketsRun(c, t);
    BucketMaps.PassesExactlyWhenItFits(c.limits, c.policy, Uses(t.messages, t.outcomes), states, i);
    assert Uses(t.messages, t.outcomes)[..i] == Uses(t.messages[..i], t.outcomes[..i]);
    SquadHasItsOwnBucket(t.messages[..i], t.outcomes[..i], t.messages[i]);
  }

  /** How many messages of the Squad of `m` were delivered between two instants. */
  ghost function DeliveredBetween(ms: seq<Message>, os: seq<Outcome>, m: Message, start: real, end: real): nat
    requires |os| == |ms|
  {
    if ms == [] then 0
    else
      var n := |ms| - 1;
      DeliveredBetween(ms[..n], os[..n], m, start, end)
      + if os[n] == Delivered && SameSquad(ms[n], m) && start <= ms[n].checkedAt <= end then 1 else 0
  }

  /** No other bot's or Squad's messages are counted against a Squad. */
  lemma {:induction false} DeliveredIsPassed(ms: seq<Message>, os: seq<Outcome>, m: Message, start: real, end: real)
    requires |os| == |ms| && ValidateBotId(m.bot).Ok? && forall i :: 0 <= i < |ms| ==> ValidateBotId(ms[i].bot).Ok?
    ensures DeliveredBetween(ms, os, m, start, end) == BucketMaps.Passed(Uses(ms, os), SquadKey(m), start, end)
  {
    if ms != [] {
      var n := |ms| - 1;
      DeliveredIsPassed(ms[..n], os[..n], m, start, end);
      assert Uses(ms, os)[..n] == Uses(ms[..n], os[..n]);
      SameSquadSameKey(ms[n], m);
    }
  }

  /** In every window, a bot is delivered no more messages of one Squad than that Squad's own allowance. */
  lemma SquadWindowsHold(c: Config, t: Trace, m: Message, start: real, end: real)
    requires Qualifies(c) && Run(c, t) && Orderly(c, t) && ValidateBotId(m.bot).Ok? && start <= end
    ensures DeliveredBetween(t.messages, t.outcomes, m, start, end) as real <= Allowance(c.limits, start, end)
  {
    var states := BucketsRun(c, t);
    DeliveredIsPassed(t.messages, t.outcomes, m, start, end);
    BucketMaps.WindowsHold(c.limits, c.policy, Uses(t.messages, t.outcomes), states, SquadKey(m), start, end);
  }

  /** The daemon's own setting: one message per bot and Squad a minute, and the bucket's sweep never shows. */
  lemma ProductionIntakeQualifies(maxSize: nat)
    ensures Qualifies(Config(maxSize, RateLimiters.GROUP_LIMITS, RateLimiters.DEFAULT_POLICY))
  {
    RateLimiters.ProductionLimitsQualify(0.0, 0.0);
  }
}

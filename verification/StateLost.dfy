/** Groups whose engine state a store reset destroyed: when a row is marked, when the
    mark goes away, and what the mark keeps from happening. */
module StateLost {
  import opened Wrappers
  import opened GroupTables
  import opened Reconciliation
  import TablesByWire

  /** The mark on the group with this wire id, if there is such a group and it is marked. */
  ghost function LostAtOf(t: Tables, bot: string, wire: string): Option<int> {
    if HasWire(t.groups, bot, wire) then t.groups[KeyOf(t.groups, bot, wire)].lostAt else None
  }

  /** A Welcome that the engine accepted has been dispatched: the mark is looked up by wire id and cleared by name. */
  ghost function Welcomed(t: Tables, bot: string, wire: string): Tables {
    if LostAtOf(t, bot, wire).Some? then LostSet(t, KeyOf(t.groups, bot, wire), None) else t
  }

  method DispatchWelcome(db: Database, bot: string, wire: string)
    requires WellFormed(db.Value())
    modifies db
    ensures db.Value() == Welcomed(old(db.Value()), bot, wire)
  {
    var groups := db.LoadAllMlsGroups(bot);
    if found :| found in groups && found.row.wire == wire && found.row.lostAt.Some? {
      UniqueHolder(db.groups, GroupKey(bot, found.name), bot, wire);
      db.ClearMlsGroupStateLost(GroupKey(bot, found.name));
    } else {
      if HasWire(db.groups, bot, wire) {
        var k := KeyOf(db.groups, bot, wire);
        assert NamedRow(k.name, db.groups[k]) in groups;
      }
    }
  }

  // ----- The three group send paths -----

  /** `PastGuard` is whatever comes after the check of the mark: the look-up of the bot and its engine, which may still
      refuse, and the send itself. */
  datatype SendOutcome =
    | MissingParams | InvalidReaction | NoAttachmentService | InvalidAttachment
    | HandlerNotRegistered | UnauthorizedBot | RateLimited | MlsGroupStateLost | PastGuard

  datatype Grant = Grant(bot: string, capability: string)

  /** Who calls, what the registry grants to whom, and whether the limiter lets the call pass. */
  datatype Caller = Caller(handlerId: Option<string>, registry: map<string, set<Grant>>, withinRate: bool)

  ghost predicate Registered(c: Caller) {
    c.handlerId.Some? && c.handlerId.value in c.registry
  }

  ghost predicate Authorized(c: Caller, bot: string, capability: string) {
    Registered(c) && Grant(bot, capability) in c.registry[c.handlerId.value]
  }

  /** What comes after the parameters is the same on all three paths: which check refuses what. */
  ghost predicate Gate(t: Tables, c: Caller, bot: string, wire: string, capability: string, r: SendOutcome) {
    && (r == HandlerNotRegistered <==> !Registered(c))
    && (r == UnauthorizedBot <==> Registered(c) && !Authorized(c, bot, capability))
    && (r == RateLimited <==> Authorized(c, bot, capability) && !c.withinRate)
    && (r == MlsGroupStateLost <==> Authorized(c, bot, capability) && c.withinRate && LostAtOf(t, bot, wire).Some?)
    && (r == PastGuard <==> Authorized(c, bot, capability) && c.withinRate && LostAtOf(t, bot, wire).None?)
  }

  datatype MessageParams = MessageParams(bot: Option<string>, group: Option<string>, content: Option<string>)

  method SendGroupMessage(db: Database, params: Option<MessageParams>, c: Caller) returns (r: SendOutcome)
    requires WellFormed(db.Value())
    ensures r == MissingParams <==>
              params.None? || params.value.bot.None? || params.value.group.None? || params.value.content.None?
    ensures r != MissingParams ==>
              Gate(db.Value(), c, params.value.bot.value, params.value.group.value, "SendGroupMessages", r)
  {
    if params.None? || params.value.bot.None? || params.value.group.None? || params.value.content.None? {
      return MissingParams;
    }
    var bot, group := params.value.bot.value, params.value.group.value;
    if c.handlerId.None? || c.handlerId.value !in c.registry {
      return HandlerNotRegistered;
    }
    if Grant(bot, "SendGroupMessages") !in c.registry[c.handlerId.value] {
      return UnauthorizedBot;
    }
    if !c.withinRate {
      return RateLimited;
    }
    var lostAt := db.LoadMlsGroupStateLostAt(bot, group);
    return if lostAt.Some? then MlsGroupStateLost else PastGuard;
  }

  /** `graphemes` counts the user-perceived characters of the emoji. */
  datatype ReactionParams =
    ReactionParams(bot: Option<string>, group: Option<string>, target: Option<string>, emoji: Option<string>, graphemes: nat)

  method SendGroupReaction(db: Database, params: Option<ReactionParams>, c: Caller) returns (r: SendOutcome)
    requires WellFormed(db.Value())
    ensures r == MissingParams <==>
              params.None? || params.value.bot.None? || params.value.group.None? || params.value.target.None?
              || params.value.emoji.None?
    ensures r != MissingParams ==>
              (r == InvalidReaction <==> params.value.emoji.value == "" || params.value.graphemes != 1)
    ensures r != MissingParams && r != InvalidReaction ==>
              Gate(db.Value(), c, params.value.bot.value, params.value.group.value, "SendGroupReactions", r)
  {
    if params.None? || params.value.bot.None? || params.value.group.None? || params.value.target.None?
       || params.value.emoji.None? {
      return MissingParams;
    }
    var bot, group := params.value.bot.value, params.value.group.value;
    if params.value.emoji.value == "" || params.value.graphemes != 1 {
      return InvalidReaction;
    }
    if c.handlerId.None? || c.handlerId.value !in c.registry {
      return HandlerNotRegistered;
    }
    if Grant(bot, "SendGroupReactions") !in c.registry[c.handlerId.value] {
      return UnauthorizedBot;
    }
    if !c.withinRate {
      return RateLimited;
    }
    var lostAt := db.LoadMlsGroupStateLostAt(bot, group);
    return if lostAt.Some? then MlsGroupStateLost else PastGuard;
  }

  /** `sourceOk` and `metadataOk` stand for the checks of the attachment's source and of its metadata. */
  datatype AttachmentParams =
    AttachmentParams(bot: Option<string>, group: Option<string>, sourceOk: bool, metadataOk: bool)

  method SendGroupAttachment(db: Database, params: Option<AttachmentParams>, service: bool, c: Caller)
    returns (r: SendOutcome)
    requires WellFormed(db.Value())
    ensures r == MissingParams <==> params.None? || params.value.bot.None? || params.value.group.None?
    ensures r != MissingParams ==> (r == NoAttachmentService <==> !service)
    ensures r != MissingParams && service ==>
              (r == InvalidAttachment <==> !params.value.sourceOk || !params.value.metadataOk)
    ensures r != MissingParams && r != NoAttachmentService && r != InvalidAttachment ==>
              Gate(db.Value(), c, params.value.bot.value, params.value.group.value, "SendGroupAttachments", r)
  {
    if params.None? || params.value.bot.None? || params.value.group.None? {
      return MissingParams;
    }
    var bot, group := params.value.bot.value, params.value.group.value;
    if !service {
      return NoAttachmentService;
    }
    if !params.value.sourceOk || !params.value.metadataOk {
      return InvalidAttachment;
    }
    if c.handlerId.None? || c.handlerId.value !in c.registry {
      return HandlerNotRegistered;
    }
    if Grant(bot, "SendGroupAttachments") !in c.registry[c.handlerId.value] {
      return UnauthorizedBot;
    }
    if !c.withinRate {
      return RateLimited;
    }
    var lostAt := db.LoadMlsGroupStateLostAt(bot, group);
    return if lostAt.Some? then MlsGroupStateLost else PastGuard;
  }

  // ----- Whole lives of a database -----

  /** Everything that happens to group rows and markers. An import may bring a mark of its own. */
  datatype Event =
    | Startup(bot: string, botNpub: string, engine: seq<EngineGroup>, now: int)
    | Welcome(bot: string, wire: string)
    | Delete(bot: string, wire: string)
    | Create(key: GroupKey, wire: string, creator: string, relay: string, invited: seq<string>)
    | Import(key: GroupKey, row: GroupRow, invited: seq<string>)
    | AddMember(key: GroupKey, npub: string)
    | RemoveMember(key: GroupKey, npub: string)
    | ResetStart(bot: string, at: int)
    | ResetComplete(bot: string, at: int)

  ghost function After(t: Tables, e: Event): Tables {
    match e
    case Startup(bot, botNpub, engine, now) => Reconciled(t, bot, botNpub, engine, now).0
    case Welcome(bot, wire) => Welcomed(t, bot, wire)
    case Delete(bot, wire) => WireDeleted(t, bot, wire).0
    case Create(k, wire, creator, relay, invited) => Inserted(t, k, GroupRow(wire, creator, relay, None), invited).0
    case Import(k, row, invited) => Inserted(t, k, row, invited).0
    case AddMember(k, npub) => Invited(t, k, npub).0
    case RemoveMember(k, npub) => MemberDeleted(t, k, npub).0
    case ResetStart(bot, at) => ResetStarted(t, bot, at)
    case ResetComplete(bot, at) => ResetCompleted(t, bot, at)
  }

  ghost predicate Sensible(e: Event) {
    e.Startup? ==> DistinctWires(e.engine)
  }

  /** The tables after a life that began with an empty database. */
  ghost function TablesAfter(es: seq<Event>): Tables {
    if es == [] then Tables(map[], {}, map[]) else After(TablesAfter(es[..|es| - 1]), es[|es| - 1])
  }

  ghost predicate IsStart(e: Event, bot: string) {
    e.ResetStart? && e.bot == bot
  }

  ghost predicate IsComplete(e: Event, bot: string) {
    e.ResetComplete? && e.bot == bot
  }

  /** The bot's last reset began with event `i`. */
  ghost predicate LastStart(es: seq<Event>, i: nat, bot: string) {
    i < |es| && IsStart(es[i], bot) && forall j :: i < j < |es| ==> !IsStart(es[j], bot)
  }

  /** Event `j` is the last to complete it. */
  ghost predicate LastComplete(es: seq<Event>, i: nat, j: nat, bot: string) {
    i < j < |es| && IsComplete(es[j], bot) && forall k :: j < k < |es| ==> !IsComplete(es[k], bot)
  }

  /** The bot's stores have been reset, and the last reset was completed. */
  ghost predicate ResetDone(es: seq<Event>, bot: string) {
    exists i, j :: LastStart(es, i, bot) && LastComplete(es, i, j, bot)
  }

  /** A startup that succeeded after a completed reset found this known wire id missing from the engine. */
  ghost predicate FoundMissing(t: Tables, reset: bool, e: Event, bot: string, wire: string) {
    && e.Startup? && e.bot == bot
    && Reconciled(t, bot, e.botNpub, e.engine, e.now).1.Ok? && reset
    && HasWire(t.groups, bot, wire) && wire !in Wires(e.engine)
  }

  /** A group new to the database came with a mark. */
  ghost predicate ImportedLost(t: Tables, e: Event, bot: string, wire: string) {
    && e.Import? && e.key.bot == bot && e.row.wire == wire && e.row.lostAt.Some?
    && Inserted(t, e.key, e.row, e.invited).1.Ok?
  }

  /** The same, said of the history alone: found missing or imported as lost, and neither welcomed back nor deleted since. */
  ghost predicate LostSince(es: seq<Event>, bot: string, wire: string) {
    es != []
    && var n := |es| - 1;
       var e := es[n];
       || FoundMissing(TablesAfter(es[..n]), ResetDone(es[..n], bot), e, bot, wire)
       || ImportedLost(TablesAfter(es[..n]), e, bot, wire)
       || (e != Welcome(bot, wire) && e != Delete(bot, wire) && LostSince(es[..n], bot, wire))
  }

  // ----- Marks, event by event -----

  lemma LostAtOfKey(t: Tables, k: GroupKey)
    requires OneRowPerWire(t.groups) && k in t.groups
    ensures LostAtOf(t, k.bot, t.groups[k].wire) == t.groups[k].lostAt
  {
    UniqueHolder(t.groups, k, k.bot, t.groups[k].wire);
  }

  /** Rows moved or kept with their marks, and rows that are new without one, leave every mark where it was. */
  lemma SameMarks(t: Tables, t': Tables, b: string, w: string)
    requires WellFormed(t) && WellFormed(t')
    requires HasWire(t.groups, b, w) ==> exists k :: Holds(t'.groups, k, b, w) && t'.groups[k].lostAt == LostAtOf(t, b, w)
    requires !HasWire(t.groups, b, w) ==> forall k :: Holds(t'.groups, k, b, w) ==> t'.groups[k].lostAt.None?
    ensures LostAtOf(t', b, w) == LostAtOf(t, b, w)
  {
    if HasWire(t.groups, b, w) {
      var k :| Holds(t'.groups, k, b, w) && t'.groups[k].lostAt == LostAtOf(t, b, w);
      LostAtOfKey(t', k);
    }
  }

  lemma UpsertKeepsMarks(t: Tables, bot: string, botNpub: string, g: EngineGroup, b: string, w: string)
    requires WellFormed(t)
    ensures var t' := Upserted(t, bot, botNpub, g.wire, g.name, g.members).0;
            LostAtOf(t', b, w) == LostAtOf(t, b, w)
  {
    var (t', r) := Upserted(t, bot, botNpub, g.wire, g.name, g.members);
    if r.Ok? {
      ApplyKeeps(t, Upsert(bot, botNpub, g.wire, g.name, g.members));
      UpsertedRows(t, bot, botNpub, g);
      var to := GroupKey(bot, g.name);
      if HasWire(t.groups, b, w) {
        var k := KeyOf(t.groups, b, w);
        assert Holds(t'.groups, if b == bot && w == g.wire then to else k, b, w);
      } else {
        forall k | Holds(t'.groups, k, b, w)
          ensures t'.groups[k].lostAt.None?
        {
          assert k != to ==> Holds(t.groups, k, b, w);
        }
      }
      SameMarks(t, t', b, w);
    }
  }

  lemma {:induction false} UpsertsKeepMarks(t: Tables, bot: string, botNpub: string, engine: seq<EngineGroup>, b: string, w: string)
    requires WellFormed(t)
    ensures LostAtOf(UpsertedAll(t, bot, botNpub, engine).0, b, w) == LostAtOf(t, b, w)
  {
    if engine != [] {
      var n := |engine| - 1;
      UpsertsKeepMarks(t, bot, botNpub, engine[..n], b, w);
      UpsertsKeepWellFormed(t, bot, botNpub, engine[..n]);
      UpsertKeepsMarks(UpsertedAll(t, bot, botNpub, engine[..n]).0, bot, botNpub, engine[n], b, w);
    }
  }

  lemma StartupMarks(t: Tables, e: Event, b: string, w: string)
    requires WellFormed(t) && e.Startup? && Sensible(e)
    ensures LostAtOf(After(t, e), b, w).Some? <==> FoundMissing(t, ResetIsComplete(t.resets, b), e, b, w) || LostAtOf(t, b, w).Some?
  {
    var (t1, r) := UpsertedAll(t, e.bot, e.botNpub, e.engine);
    UpsertsKeepMarks(t, e.bot, e.botNpub, e.engine, b, w);
    UpsertsKeepWellFormed(t, e.bot, e.botNpub, e.engine);
    if r.Ok? && ResetIsComplete(t.resets, e.bot) {
      MarksReachExactlyTheMissing(t, t1, e, b, w);
    }
  }

  lemma MarksReachExactlyTheMissing(t: Tables, t1: Tables, e: Event, b: string, w: string)
    requires WellFormed(t) && WellFormed(t1) && e.Startup? && Sensible(e)
    requires UpsertedAll(t, e.bot, e.botNpub, e.engine) == (t1, Ok(()))
    requires LostAtOf(t1, b, w) == LostAtOf(t, b, w)
    ensures var t' := MarkedThrough(t1, t, e.bot, Wires(e.engine), e.now);
            LostAtOf(t', b, w).Some? <==>
              (b == e.bot && HasWire(t.groups, b, w) && w !in Wires(e.engine)) || LostAtOf(t, b, w).Some?
  {
    var t' := MarkedThrough(t1, t, e.bot, Wires(e.engine), e.now);
    assert OneRowPerWire(t'.groups);
    UpsertsMatch(t, e.bot, e.botNpub, e.engine);
    if HasWire(t1.groups, b, w) {
      var k := KeyOf(t1.groups, b, w);
      LostAtOfKey(t', k);
      if b == e.bot && w !in Wires(e.engine) {
        NotYetMoved(t, t1, e.bot, e.botNpub, e.engine, w);
      } else if k in t.groups && b == e.bot {
        assert w in Wires(e.engine);
        assert !Missing(t.groups[k], Wires(e.engine)) by {
          assert t.groups[k].wire !in Wires(e.engine) ==> Outside(t, e.bot, Wires(e.engine), k);
        }
      }
    } else {
      assert forall k :: Holds(t'.groups, k, b, w) ==> Holds(t1.groups, k, b, w);
      if HasWire(t.groups, b, w) {
        UpsertsKeepMembership(t, e.bot, e.botNpub, e.engine, b, w);
      }
    }
  }

  lemma DeleteClears(t: Tables, bot: string, wire: string, b: string, w: string)
    requires WellFormed(t)
    ensures LostAtOf(WireDeleted(t, bot, wire).0, b, w)
            == if b == bot && w == wire then None else LostAtOf(t, b, w)
  {
    var t' := WireDeleted(t, bot, wire).0;
    ApplyKeeps(t, DeleteWire(bot, wire));
    if b == bot && w == wire {
      assert forall k :: Holds(t'.groups, k, b, w) ==> Holds(t.groups, k, b, w);
      assert forall k :: Holds(t.groups, k, b, w) ==> k == KeyOf(t.groups, b, w);
    } else {
      if HasWire(t.groups, b, w) {
        var k := KeyOf(t.groups, b, w);
        assert Holds(t'.groups, k, b, w);
        LostAtOfKey(t', k);
      } else {
        assert forall k :: Holds(t'.groups, k, b, w) ==> Holds(t.groups, k, b, w);
      }
    }
  }

  lemma WelcomeClears(t: Tables, bot: string, wire: string, b: string, w: string)
    requires WellFormed(t)
    ensures WellFormed(Welcomed(t, bot, wire))
    ensures LostAtOf(Welcomed(t, bot, wire), b, w)
            == if b == bot && w == wire then None else LostAtOf(t, b, w)
  {
    var t' := Welcomed(t, bot, wire);
    if t' != t {
      var cleared := KeyOf(t.groups, bot, wire);
      ApplyKeeps(t, SetLost(cleared, None));
      if HasWire(t.groups, b, w) {
        var k := KeyOf(t.groups, b, w);
        assert Holds(t'.groups, k, b, w);
        LostAtOfKey(t', k);
      } else {
        assert forall k :: Holds(t'.groups, k, b, w) ==> Holds(t.groups, k, b, w);
      }
    }
  }

  lemma CreateKeepsMarks(t: Tables, k: GroupKey, row: GroupRow, invited: seq<string>, b: string, w: string)
    requires WellFormed(t) && row.lostAt.None?
    ensures LostAtOf(Inserted(t, k, row, invited).0, b, w) == LostAtOf(t, b, w)
  {
    var t' := Inserted(t, k, row, invited).0;
    if t' != t {
      InsertKeeps(t, k, row, invited);
      if HasWire(t.groups, b, w) {
        assert Holds(t'.groups, KeyOf(t.groups, b, w), b, w);
      } else {
        assert forall j :: Holds(t'.groups, j, b, w) && j != k ==> Holds(t.groups, j, b, w);
      }
      SameMarks(t, t', b, w);
    }
  }

  /** An import brings its own mark, and touches no other. */
  lemma ImportMarks(t: Tables, k: GroupKey, row: GroupRow, invited: seq<string>, b: string, w: string)
    requires WellFormed(t)
    ensures var (t', r) := Inserted(t, k, row, invited);
            LostAtOf(t', b, w) == if r.Ok? && b == k.bot && w == row.wire then row.lostAt else LostAtOf(t, b, w)
    ensures Inserted(t, k, row, invited).1.Ok? ==> LostAtOf(t, k.bot, row.wire).None?
  {
    var (t', r) := Inserted(t, k, row, invited);
    InsertKeeps(t, k, row, invited);
    if r.Ok? {
      if b == k.bot && w == row.wire {
        LostAtOfKey(t', k);
      } else if HasWire(t.groups, b, w) {
        LostAtOfKey(t, KeyOf(t.groups, b, w));
        LostAtOfKey(t', KeyOf(t.groups, b, w));
      } else {
        assert forall j :: Holds(t'.groups, j, b, w) ==> Holds(t.groups, j, b, w);
      }
    }
  }

  lemma SameGroupsSameMarks(t: Tables, t': Tables, b: string, w: string)
    requires t'.groups == t.groups
    ensures LostAtOf(t', b, w) == LostAtOf(t, b, w)
  {
  }

  lemma EventKeepsWellFormed(t: Tables, e: Event)
    requires WellFormed(t) && Sensible(e)
    ensures WellFormed(After(t, e))
  {
    match e
    case Startup(bot, botNpub, engine, now) =>
      UpsertsKeepWellFormed(t, bot, botNpub, engine);
    case Welcome(bot, wire) => WelcomeClears(t, bot, wire, bot, wire);
    case Delete(bot, wire) => ApplyKeeps(t, DeleteWire(bot, wire));
    case Create(k, wire, creator, relay, invited) => InsertKeeps(t, k, GroupRow(wire, creator, relay, None), invited);
    case Import(k, row, invited) => InsertKeeps(t, k, row, invited);
    case AddMember(k, npub) =>
    case RemoveMember(k, npub) =>
    case ResetStart(bot, at) =>
    case ResetComplete(bot, at) =>
  }

  lemma EventMarks(t: Tables, e: Event, b: string, w: string)
    requires WellFormed(t) && Sensible(e)
    ensures LostAtOf(After(t, e), b, w).Some? <==>
              || FoundMissing(t, ResetIsComplete(t.resets, b), e, b, w)
              || ImportedLost(t, e, b, w) || (e != Welcome(b, w) && e != Delete(b, w) && LostAtOf(t, b, w).Some?)
  {
    match e
    case Startup(_, _, _, _) => StartupMarks(t, e, b, w);
    case Welcome(bot, wire) => WelcomeClears(t, bot, wire, b, w);
    case Delete(bot, wire) => DeleteClears(t, bot, wire, b, w);
    case Create(k, wire, creator, relay, invited) =>
      CreateKeepsMarks(t, k, GroupRow(wire, creator, relay, None), invited, b, w);
    case Import(k, row, invited) => ImportMarks(t, k, row, invited, b, w);
    case AddMember(k, npub) => SameGroupsSameMarks(t, After(t, e), b, w);
    case RemoveMember(k, npub) => SameGroupsSameMarks(t, After(t, e), b, w);
    case ResetStart(bot, at) => SameGroupsSameMarks(t, After(t, e), b, w);
    case ResetComplete(bot, at) => SameGroupsSameMarks(t, After(t, e), b, w);
  }

  lemma {:induction false} LifeIsWellFormed(es: seq<Event>)
    requires forall i :: 0 <= i < |es| ==> Sensible(es[i])
    ensures WellFormed(TablesAfter(es))
  {
    if es != [] {
      var n := |es| - 1;
      LifeIsWellFormed(es[..n]);
      EventKeepsWellFormed(TablesAfter(es[..n]), es[n]);
    }
  }

  // ----- The other events, by wire id -----

  lemma UnmarksOne(g: TablesByWire.Groups, w: TablesByWire.WireKey, k: GroupKey)
    requires w in g && forall v :: TablesByWire.Called(g, v, k) <==> v == w
    ensures TablesByWire.Done(g, SetLost(k, None)) == g[w := g[w].(lostAt := None)]
  {
  }

  lemma OnlyOneIsCalled(t: Tables, w: TablesByWire.WireKey, k: GroupKey)
    requires OneRowPerWire(t.groups) && TablesByWire.HeldAs(t, w, k)
    ensures forall v :: TablesByWire.Called(TablesByWire.ByWire(t), v, k) <==> v == w
  {
    forall v
      ensures TablesByWire.Called(TablesByWire.ByWire(t), v, k) <==> v == w
    {
      TablesByWire.CalledExactly(t, v, k);
    }
  }

  lemma WelcomeOfStored(t: Tables, w: TablesByWire.WireKey)
    requires WellFormed(t) && HasWire(t.groups, w.bot, w.wire)
    ensures w in TablesByWire.ByWire(t)
    ensures var g := TablesByWire.ByWire(t);
            TablesByWire.ByWire(LostSet(t, KeyOf(t.groups, w.bot, w.wire), None)) == g[w := g[w].(lostAt := None)]
    ensures TablesByWire.ByWire(t)[w].lostAt == LostAtOf(t, w.bot, w.wire)
  {
    var k := KeyOf(t.groups, w.bot, w.wire);
    TablesByWire.StoredAs(t, w, k);
    TablesByWire.SetLostByWire(t, k, None);
    OnlyOneIsCalled(t, w, k);
    UnmarksOne(TablesByWire.ByWire(t), w, k);
  }

  /** A dispatched Welcome unmarks its group, if it is stored, and does nothing else. */
  lemma WelcomeByWire(t: Tables, bot: string, wire: string)
    requires WellFormed(t)
    ensures var g, w := TablesByWire.ByWire(t), TablesByWire.WireKey(bot, wire);
            TablesByWire.ByWire(Welcomed(t, bot, wire)) == if w in g then g[w := g[w].(lostAt := None)] else g
  {
    var g, w := TablesByWire.ByWire(t), TablesByWire.WireKey(bot, wire);
    TablesByWire.StoredExactly(t, w);
    if HasWire(t.groups, bot, wire) {
      WelcomeOfStored(t, w);
      assert g[w].lostAt == None ==> g[w := g[w].(lostAt := None)] == g;
    }
  }

  /** The operation on the tables that an event comes to, if it is neither a startup nor a Welcome. */
  ghost function OpOf(e: Event): Op
    requires !e.Startup? && !e.Welcome?
  {
    match e
    case Delete(bot, wire) => DeleteWire(bot, wire)
    case Create(k, wire, creator, relay, invited) => Insert(k, GroupRow(wire, creator, relay, None), invited)
    case Import(k, row, invited) => Insert(k, row, invited)
    case AddMember(k, npub) => Invite(k, npub)
    case RemoveMember(k, npub) => DeleteMember(k, npub)
    case ResetStart(bot, at) => StartReset(bot, at)
    case ResetComplete(bot, at) => CompleteReset(bot, at)
  }

  lemma EventIsOperation(t: Tables, e: Event)
    requires !e.Startup? && !e.Welcome?
    ensures After(t, e) == Apply(t, OpOf(e))
  {
  }

  /** What such an event does to the groups seen by wire id. */
  lemma EventsByWire(t: Tables, e: Event)
    requires WellFormed(t) && !e.Startup? && !e.Welcome?
    ensures TablesByWire.ByWire(After(t, e)) == TablesByWire.Done(TablesByWire.ByWire(t), OpOf(e))
  {
    EventIsOperation(t, e);
    TablesByWire.OperationByWire(t, OpOf(e));
  }

  // ----- The reset markers -----

  /** The marker tells when the last reset began. */
  ghost predicate StartTold(resets: map<string, Marker>, es: seq<Event>, bot: string) {
    && (bot in resets <==> exists i: nat :: LastStart(es, i, bot))
    && (forall i: nat :: LastStart(es, i, bot) ==> bot in resets && resets[bot].markedAt == es[i].at)
  }

  /** It tells when that reset was last completed, if it was. */
  ghost predicate CompletionTold(resets: map<string, Marker>, es: seq<Event>, bot: string) {
    && (forall i: nat, j: nat :: LastStart(es, i, bot) && LastComplete(es, i, j, bot) ==>
          bot in resets && resets[bot].resetAt == Some(es[j].at))
    && (bot in resets && resets[bot].resetAt.Some? ==> ResetDone(es, bot))
  }

  ghost predicate MarkerTells(resets: map<string, Marker>, es: seq<Event>, bot: string) {
    StartTold(resets, es, bot) && CompletionTold(resets, es, bot)
  }

  /** Only a reset's own events touch its bot's marker. */
  lemma OtherEventsKeepMarker(t: Tables, e: Event, bot: string)
    requires WellFormed(t) && !IsStart(e, bot) && !IsComplete(e, bot)
    ensures bot in After(t, e).resets <==> bot in t.resets
    ensures bot in t.resets ==> After(t, e).resets[bot] == t.resets[bot]
  {
    if e.Startup? {
      ResetsAreKept(t, e.bot, e.botNpub, e.engine, e.now);
    }
  }

  lemma SameStarts(es: seq<Event>, e: Event, bot: string, i: nat)
    requires !IsStart(e, bot)
    ensures LastStart(es + [e], i, bot) <==> LastStart(es, i, bot)
  {
    var all := es + [e];
    if LastStart(es, i, bot) {
      forall j | i < j < |all|
        ensures !IsStart(all[j], bot)
      {
        assert j < |es| ==> all[j] == es[j];
      }
    }
    if LastStart(all, i, bot) {
      assert forall j :: i < j < |es| ==> all[j] == es[j];
    }
  }

  lemma SameCompletes(es: seq<Event>, e: Event, bot: string, i: nat, j: nat)
    requires !IsComplete(e, bot)
    ensures LastComplete(es + [e], i, j, bot) <==> LastComplete(es, i, j, bot)
  {
    var all := es + [e];
    if LastComplete(es, i, j, bot) {
      forall k | j < k < |all|
        ensures !IsComplete(all[k], bot)
      {
        assert k < |es| ==> all[k] == es[k];
      }
    }
    if LastComplete(all, i, j, bot) {
      assert forall k :: j < k < |es| ==> all[k] == es[k];
    }
  }

  lemma OtherEventTells(t: Tables, es: seq<Event>, e: Event, bot: string)
    requires WellFormed(t) && MarkerTells(t.resets, es, bot) && !IsStart(e, bot) && !IsComplete(e, bot)
    ensures MarkerTells(After(t, e).resets, es + [e], bot)
  {
    OtherEventsKeepMarker(t, e, bot);
    forall i: nat
      ensures LastStart(es + [e], i, bot) <==> LastStart(es, i, bot)
    {
      SameStarts(es, e, bot, i);
    }
    forall i: nat, j: nat
      ensures LastComplete(es + [e], i, j, bot) <==> LastComplete(es, i, j, bot)
    {
      SameCompletes(es, e, bot, i, j);
    }
  }

  lemma StartTells(t: Tables, es: seq<Event>, e: Event, bot: string)
    requires IsStart(e, bot)
    ensures MarkerTells(After(t, e).resets, es + [e], bot)
  {
    var all, n := es + [e], |es|;
    assert all[n] == e;
    assert LastStart(all, n, bot);
    forall i: nat | LastStart(all, i, bot)
      ensures i == n
    {
    }
  }

  lemma LastEventCompletes(es: seq<Event>, e: Event, bot: string, i: nat, j: nat)
    requires IsComplete(e, bot)
    ensures LastComplete(es + [e], i, j, bot) <==> i < j == |es|
  {
    assert (es + [e])[|es|] == e;
  }

  lemma CompleteKeepsStart(t: Tables, es: seq<Event>, e: Event, bot: string)
    requires StartTold(t.resets, es, bot) && IsComplete(e, bot)
    ensures StartTold(After(t, e).resets, es + [e], bot)
    ensures forall i: nat :: LastStart(es + [e], i, bot) <==> LastStart(es, i, bot)
  {
    forall i: nat
      ensures LastStart(es + [e], i, bot) <==> LastStart(es, i, bot)
    {
      SameStarts(es, e, bot, i);
    }
    assert forall i: nat :: LastStart(es, i, bot) ==> (es + [e])[i] == es[i];
  }

  lemma CompleteTells(t: Tables, es: seq<Event>, e: Event, bot: string)
    requires StartTold(t.resets, es, bot) && IsComplete(e, bot)
    ensures MarkerTells(After(t, e).resets, es + [e], bot)
  {
    var all, n, resets := es + [e], |es|, After(t, e).resets;
    CompleteKeepsStart(t, es, e, bot);
    assert bot in resets ==> resets[bot].resetAt == Some(e.at);
    forall i: nat, j: nat | LastStart(all, i, bot) && LastComplete(all, i, j, bot)
      ensures bot in resets && resets[bot].resetAt == Some(all[j].at)
    {
      LastEventCompletes(es, e, bot, i, j);
    }
    if bot in resets {
      var i: nat :| LastStart(es, i, bot);
      LastEventCompletes(es, e, bot, i, n);
    }
  }

  lemma {:induction false} MarkersTell(es: seq<Event>, bot: string)
    requires forall i :: 0 <= i < |es| ==> Sensible(es[i])
    ensures MarkerTells(TablesAfter(es).resets, es, bot)
  {
    if es != [] {
      var n := |es| - 1;
      var t, e := TablesAfter(es[..n]), es[n];
      LifeIsWellFormed(es[..n]);
      MarkersTell(es[..n], bot);
      assert es[..n] + [e] == es;
      if IsStart(e, bot) {
        StartTells(t, es[..n], e, bot);
      } else if IsComplete(e, bot) {
        CompleteTells(t, es[..n], e, bot);
      } else {
        OtherEventTells(t, es[..n], e, bot);
      }
    }
  }

  /** After any life, a bot's reset counts as complete exactly when its last reset was completed. */
  lemma CompleteExactlyWhenDone(es: seq<Event>, bot: string)
    requires forall i :: 0 <= i < |es| ==> Sensible(es[i])
    ensures ResetIsComplete(TablesAfter(es).resets, bot) <==> ResetDone(es, bot)
  {
    MarkersTell(es, bot);
  }

  /** In every life, a group is marked exactly when some startup after a completed reset found it missing, or an
      import brought it in as lost, and it has since been neither welcomed back nor deleted. */
  lemma {:induction false} MarkedExactlyWhenLost(es: seq<Event>, bot: string, wire: string)
    requires forall i :: 0 <= i < |es| ==> Sensible(es[i])
    ensures WellFormed(TablesAfter(es))
    ensures LostAtOf(TablesAfter(es), bot, wire).Some? <==> LostSince(es, bot, wire)
  {
    if es != [] {
      var n := |es| - 1;
      MarkedExactlyWhenLost(es[..n], bot, wire);
      EventKeepsWellFormed(TablesAfter(es[..n]), es[n]);
      EventMarks(TablesAfter(es[..n]), es[n], bot, wire);
      CompleteExactlyWhenDone(es[..n], bot);
    }
  }

  /** While a group is lost, no send reaches the engine, whatever else holds of the request; and the loss
      stands in the way of no other group. */
  lemma NoSendWhileLost(es: seq<Event>, c: Caller, bot: string, wire: string, capability: string, r: SendOutcome)
    requires forall i :: 0 <= i < |es| ==> Sensible(es[i])
    requires Gate(TablesAfter(es), c, bot, wire, capability, r)
    ensures LostSince(es, bot, wire) ==> r != PastGuard
    ensures !LostSince(es, bot, wire) ==> r != MlsGroupStateLost
    ensures Authorized(c, bot, capability) && c.withinRate ==> (r == MlsGroupStateLost <==> LostSince(es, bot, wire))
  {
    MarkedExactlyWhenLost(es, bot, wire);
  }
}

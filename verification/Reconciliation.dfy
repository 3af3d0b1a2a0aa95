/** Startup reconciliation of one bot's rows with the groups its MLS engine holds.

    Engine groups are upserted one by one; only then, and only after a completed store
    reset, the rows whose wire id the engine lacks are marked, through the names that
    were loaded before the upserts. */
module Reconciliation {
  import opened Wrappers
  import opened GroupTables

  datatype EngineGroup = EngineGroup(wire: string, name: string, members: seq<string>)

  /** The engine identifies a group by its wire id. */
  ghost predicate DistinctWires(engine: seq<EngineGroup>) {
    forall i, j :: 0 <= i < j < |engine| ==> engine[i].wire != engine[j].wire
  }

  function Wires(engine: seq<EngineGroup>): set<string> {
    set i | 0 <= i < |engine| :: engine[i].wire
  }

  /** The upserts up to the first that fails. */
  ghost function UpsertedAll(t: Tables, bot: string, botNpub: string, engine: seq<EngineGroup>)
    : (Tables, Result<(), DbError>)
  {
    if engine == [] then (t, Ok(()))
    else
      var n := |engine| - 1;
      var (t1, r) := UpsertedAll(t, bot, botNpub, engine[..n]);
      if r.Err? then (t1, r)
      else Upserted(t1, bot, botNpub, engine[n].wire, engine[n].name, engine[n].members)
  }

  predicate ResetIsComplete(resets: map<string, Marker>, bot: string) {
    bot in resets && resets[bot].resetAt.Some?
  }

  /** A row as it was loaded asks for a mark. */
  predicate Missing(row: GroupRow, wires: set<string>) {
    row.lostAt.None? && row.wire !in wires
  }

  /** Marks set in `t` through the names under which `loaded` has its rows. */
  ghost function MarkedThrough(t: Tables, loaded: Tables, bot: string, wires: set<string>, now: int): Tables {
    t.(groups := map k | k in t.groups ::
                   if k.bot == bot && k in loaded.groups && Missing(loaded.groups[k], wires)
                   then t.groups[k].(lostAt := Some(now)) else t.groups[k])
  }

  ghost function Reconciled(t: Tables, bot: string, botNpub: string, engine: seq<EngineGroup>, now: int)
    : (Tables, Result<(), DbError>)
  {
    var (t1, r) := UpsertedAll(t, bot, botNpub, engine);
    if r.Ok? && ResetIsComplete(t1.resets, bot) then (MarkedThrough(t1, t, bot, Wires(engine), now), r)
    else (t1, r)
  }

  // ----- The program -----

  lemma {:induction false} UpsertsKeepWellFormed(t: Tables, bot: string, botNpub: string, engine: seq<EngineGroup>)
    requires WellFormed(t)
    ensures WellFormed(UpsertedAll(t, bot, botNpub, engine).0)
    ensures UpsertedAll(t, bot, botNpub, engine).0.resets == t.resets
  {
    if engine != [] {
      var n := |engine| - 1;
      UpsertsKeepWellFormed(t, bot, botNpub, engine[..n]);
      ApplyKeeps(UpsertedAll(t, bot, botNpub, engine[..n]).0,
                 Upsert(bot, botNpub, engine[n].wire, engine[n].name, engine[n].members));
    }
  }

  lemma {:induction false} ErrorSticks(t: Tables, bot: string, botNpub: string, engine: seq<EngineGroup>, n: nat)
    requires n <= |engine| && UpsertedAll(t, bot, botNpub, engine[..n]).1.Err?
    ensures UpsertedAll(t, bot, botNpub, engine) == UpsertedAll(t, bot, botNpub, engine[..n])
    decreases |engine|
  {
    if n == |engine| {
      assert engine[..n] == engine;
    } else {
      assert engine[..|engine| - 1][..n] == engine[..n];
      ErrorSticks(t, bot, botNpub, engine[..|engine| - 1], n);
    }
  }

  /** One turn of the upsert loop. */
  lemma NextUpsert(t: Tables, t1: Tables, bot: string, botNpub: string, engine: seq<EngineGroup>, i: nat)
    requires WellFormed(t) && i < |engine| && UpsertedAll(t, bot, botNpub, engine[..i]) == (t1, Ok(()))
    ensures WellFormed(t1)
    ensures var next := Upserted(t1, bot, botNpub, engine[i].wire, engine[i].name, engine[i].members);
            && UpsertedAll(t, bot, botNpub, engine[..i + 1]) == next
            && (next.1.Err? ==> UpsertedAll(t, bot, botNpub, engine) == next)
  {
    UpsertsKeepWellFormed(t, bot, botNpub, engine[..i]);
    assert engine[..i + 1][..i] == engine[..i];
    var next := Upserted(t1, bot, botNpub, engine[i].wire, engine[i].name, engine[i].members);
    if next.1.Err? {
      ErrorSticks(t, bot, botNpub, engine, i + 1);
    }
  }

  method ReconcileMlsGroups(db: Database, bot: string, botNpub: string, engine: seq<EngineGroup>, now: int)
    returns (r: Result<(), DbError>)
    requires WellFormed(db.Value())
    modifies db
    ensures (db.Value(), r) == Reconciled(old(db.Value()), bot, botNpub, engine, now)
  {
    ghost var t := db.Value();
    var dbRows := db.LoadAllMlsGroups(bot);
    for i := 0 to |engine|
      invariant (db.Value(), Ok(())) == UpsertedAll(t, bot, botNpub, engine[..i])
    {
      var group := engine[i];
      NextUpsert(t, db.Value(), bot, botNpub, engine, i);
      r := db.UpsertMlsGroupFromReconciliation(bot, botNpub, group.wire, group.name, group.members);
      if r.Err? {
        return;
      }
    }
    assert engine[..|engine|] == engine;
    if ResetIsComplete(db.resets, bot) {
      MarkRows(db, t, bot, dbRows, Wires(engine), now);
    }
    r := Ok(());
  }

  ghost predicate AsksForMark(rows: seq<NamedRow>, name: string, wires: set<string>) {
    exists row :: row in rows && row.name == name && Missing(row.row, wires)
  }

  /** The marks for a list of loaded rows. */
  ghost function MarkedByRows(t: Tables, bot: string, rows: seq<NamedRow>, wires: set<string>, now: int): Tables {
    t.(groups := map k | k in t.groups ::
                   if k.bot == bot && AsksForMark(rows, k.name, wires)
                   then t.groups[k].(lostAt := Some(now)) else t.groups[k])
  }

  lemma MarkedByOneMore(t: Tables, bot: string, rows: seq<NamedRow>, row: NamedRow, wires: set<string>, now: int)
    ensures MarkedByRows(t, bot, rows + [row], wires, now)
            == var t1 := MarkedByRows(t, bot, rows, wires, now);
               if Missing(row.row, wires) then LostSet(t1, GroupKey(bot, row.name), Some(now)) else t1
  {
    forall k | k in t.groups && k.bot == bot
      ensures AsksForMark(rows + [row], k.name, wires)
              <==> AsksForMark(rows, k.name, wires) || (row.name == k.name && Missing(row.row, wires))
    {
      if row.name == k.name && Missing(row.row, wires) {
        assert row in rows + [row];
      }
    }
  }

  lemma MarkedByAllRows(t: Tables, loaded: Tables, bot: string, rows: seq<NamedRow>, wires: set<string>, now: int)
    requires forall i :: 0 <= i < |rows| ==>
               GroupKey(bot, rows[i].name) in loaded.groups && loaded.groups[GroupKey(bot, rows[i].name)] == rows[i].row
    requires forall k :: k in loaded.groups && k.bot == bot ==> NamedRow(k.name, loaded.groups[k]) in rows
    ensures MarkedByRows(t, bot, rows, wires, now) == MarkedThrough(t, loaded, bot, wires, now)
  {
    forall k | k in t.groups && k.bot == bot
      ensures AsksForMark(rows, k.name, wires) <==> k in loaded.groups && Missing(loaded.groups[k], wires)
    {
      assert k == GroupKey(bot, k.name);
    }
  }

  method MarkRows(db: Database, ghost loaded: Tables, bot: string, dbRows: seq<NamedRow>, wires: set<string>, now: int)
    requires forall i :: 0 <= i < |dbRows| ==>
               GroupKey(bot, dbRows[i].name) in loaded.groups && loaded.groups[GroupKey(bot, dbRows[i].name)] == dbRows[i].row
    requires forall k :: k in loaded.groups && k.bot == bot ==> NamedRow(k.name, loaded.groups[k]) in dbRows
    modifies db
    ensures db.Value() == MarkedThrough(old(db.Value()), loaded, bot, wires, now)
  {
    ghost var t1 := db.Value();
    assert db.Value() == MarkedByRows(t1, bot, dbRows[..0], wires, now);
    for i := 0 to |dbRows|
      invariant db.Value() == MarkedByRows(t1, bot, dbRows[..i], wires, now)
    {
      var row := dbRows[i];
      assert dbRows[..i + 1] == dbRows[..i] + [row];
      MarkedByOneMore(t1, bot, dbRows[..i], row, wires, now);
      if Missing(row.row, wires) {
        db.MarkMlsGroupStateLost(GroupKey(bot, row.name), now);
      }
    }
    assert dbRows[..|dbRows|] == dbRows;
    MarkedByAllRows(t1, loaded, bot, dbRows, wires, now);
  }

  // ----- What success leaves behind -----

  /** The row a wire id should have: the one it had, or a new one. */
  ghost function RowFor(t: Tables, bot: string, botNpub: string, wire: string): (row: GroupRow)
    ensures row.wire == wire
  {
    if HasWire(t.groups, bot, wire) then t.groups[KeyOf(t.groups, bot, wire)]
    else GroupRow(wire, botNpub, "", None)
  }

  /** Outside the reach of the engine's groups: another bot's row, or a wire id the engine lacks. */
  ghost predicate Outside(t: Tables, bot: string, wires: set<string>, k: GroupKey) {
    k in t.groups && (k.bot != bot || t.groups[k].wire !in wires)
  }

  ghost predicate Named(engine: seq<EngineGroup>, name: string) {
    exists g :: g in engine && g.name == name
  }

  /** Exactly one row per engine wire id, under the engine's name; every row outside as it was; nothing else. */
  ghost predicate RowsMatch(t: Tables, t1: Tables, bot: string, botNpub: string, engine: seq<EngineGroup>) {
    && (forall g :: g in engine ==>
          GroupKey(bot, g.name) in t1.groups && t1.groups[GroupKey(bot, g.name)] == RowFor(t, bot, botNpub, g.wire))
    && (forall k :: Outside(t, bot, Wires(engine), k) ==> k in t1.groups && t1.groups[k] == t.groups[k])
    && (forall k :: k in t1.groups ==>
          (k.bot == bot && Named(engine, k.name)) || Outside(t, bot, Wires(engine), k))
  }

  lemma WiresSnoc(engine: seq<EngineGroup>, g: EngineGroup)
    ensures Wires(engine + [g]) == Wires(engine) + {g.wire}
  {
    var all := engine + [g];
    forall w | w in Wires(engine)
      ensures w in Wires(all)
    {
      var i :| 0 <= i < |engine| && engine[i].wire == w;
      assert all[i].wire == w;
    }
    assert all[|engine|].wire == g.wire;
  }

  lemma UniqueHolder(groups: map<GroupKey, GroupRow>, k: GroupKey, bot: string, wire: string)
    requires OneRowPerWire(groups) && Holds(groups, k, bot, wire)
    ensures HasWire(groups, bot, wire) && KeyOf(groups, bot, wire) == k
  {
  }

  /** Before its turn, an engine group's wire id is where it was loaded, or nowhere. */
  lemma NotYetMoved(t: Tables, t1: Tables, bot: string, botNpub: string, engine: seq<EngineGroup>, wire: string)
    requires WellFormed(t) && WellFormed(t1) && RowsMatch(t, t1, bot, botNpub, engine)
    requires wire !in Wires(engine)
    ensures HasWire(t1.groups, bot, wire) <==> HasWire(t.groups, bot, wire)
    ensures HasWire(t.groups, bot, wire) ==>
              && KeyOf(t1.groups, bot, wire) == KeyOf(t.groups, bot, wire)
              && t1.groups[KeyOf(t.groups, bot, wire)] == t.groups[KeyOf(t.groups, bot, wire)]
  {
    if HasWire(t.groups, bot, wire) {
      var k := KeyOf(t.groups, bot, wire);
      assert Outside(t, bot, Wires(engine), k);
      UniqueHolder(t1.groups, k, bot, wire);
    }
    if HasWire(t1.groups, bot, wire) {
      var k := KeyOf(t1.groups, bot, wire);
      forall g | g in engine
        ensures GroupKey(bot, g.name) != k
      {
        assert g.wire in Wires(engine);
      }
      assert Outside(t, bot, Wires(engine), k);
      assert Holds(t.groups, k, bot, wire);
    }
  }

  /** A successful upsert puts the wire id's row under the given name and touches no other row. */
  lemma UpsertedRows(t: Tables, bot: string, botNpub: string, g: EngineGroup)
    requires WellFormed(t) && Upserted(t, bot, botNpub, g.wire, g.name, g.members).1.Ok?
    ensures var groups := Upserted(t, bot, botNpub, g.wire, g.name, g.members).0.groups;
            var to := GroupKey(bot, g.name);
            && to in groups && groups[to] == RowFor(t, bot, botNpub, g.wire)
            && (forall k :: k in groups && k != to ==> k in t.groups && groups[k] == t.groups[k])
            && (forall k :: k in t.groups && !Holds(t.groups, k, bot, g.wire) ==> k in groups && k != to)
            && (forall k :: k in groups && k != to ==> !Holds(t.groups, k, bot, g.wire))
  {
    var to := GroupKey(bot, g.name);
    if HasWire(t.groups, bot, g.wire) {
      forall k | Holds(t.groups, k, bot, g.wire)
        ensures k == KeyOf(t.groups, bot, g.wire)
      {
        UniqueHolder(t.groups, k, bot, g.wire);
      }
    }
  }

  lemma UpsertExtendsMatch(t: Tables, t1: Tables, bot: string, botNpub: string, engine: seq<EngineGroup>, g: EngineGroup)
    requires WellFormed(t) && WellFormed(t1) && RowsMatch(t, t1, bot, botNpub, engine)
    requires g.wire !in Wires(engine)
    requires Upserted(t1, bot, botNpub, g.wire, g.name, g.members).1.Ok?
    ensures RowsMatch(t, Upserted(t1, bot, botNpub, g.wire, g.name, g.members).0, bot, botNpub, engine + [g])
  {
    var t2 := Upserted(t1, bot, botNpub, g.wire, g.name, g.members).0;
    UpsertedRows(t1, bot, botNpub, g);
    WiresSnoc(engine, g);
    NotYetMoved(t, t1, bot, botNpub, engine, g.wire);
    forall p | p in engine + [g]
      ensures GroupKey(bot, p.name) in t2.groups && t2.groups[GroupKey(bot, p.name)] == RowFor(t, bot, botNpub, p.wire)
    {
      assert p in engine ==> p.wire in Wires(engine);
    }
    forall k | Outside(t, bot, Wires(engine + [g]), k)
      ensures k in t2.groups && t2.groups[k] == t.groups[k]
    {
      assert Outside(t, bot, Wires(engine), k);
    }
    forall k | k in t2.groups
      ensures (k.bot == bot && Named(engine + [g], k.name)) || Outside(t, bot, Wires(engine + [g]), k)
    {
      OriginOfRow(t, t1, bot, botNpub, engine, g, k);
    }
  }

  lemma OriginOfRow(t: Tables, t1: Tables, bot: string, botNpub: string, engine: seq<EngineGroup>, g: EngineGroup, k: GroupKey)
    requires WellFormed(t) && RowsMatch(t, t1, bot, botNpub, engine)
    requires k == GroupKey(bot, g.name) || (k in t1.groups && !Holds(t1.groups, k, bot, g.wire))
    requires Wires(engine + [g]) == Wires(engine) + {g.wire}
    ensures (k.bot == bot && Named(engine + [g], k.name)) || Outside(t, bot, Wires(engine + [g]), k)
  {
    if k == GroupKey(bot, g.name) {
      assert g in engine + [g];
    } else if k.bot == bot && Named(engine, k.name) {
      var p :| p in engine && p.name == k.name;
      assert p in engine + [g];
    } else {
      assert Outside(t, bot, Wires(engine), k);
    }
  }

  lemma {:induction false} UpsertsMatch(t: Tables, bot: string, botNpub: string, engine: seq<EngineGroup>)
    requires WellFormed(t) && DistinctWires(engine)
    requires UpsertedAll(t, bot, botNpub, engine).1.Ok?
    ensures RowsMatch(t, UpsertedAll(t, bot, botNpub, engine).0, bot, botNpub, engine)
  {
    if engine != [] {
      var n := |engine| - 1;
      UpsertsMatch(t, bot, botNpub, engine[..n]);
      UpsertsKeepWellFormed(t, bot, botNpub, engine[..n]);
      assert engine[n].wire !in Wires(engine[..n]);
      UpsertExtendsMatch(t, UpsertedAll(t, bot, botNpub, engine[..n]).0, bot, botNpub, engine[..n], engine[n]);
      assert engine[..n] + [engine[n]] == engine;
    }
  }

  // ----- When it succeeds -----

  /** Each engine name, at its turn, is free: no earlier engine group took it, and a loaded row that
      has it is the group's own or one that was renamed away before. */
  ghost predicate NameIsFree(t: Tables, bot: string, earlier: seq<EngineGroup>, g: EngineGroup) {
    && !Named(earlier, g.name)
    && (GroupKey(bot, g.name) in t.groups ==>
          var holder := t.groups[GroupKey(bot, g.name)].wire;
          holder == g.wire || holder in Wires(earlier))
  }

  ghost predicate SafeOrder(t: Tables, bot: string, engine: seq<EngineGroup>) {
    forall i :: 0 <= i < |engine| ==> NameIsFree(t, bot, engine[..i], engine[i])
  }

  lemma UpsertSucceedsExactlyWhenFree(t: Tables, t1: Tables, bot: string, botNpub: string, engine: seq<EngineGroup>, g: EngineGroup)
    requires WellFormed(t) && WellFormed(t1) && RowsMatch(t, t1, bot, botNpub, engine)
    requires g.wire !in Wires(engine)
    ensures Upserted(t1, bot, botNpub, g.wire, g.name, g.members).1.Ok? <==> NameIsFree(t, bot, engine, g)
  {
    var to := GroupKey(bot, g.name);
    NotYetMoved(t, t1, bot, botNpub, engine, g.wire);
    if Named(engine, g.name) {
      var p :| p in engine && p.name == g.name;
      assert p.wire in Wires(engine);
      assert to in t1.groups && t1.groups[to].wire == p.wire;
    } else if to in t1.groups {
      assert Outside(t, bot, Wires(engine), to);
    } else {
      assert to in t.groups && t.groups[to].wire !in Wires(engine) ==> Outside(t, bot, Wires(engine), to);
    }
    if HasWire(t1.groups, bot, g.wire) {
      var k := KeyOf(t1.groups, bot, g.wire);
      if to in t1.groups {
        assert t1.groups[to].wire == g.wire ==> k == to by {
          if t1.groups[to].wire == g.wire {
            UniqueHolder(t1.groups, to, bot, g.wire);
          }
        }
      } else {
        RenameNeverCollides(t1, k, g.name);
      }
    } else if to in t1.groups {
      assert t1.groups[to].wire == g.wire ==> Holds(t1.groups, to, bot, g.wire);
    }
  }

  lemma SafeOrderSnoc(t: Tables, bot: string, earlier: seq<EngineGroup>, g: EngineGroup)
    ensures SafeOrder(t, bot, earlier + [g]) <==> SafeOrder(t, bot, earlier) && NameIsFree(t, bot, earlier, g)
  {
    var all, n := earlier + [g], |earlier|;
    assert all[..n] == earlier && all[n] == g;
    assert forall i :: 0 <= i < n ==> all[..i] == earlier[..i] && all[i] == earlier[i];
    if SafeOrder(t, bot, all) {
      assert NameIsFree(t, bot, all[..n], all[n]);
      assert forall i :: 0 <= i < n ==> NameIsFree(t, bot, all[..i], all[i]);
    }
  }

  lemma NextSucceedsExactlyWhenFree(t: Tables, bot: string, botNpub: string, earlier: seq<EngineGroup>, g: EngineGroup)
    requires WellFormed(t) && DistinctWires(earlier + [g]) && UpsertedAll(t, bot, botNpub, earlier).1.Ok?
    ensures UpsertedAll(t, bot, botNpub, earlier + [g]).1.Ok? <==> NameIsFree(t, bot, earlier, g)
  {
    assert (earlier + [g])[..|earlier|] == earlier;
    assert DistinctWires(earlier) && g.wire !in Wires(earlier) by {
      assert forall i :: 0 <= i < |earlier| ==> (earlier + [g])[i] == earlier[i];
      assert (earlier + [g])[|earlier|] == g;
    }
    UpsertsMatch(t, bot, botNpub, earlier);
    UpsertsKeepWellFormed(t, bot, botNpub, earlier);
    UpsertSucceedsExactlyWhenFree(t, UpsertedAll(t, bot, botNpub, earlier).0, bot, botNpub, earlier, g);
  }

  lemma {:induction false} UpsertsSucceedExactlyInSafeOrder(t: Tables, bot: string, botNpub: string, engine: seq<EngineGroup>)
    requires WellFormed(t) && DistinctWires(engine)
    ensures UpsertedAll(t, bot, botNpub, engine).1.Ok? <==> SafeOrder(t, bot, engine)
  {
    if engine != [] {
      var n := |engine| - 1;
      var earlier, g := engine[..n], engine[n];
      assert earlier + [g] == engine;
      UpsertsSucceedExactlyInSafeOrder(t, bot, botNpub, earlier);
      SafeOrderSnoc(t, bot, earlier, g);
      if UpsertedAll(t, bot, botNpub, earlier).1.Ok? {
        NextSucceedsExactlyWhenFree(t, bot, botNpub, earlier, g);
      }
    }
  }

  /** Reconciliation succeeds for exactly the orders in which every engine name is free at its turn.
      A swap of two names, or a chain renamed from the wrong end, is not such an order. */
  lemma SucceedsExactlyInSafeOrder(t: Tables, bot: string, botNpub: string, engine: seq<EngineGroup>, now: int)
    requires WellFormed(t) && DistinctWires(engine)
    ensures Reconciled(t, bot, botNpub, engine, now).1.Ok? <==> SafeOrder(t, bot, engine)
  {
    UpsertsSucceedExactlyInSafeOrder(t, bot, botNpub, engine);
  }

  // ----- The marks -----

  /** The mark goes through the name a row was loaded under, and the upserts rename rows; still, every
      name that asks for a mark holds, at that time, the very row that was loaded under it. */
  lemma StaleNamesHitTheirRows(t: Tables, bot: string, botNpub: string, engine: seq<EngineGroup>, k: GroupKey)
    requires WellFormed(t) && DistinctWires(engine) && UpsertedAll(t, bot, botNpub, engine).1.Ok?
    requires k in t.groups && k.bot == bot && t.groups[k].wire !in Wires(engine)
    ensures var t1 := UpsertedAll(t, bot, botNpub, engine).0;
            k in t1.groups && t1.groups[k] == t.groups[k]
  {
    UpsertsMatch(t, bot, botNpub, engine);
    assert Outside(t, bot, Wires(engine), k);
  }

  /** What becomes of a row the engine does not have. */
  ghost function RowKept(t: Tables, bot: string, wires: set<string>, now: int, k: GroupKey): GroupRow
    requires k in t.groups
  {
    if k.bot == bot && ResetIsComplete(t.resets, bot) && Missing(t.groups[k], wires)
    then t.groups[k].(lostAt := Some(now)) else t.groups[k]
  }

  /** The whole outcome, row by row, in terms of the tables as they were loaded. */
  ghost predicate Settled(t: Tables, t': Tables, bot: string, botNpub: string, engine: seq<EngineGroup>, now: int) {
    && (forall g :: g in engine ==>
          GroupKey(bot, g.name) in t'.groups && t'.groups[GroupKey(bot, g.name)] == RowFor(t, bot, botNpub, g.wire))
    && (forall k :: Outside(t, bot, Wires(engine), k) ==>
          k in t'.groups && t'.groups[k] == RowKept(t, bot, Wires(engine), now, k))
    && (forall k :: k in t'.groups ==>
          (k.bot == bot && Named(engine, k.name)) || Outside(t, bot, Wires(engine), k))
  }

  lemma {:induction false} EngineWireIsListed(engine: seq<EngineGroup>, g: EngineGroup)
    requires g in engine
    ensures g.wire in Wires(engine)
  {
    var i :| 0 <= i < |engine| && engine[i] == g;
  }

  /** A row the engine has is never marked: a name loaded for a missing wire id is no engine group's name by then. */
  lemma EngineRowsAreNotMarked(t: Tables, t1: Tables, bot: string, botNpub: string, engine: seq<EngineGroup>, g: EngineGroup)
    requires WellFormed(t) && RowsMatch(t, t1, bot, botNpub, engine) && g in engine
    ensures GroupKey(bot, g.name) in t.groups ==> !Missing(t.groups[GroupKey(bot, g.name)], Wires(engine))
  {
    var k := GroupKey(bot, g.name);
    EngineWireIsListed(engine, g);
    if k in t.groups {
      assert t.groups[k].wire !in Wires(engine) ==> Outside(t, bot, Wires(engine), k);
    }
  }

  /** On success: exactly one row per engine wire id, under the engine's name and otherwise as it was or new;
      every other row of the bot as it was, but marked if a completed reset lost it; other bots' rows untouched. */
  lemma SuccessSettles(t: Tables, bot: string, botNpub: string, engine: seq<EngineGroup>, now: int)
    requires WellFormed(t) && DistinctWires(engine)
    requires Reconciled(t, bot, botNpub, engine, now).1.Ok?
    ensures Settled(t, Reconciled(t, bot, botNpub, engine, now).0, bot, botNpub, engine, now)
    ensures WellFormed(Reconciled(t, bot, botNpub, engine, now).0)
  {
    var t1 := UpsertedAll(t, bot, botNpub, engine).0;
    UpsertsMatch(t, bot, botNpub, engine);
    UpsertsKeepWellFormed(t, bot, botNpub, engine);
    forall g | g in engine
      ensures GroupKey(bot, g.name) in t.groups ==> !Missing(t.groups[GroupKey(bot, g.name)], Wires(engine))
    {
      EngineRowsAreNotMarked(t, t1, bot, botNpub, engine, g);
    }
  }

  /** On failure nothing is marked, the tables are still well formed and other bots' rows are untouched. */
  lemma FailureIsContained(t: Tables, bot: string, botNpub: string, engine: seq<EngineGroup>, now: int)
    requires WellFormed(t) && Reconciled(t, bot, botNpub, engine, now).1.Err?
    ensures var t' := Reconciled(t, bot, botNpub, engine, now).0;
            && WellFormed(t')
            && (forall k: GroupKey :: k.bot != bot ==> (k in t'.groups <==> k in t.groups))
            && (forall k: GroupKey :: k.bot != bot && k in t.groups ==> t'.groups[k] == t.groups[k])
            && (forall k :: k in t'.groups && k.bot == bot && t'.groups[k].lostAt.Some? ==>
                  HasWire(t.groups, bot, t'.groups[k].wire) && t'.groups[k] == RowFor(t, bot, botNpub, t'.groups[k].wire))
  {
    UpsertsKeepWellFormed(t, bot, botNpub, engine);
    UpsertsStayInTheirBot(t, bot, botNpub, engine);
  }

  lemma {:induction false} UpsertsStayInTheirBot(t: Tables, bot: string, botNpub: string, engine: seq<EngineGroup>)
    requires WellFormed(t)
    ensures var t' := UpsertedAll(t, bot, botNpub, engine).0;
            && (forall k: GroupKey :: k.bot != bot ==> (k in t'.groups <==> k in t.groups))
            && (forall k: GroupKey :: k.bot != bot && k in t.groups ==> t'.groups[k] == t.groups[k])
            && (forall k :: k in t'.groups && k.bot == bot && t'.groups[k].lostAt.Some? ==>
                  HasWire(t.groups, bot, t'.groups[k].wire) && t'.groups[k] == RowFor(t, bot, botNpub, t'.groups[k].wire))
  {
    if engine == [] {
      forall k | k in t.groups && k.bot == bot
        ensures HasWire(t.groups, bot, t.groups[k].wire) && t.groups[k] == RowFor(t, bot, botNpub, t.groups[k].wire)
      {
        UniqueHolder(t.groups, k, bot, t.groups[k].wire);
      }
    } else {
      var n := |engine| - 1;
      UpsertsStayInTheirBot(t, bot, botNpub, engine[..n]);
      UpsertsKeepWellFormed(t, bot, botNpub, engine[..n]);
      var (t1, r) := UpsertedAll(t, bot, botNpub, engine[..n]);
      if r.Ok? && Upserted(t1, bot, botNpub, engine[n].wire, engine[n].name, engine[n].members).1.Ok? {
        UpsertedRows(t1, bot, botNpub, engine[n]);
      }
    }
  }

  // ----- Membership -----

  /** Groups the daemon knew keep their members; new ones get the engine's. */
  lemma {:induction false} UpsertsKeepMembership(t: Tables, bot: string, botNpub: string, engine: seq<EngineGroup>, b: string, w: string)
    requires WellFormed(t) && HasWire(t.groups, b, w)
    ensures var t1 := UpsertedAll(t, bot, botNpub, engine).0;
            HasWire(t1.groups, b, w) && MembersOf(t1, b, w) == MembersOf(t, b, w)
  {
    if engine != [] {
      var n := |engine| - 1;
      UpsertsKeepMembership(t, bot, botNpub, engine[..n], b, w);
      UpsertsKeepWellFormed(t, bot, botNpub, engine[..n]);
      UpsertKeepsMembership(UpsertedAll(t, bot, botNpub, engine[..n]).0, bot, botNpub,
                            engine[n].wire, engine[n].name, engine[n].members, b, w);
    }
  }

  lemma {:induction false} NewGroupsGetTheirMembers(t: Tables, bot: string, botNpub: string, engine: seq<EngineGroup>, g: EngineGroup)
    requires WellFormed(t) && DistinctWires(engine) && g in engine && !HasWire(t.groups, bot, g.wire)
    requires UpsertedAll(t, bot, botNpub, engine).1.Ok?
    ensures var t1 := UpsertedAll(t, bot, botNpub, engine).0;
            HasWire(t1.groups, bot, g.wire) && MembersOf(t1, bot, g.wire) == set npub | npub in g.members
  {
    var n := |engine| - 1;
    var last := engine[n];
    var t1 := UpsertedAll(t, bot, botNpub, engine[..n]).0;
    UpsertsKeepWellFormed(t, bot, botNpub, engine[..n]);
    if g == last {
      UpsertsMatch(t, bot, botNpub, engine[..n]);
      NotYetMoved(t, t1, bot, botNpub, engine[..n], g.wire);
      var k := GroupKey(bot, g.name);
      NewGroupHasItsMembersOnly(t1, k, GroupRow(g.wire, botNpub, "", None), g.members);
      assert Holds(Upserted(t1, bot, botNpub, g.wire, g.name, g.members).0.groups, k, bot, g.wire);
    } else {
      assert g in engine[..n];
      NewGroupsGetTheirMembers(t, bot, botNpub, engine[..n], g);
      UpsertKeepsMembership(t1, bot, botNpub, last.wire, last.name, last.members, bot, g.wire);
    }
  }

  // ----- Order and repetition do not matter -----

  ghost predicate SameGroups(e1: seq<EngineGroup>, e2: seq<EngineGroup>) {
    forall g :: g in e1 <==> g in e2
  }

  lemma SameWires(e1: seq<EngineGroup>, e2: seq<EngineGroup>)
    requires SameGroups(e1, e2)
    ensures Wires(e1) == Wires(e2)
  {
    forall w
      ensures w in Wires(e1) <==> w in Wires(e2)
    {
      if w in Wires(e1) {
        var i :| 0 <= i < |e1| && e1[i].wire == w;
        assert e1[i] in e1;
        EngineWireIsListed(e2, e1[i]);
      }
      if w in Wires(e2) {
        var i :| 0 <= i < |e2| && e2[i].wire == w;
        assert e2[i] in e2;
        EngineWireIsListed(e1, e2[i]);
      }
    }
  }

  lemma SameNames(e1: seq<EngineGroup>, e2: seq<EngineGroup>, name: string)
    requires SameGroups(e1, e2)
    ensures Named(e1, name) <==> Named(e2, name)
  {
  }

  /** The rows are determined by the loaded tables and the engine's groups. */
  lemma RowsAreUnique(t: Tables, t1: Tables, t2: Tables, bot: string, botNpub: string,
                      e1: seq<EngineGroup>, e2: seq<EngineGroup>)
    requires SameGroups(e1, e2)
    requires RowsMatch(t, t1, bot, botNpub, e1) && RowsMatch(t, t2, bot, botNpub, e2)
    ensures t1.groups == t2.groups
  {
    SameWires(e1, e2);
    forall k
      ensures k in t1.groups <==> k in t2.groups
      ensures k in t1.groups ==> t1.groups[k] == t2.groups[k]
    {
      SameNames(e1, e2, k.name);
      if k.bot == bot && Named(e1, k.name) {
        var g :| g in e1 && g.name == k.name;
        assert g in e2 && GroupKey(bot, g.name) == k;
      }
    }
  }

  lemma MembersAreUnique(t: Tables, bot: string, botNpub: string, e1: seq<EngineGroup>, e2: seq<EngineGroup>, m: MemberKey)
    requires WellFormed(t) && DistinctWires(e1) && DistinctWires(e2) && SameGroups(e1, e2)
    requires UpsertedAll(t, bot, botNpub, e1).1.Ok? && UpsertedAll(t, bot, botNpub, e2).1.Ok?
    requires UpsertedAll(t, bot, botNpub, e1).0.groups == UpsertedAll(t, bot, botNpub, e2).0.groups
    requires m in UpsertedAll(t, bot, botNpub, e1).0.members
    ensures m in UpsertedAll(t, bot, botNpub, e2).0.members
  {
    var t1, t2 := UpsertedAll(t, bot, botNpub, e1).0, UpsertedAll(t, bot, botNpub, e2).0;
    UpsertsKeepWellFormed(t, bot, botNpub, e1);
    UpsertsKeepWellFormed(t, bot, botNpub, e2);
    var k := GroupKey(m.bot, m.name);
    var w := t1.groups[k].wire;
    MembersAt(t1, k, m.npub);
    MembersAt(t2, k, m.npub);
    if HasWire(t.groups, k.bot, w) {
      UpsertsKeepMembership(t, bot, botNpub, e1, k.bot, w);
      UpsertsKeepMembership(t, bot, botNpub, e2, k.bot, w);
    } else {
      UpsertsMatch(t, bot, botNpub, e1);
      assert Outside(t, bot, Wires(e1), k) ==> Holds(t.groups, k, k.bot, w);
      var g :| g in e1 && g.name == k.name;
      assert GroupKey(bot, g.name) == k;
      NewGroupsGetTheirMembers(t, bot, botNpub, e1, g);
      NewGroupsGetTheirMembers(t, bot, botNpub, e2, g);
    }
  }

  lemma UpsertOrderDoesNotMatter(t: Tables, bot: string, botNpub: string, e1: seq<EngineGroup>, e2: seq<EngineGroup>)
    requires WellFormed(t) && DistinctWires(e1) && DistinctWires(e2) && SameGroups(e1, e2)
    requires UpsertedAll(t, bot, botNpub, e1).1.Ok? && UpsertedAll(t, bot, botNpub, e2).1.Ok?
    ensures UpsertedAll(t, bot, botNpub, e1).0 == UpsertedAll(t, bot, botNpub, e2).0
  {
    var t1, t2 := UpsertedAll(t, bot, botNpub, e1).0, UpsertedAll(t, bot, botNpub, e2).0;
    UpsertsMatch(t, bot, botNpub, e1);
    UpsertsMatch(t, bot, botNpub, e2);
    RowsAreUnique(t, t1, t2, bot, botNpub, e1, e2);
    forall m
      ensures m in t1.members <==> m in t2.members
    {
      if m in t1.members {
        MembersAreUnique(t, bot, botNpub, e1, e2, m);
      }
      if m in t2.members {
        MembersAreUnique(t, bot, botNpub, e2, e1, m);
      }
    }
    UpsertsKeepWellFormed(t, bot, botNpub, e1);
    UpsertsKeepWellFormed(t, bot, botNpub, e2);
  }

  /** Any two orders of the engine's groups for which reconciliation succeeds give the same tables. */
  lemma OrderDoesNotMatter(t: Tables, bot: string, botNpub: string, e1: seq<EngineGroup>, e2: seq<EngineGroup>, now: int)
    requires WellFormed(t) && DistinctWires(e1) && DistinctWires(e2) && SameGroups(e1, e2)
    requires Reconciled(t, bot, botNpub, e1, now).1.Ok? && Reconciled(t, bot, botNpub, e2, now).1.Ok?
    ensures Reconciled(t, bot, botNpub, e1, now) == Reconciled(t, bot, botNpub, e2, now)
  {
    SameWires(e1, e2);
    UpsertOrderDoesNotMatter(t, bot, botNpub, e1, e2);
  }

  lemma {:induction false} NothingToUpsert(t: Tables, bot: string, botNpub: string, engine: seq<EngineGroup>)
    requires WellFormed(t)
    requires forall g :: g in engine ==> Holds(t.groups, GroupKey(bot, g.name), bot, g.wire)
    ensures UpsertedAll(t, bot, botNpub, engine) == (t, Ok(()))
  {
    if engine != [] {
      var n := |engine| - 1;
      NothingToUpsert(t, bot, botNpub, engine[..n]);
      UniqueHolder(t.groups, GroupKey(bot, engine[n].name), bot, engine[n].wire);
    }
  }

  lemma NothingLeftToMark(t: Tables, t': Tables, bot: string, botNpub: string, engine: seq<EngineGroup>, now: int, later: int)
    requires Settled(t, t', bot, botNpub, engine, now) && ResetIsComplete(t.resets, bot)
    ensures MarkedThrough(t', t', bot, Wires(engine), later) == t'
  {
    forall k | k in t'.groups && k.bot == bot
      ensures !Missing(t'.groups[k], Wires(engine))
    {
      if Outside(t, bot, Wires(engine), k) {
        assert t'.groups[k] == RowKept(t, bot, Wires(engine), now, k);
      } else {
        var g :| g in engine && g.name == k.name;
        assert GroupKey(bot, g.name) == k;
        EngineWireIsListed(engine, g);
      }
    }
  }

  lemma EngineRowsHold(t: Tables, t': Tables, bot: string, botNpub: string, engine: seq<EngineGroup>, now: int)
    requires Settled(t, t', bot, botNpub, engine, now)
    ensures forall g :: g in engine ==> Holds(t'.groups, GroupKey(bot, g.name), bot, g.wire)
  {
  }

  /** A second reconciliation with the same engine, at any later time, succeeds and changes nothing at all:
      even the marks keep their first timestamp. */
  lemma Idempotent(t: Tables, bot: string, botNpub: string, engine: seq<EngineGroup>, now: int, later: int)
    requires WellFormed(t) && DistinctWires(engine)
    requires Reconciled(t, bot, botNpub, engine, now).1.Ok?
    ensures var once := Reconciled(t, bot, botNpub, engine, now);
            Reconciled(once.0, bot, botNpub, engine, later) == once
  {
    var once := Reconciled(t, bot, botNpub, engine, now);
    assert once == (once.0, Ok(()));
    IdempotentOnce(t, once.0, bot, botNpub, engine, now, later);
  }

  lemma IdempotentOnce(t: Tables, t': Tables, bot: string, botNpub: string, engine: seq<EngineGroup>, now: int, later: int)
    requires WellFormed(t) && DistinctWires(engine) && Reconciled(t, bot, botNpub, engine, now) == (t', Ok(()))
    ensures Reconciled(t', bot, botNpub, engine, later) == (t', Ok(()))
  {
    SuccessSettles(t, bot, botNpub, engine, now);
    ResetsAreKept(t, bot, botNpub, engine, now);
    SettledStays(t, t', bot, botNpub, engine, now, later);
  }

  lemma ResetsAreKept(t: Tables, bot: string, botNpub: string, engine: seq<EngineGroup>, now: int)
    requires WellFormed(t)
    ensures Reconciled(t, bot, botNpub, engine, now).0.resets == t.resets
  {
    UpsertsKeepWellFormed(t, bot, botNpub, engine);
  }

  lemma SettledStays(t: Tables, t': Tables, bot: string, botNpub: string, engine: seq<EngineGroup>, now: int, later: int)
    requires WellFormed(t') && Settled(t, t', bot, botNpub, engine, now) && t'.resets == t.resets
    ensures Reconciled(t', bot, botNpub, engine, later) == (t', Ok(()))
  {
    EngineRowsHold(t, t', bot, botNpub, engine, now);
    NothingToUpsert(t', bot, botNpub, engine);
    if ResetIsComplete(t.resets, bot) {
      NothingLeftToMark(t, t', bot, botNpub, engine, now, later);
    }
  }
}

/** The two MLS tables and the reset markers of `agent.db`.

    The schema gives `mls_groups` the primary key (bot, name) and the unique pair
    (bot, wire id), and `mls_group_members` the primary key (bot, name, npub). It
    declares no foreign keys: that every member row has its group row is kept by
    the operations alone. */
module GroupTables {
  import opened Wrappers

  datatype GroupKey = GroupKey(bot: string, name: string)
  datatype GroupRow = GroupRow(wire: string, creator: string, relay: string, lostAt: Option<int>)
  datatype NamedRow = NamedRow(name: string, row: GroupRow)
  datatype MemberKey = MemberKey(bot: string, name: string, npub: string)
  datatype Marker = Marker(markedAt: int, resetAt: Option<int>)

  datatype Tables = Tables(groups: map<GroupKey, GroupRow>, members: set<MemberKey>, resets: map<string, Marker>)

  datatype DbError = ConstraintViolation | NameHeldByWire(wire: string)

  // ----- Well-formed tables -----

  /** The unique pair (bot, wire id). */
  ghost predicate OneRowPerWire(groups: map<GroupKey, GroupRow>) {
    forall j, k :: j in groups && k in groups && j.bot == k.bot && groups[j].wire == groups[k].wire ==> j == k
  }

  /** What no foreign key enforces. */
  ghost predicate NoOrphans(t: Tables) {
    forall m :: m in t.members ==> GroupKey(m.bot, m.name) in t.groups
  }

  ghost predicate WellFormed(t: Tables) {
    OneRowPerWire(t.groups) && NoOrphans(t)
  }

  predicate Holds(groups: map<GroupKey, GroupRow>, k: GroupKey, bot: string, wire: string) {
    k in groups && k.bot == bot && groups[k].wire == wire
  }

  ghost predicate HasWire(groups: map<GroupKey, GroupRow>, bot: string, wire: string) {
    exists k :: Holds(groups, k, bot, wire)
  }

  /** The key of the row with this wire id; there is one at most. */
  ghost function KeyOf(groups: map<GroupKey, GroupRow>, bot: string, wire: string): (k: GroupKey)
    requires HasWire(groups, bot, wire)
    ensures Holds(groups, k, bot, wire)
  {
    var k :| Holds(groups, k, bot, wire);
    k
  }

  /** The members of the group with this wire id, whatever it is called at the moment. */
  ghost function MembersOf(t: Tables, bot: string, wire: string): set<string> {
    set m | m in t.members && Holds(t.groups, GroupKey(m.bot, m.name), bot, wire) :: m.npub
  }

  function MemberKeys(bot: string, name: string, npubs: seq<string>): set<MemberKey> {
    set i | 0 <= i < |npubs| :: MemberKey(bot, name, npubs[i])
  }

  // ----- What each operation does -----

  ghost function Inserted(t: Tables, k: GroupKey, row: GroupRow, invited: seq<string>): (Tables, Result<(), DbError>) {
    if k in t.groups || HasWire(t.groups, k.bot, row.wire) then (t, Err(ConstraintViolation))
    else (t.(groups := t.groups[k := row], members := t.members + MemberKeys(k.bot, k.name, invited)), Ok(()))
  }

  ghost function RenamedMembers(members: set<MemberKey>, bot: string, from: string, to: string): set<MemberKey> {
    (set m | m in members && !(m.bot == bot && m.name == from))
    + (set m | m in members && m.bot == bot && m.name == from :: MemberKey(bot, to, m.npub))
  }

  /** Renaming the members of one group would make two member rows one. */
  ghost predicate MembersCollide(members: set<MemberKey>, bot: string, from: string, to: string) {
    exists npub :: MemberKey(bot, from, npub) in members && MemberKey(bot, to, npub) in members
  }

  ghost function Renamed(t: Tables, k: GroupKey, name: string): (Tables, Result<(), DbError>)
    requires k in t.groups
  {
    var to := GroupKey(k.bot, name);
    if to in t.groups || MembersCollide(t.members, k.bot, k.name, name) then (t, Err(ConstraintViolation))
    else (t.(groups := (t.groups - {k})[to := t.groups[k]],
             members := RenamedMembers(t.members, k.bot, k.name, name)), Ok(()))
  }

  ghost function Upserted(t: Tables, bot: string, botNpub: string, wire: string, name: string, members: seq<string>)
    : (Tables, Result<(), DbError>)
  {
    if HasWire(t.groups, bot, wire) then
      var k := KeyOf(t.groups, bot, wire);
      if k.name == name then (t, Ok(())) else Renamed(t, k, name)
    else if GroupKey(bot, name) in t.groups then
      (t, Err(NameHeldByWire(t.groups[GroupKey(bot, name)].wire)))
    else
      Inserted(t, GroupKey(bot, name), GroupRow(wire, botNpub, "", None), members)
  }

  ghost function Invited(t: Tables, k: GroupKey, npub: string): (Tables, bool) {
    if k in t.groups then (t.(members := t.members + {MemberKey(k.bot, k.name, npub)}), true) else (t, false)
  }

  ghost function MemberDeleted(t: Tables, k: GroupKey, npub: string): (Tables, bool) {
    var m := MemberKey(k.bot, k.name, npub);
    (t.(members := t.members - {m}), m in t.members)
  }

  ghost function WireDeleted(t: Tables, bot: string, wire: string): (Tables, bool) {
    if HasWire(t.groups, bot, wire) then
      var k := KeyOf(t.groups, bot, wire);
      (t.(groups := t.groups - {k}, members := set m | m in t.members && !(m.bot == bot && m.name == k.name)), true)
    else (t, false)
  }

  ghost function LostSet(t: Tables, k: GroupKey, lostAt: Option<int>): Tables {
    if k in t.groups then t.(groups := t.groups[k := t.groups[k].(lostAt := lostAt)]) else t
  }

  ghost function ResetStarted(t: Tables, bot: string, at: int): Tables {
    t.(resets := t.resets[bot := Marker(at, None)])
  }

  ghost function ResetCompleted(t: Tables, bot: string, at: int): Tables {
    if bot in t.resets then t.(resets := t.resets[bot := t.resets[bot].(resetAt := Some(at))]) else t
  }

  // ----- The database -----

  class Database {
    var groups: map<GroupKey, GroupRow>
    var members: set<MemberKey>
    var resets: map<string, Marker>

    ghost function Value(): Tables
      reads this
    {
      Tables(groups, members, resets)
    }

    constructor ()
      ensures Value() == Tables(map[], {}, map[])
    {
      groups, members, resets := map[], {}, map[];
    }

    /** The row with one wire id, if there is one. */
    method FindByWire(bot: string, wire: string) returns (k: Option<GroupKey>)
      ensures k.Some? <==> HasWire(groups, bot, wire)
      ensures k.Some? ==> Holds(groups, k.value, bot, wire)
    {
      if found :| found in groups && Holds(groups, found, bot, wire) {
        k := Some(found);
      } else {
        k := None;
      }
    }

    /** Every row of one bot, each once. */
    method LoadAllMlsGroups(bot: string) returns (rows: seq<NamedRow>)
      ensures forall i :: 0 <= i < |rows| ==>
                GroupKey(bot, rows[i].name) in groups && groups[GroupKey(bot, rows[i].name)] == rows[i].row
      ensures forall k :: k in groups && k.bot == bot ==> NamedRow(k.name, groups[k]) in rows
      ensures forall i, j :: 0 <= i < j < |rows| ==> rows[i].name != rows[j].name
    {
      rows := [];
      var left := set k | k in groups && k.bot == bot;
      while left != {}
        invariant forall k :: k in left ==> k in groups && k.bot == bot
        invariant forall i :: 0 <= i < |rows| ==>
                    && GroupKey(bot, rows[i].name) in groups && groups[GroupKey(bot, rows[i].name)] == rows[i].row
                    && GroupKey(bot, rows[i].name) !in left
        invariant forall k :: k in groups && k.bot == bot ==> k in left || NamedRow(k.name, groups[k]) in rows
        invariant forall i, j :: 0 <= i < j < |rows| ==> rows[i].name != rows[j].name
        decreases |left|
      {
        var k :| k in left;
        rows := rows + [NamedRow(k.name, groups[k])];
        left := left - {k};
      }
    }

    /** Both `insert_mls_group` and `insert_mls_group_export`: one transaction, a strict insert
        of the group and then its members, one by one, where a repeat changes nothing. */
    method InsertMlsGroup(k: GroupKey, row: GroupRow, invited: seq<string>) returns (r: Result<(), DbError>)
      modifies this
      ensures (Value(), r) == Inserted(old(Value()), k, row, invited)
    {
      var holder := FindByWire(k.bot, row.wire);
      if k in groups || holder.Some? {
        return Err(ConstraintViolation);
      }
      var newMembers := members;
      for i := 0 to |invited|
        invariant Value() == old(Value())
        invariant newMembers == members + MemberKeys(k.bot, k.name, invited[..i])
      {
        newMembers := newMembers + {MemberKey(k.bot, k.name, invited[i])};
        MemberKeysSnoc(k.bot, k.name, invited, i);
      }
      assert invited[..|invited|] == invited;
      groups := groups[k := row];
      members := newMembers;
      return Ok(());
    }

    /** The rename inside `upsert_mls_group_from_reconciliation`: two updates, one transaction. */
    method Rename(k: GroupKey, name: string) returns (r: Result<(), DbError>)
      requires k in groups
      modifies this
      ensures (Value(), r) == Renamed(old(Value()), k, name)
    {
      var to := GroupKey(k.bot, name);
      if to in groups {
        return Err(ConstraintViolation);
      }
      var moving := set m | m in members && m.bot == k.bot && m.name == k.name;
      var moved := set m | m in moving :: MemberKey(k.bot, name, m.npub);
      if clash :| clash in moving && MemberKey(k.bot, name, clash.npub) in members {
        assert MemberKey(k.bot, k.name, clash.npub) in members;
        return Err(ConstraintViolation);
      }
      assert members - moving + moved == RenamedMembers(members, k.bot, k.name, name);
      groups := (groups - {k})[to := groups[k]];
      members := members - moving + moved;
      return Ok(());
    }

    method UpsertMlsGroupFromReconciliation(bot: string, botNpub: string, wire: string, name: string, npubs: seq<string>)
      returns (r: Result<(), DbError>)
      requires OneRowPerWire(groups)
      modifies this
      ensures (Value(), r) == Upserted(old(Value()), bot, botNpub, wire, name, npubs)
    {
      var existing := FindByWire(bot, wire);
      if existing.Some? {
        if existing.value.name != name {
          r := Rename(existing.value, name);
        } else {
          r := Ok(());
        }
      } else if GroupKey(bot, name) in groups {
        r := Err(NameHeldByWire(groups[GroupKey(bot, name)].wire));
      } else {
        r := InsertMlsGroup(GroupKey(bot, name), GroupRow(wire, botNpub, "", None), npubs);
      }
    }

    method UpdateMlsGroupInvite(k: GroupKey, npub: string) returns (existed: bool)
      modifies this
      ensures (Value(), existed) == Invited(old(Value()), k, npub)
    {
      existed := k in groups;
      if existed {
        members := members + {MemberKey(k.bot, k.name, npub)};
      }
    }

    method DeleteMlsGroupMember(k: GroupKey, npub: string) returns (deleted: bool)
      modifies this
      ensures (Value(), deleted) == MemberDeleted(old(Value()), k, npub)
    {
      deleted := MemberKey(k.bot, k.name, npub) in members;
      members := members - {MemberKey(k.bot, k.name, npub)};
    }

    method DeleteMlsGroupByWireId(bot: string, wire: string) returns (deleted: bool)
      requires OneRowPerWire(groups)
      modifies this
      ensures (Value(), deleted) == WireDeleted(old(Value()), bot, wire)
    {
      var existing := FindByWire(bot, wire);
      if existing.None? {
        return false;
      }
      members := set m | m in members && !(m.bot == bot && m.name == existing.value.name);
      groups := groups - {existing.value};
      deleted := true;
    }

    method MarkMlsGroupStateLost(k: GroupKey, at: int)
      modifies this
      ensures Value() == LostSet(old(Value()), k, Some(at))
    {
      if k in groups {
        groups := groups[k := groups[k].(lostAt := Some(at))];
      }
    }

    method ClearMlsGroupStateLost(k: GroupKey)
      modifies this
      ensures Value() == LostSet(old(Value()), k, None)
    {
      if k in groups {
        groups := groups[k := groups[k].(lostAt := None)];
      }
    }

    method LoadMlsGroupStateLostAt(bot: string, wire: string) returns (at: Option<int>)
      requires OneRowPerWire(groups)
      ensures at.Some? <==> exists k :: Holds(groups, k, bot, wire) && groups[k].lostAt.Some?
      ensures forall k :: Holds(groups, k, bot, wire) ==> at == groups[k].lostAt
    {
      var k := FindByWire(bot, wire);
      at := if k.Some? then groups[k.value].lostAt else None;
    }

    method MarkMlsStoreResetStart(bot: string, at: int)
      modifies this
      ensures Value() == ResetStarted(old(Value()), bot, at)
    {
      resets := resets[bot := Marker(at, None)];
    }

    method CompleteMlsStoreReset(bot: string, at: int)
      modifies this
      ensures Value() == ResetCompleted(old(Value()), bot, at)
    {
      if bot in resets {
        resets := resets[bot := resets[bot].(resetAt := Some(at))];
      }
    }
  }

  lemma MemberKeysSnoc(bot: string, name: string, npubs: seq<string>, i: nat)
    requires i < |npubs|
    ensures MemberKeys(bot, name, npubs[..i + 1]) == MemberKeys(bot, name, npubs[..i]) + {MemberKey(bot, name, npubs[i])}
  {
    var all, some := MemberKeys(bot, name, npubs[..i + 1]), MemberKeys(bot, name, npubs[..i]);
    forall m | m in all
      ensures m in some + {MemberKey(bot, name, npubs[i])}
    {
      var j :| 0 <= j < i + 1 && m == MemberKey(bot, name, npubs[..i + 1][j]);
      assert j < i ==> npubs[..i][j] == npubs[j];
    }
    forall m | m in some
      ensures m in all
    {
      var j :| 0 <= j < i && m == MemberKey(bot, name, npubs[..i][j]);
      assert npubs[..i + 1][j] == npubs[j];
    }
    assert npubs[..i + 1][i] == npubs[i];
  }

  // ----- What every run of operations keeps -----

  /** An insert, an import, a create's row: any row for any key. */
  datatype Op =
    | Insert(key: GroupKey, row: GroupRow, invited: seq<string>)
    | Upsert(bot: string, botNpub: string, wire: string, name: string, npubs: seq<string>)
    | Invite(key: GroupKey, npub: string)
    | DeleteMember(key: GroupKey, npub: string)
    | DeleteWire(bot: string, wire: string)
    | SetLost(key: GroupKey, lostAt: Option<int>)
    | StartReset(bot: string, at: int)
    | CompleteReset(bot: string, at: int)

  /** One operation, committed or rolled back. */
  ghost function Apply(t: Tables, op: Op): Tables {
    match op
    case Insert(k, row, invited) => Inserted(t, k, row, invited).0
    case Upsert(bot, botNpub, wire, name, npubs) => Upserted(t, bot, botNpub, wire, name, npubs).0
    case Invite(k, npub) => Invited(t, k, npub).0
    case DeleteMember(k, npub) => MemberDeleted(t, k, npub).0
    case DeleteWire(bot, wire) => WireDeleted(t, bot, wire).0
    case SetLost(k, lostAt) => LostSet(t, k, lostAt)
    case StartReset(bot, at) => ResetStarted(t, bot, at)
    case CompleteReset(bot, at) => ResetCompleted(t, bot, at)
  }

  ghost function ApplyAll(t: Tables, ops: seq<Op>): Tables {
    if ops == [] then t else Apply(ApplyAll(t, ops[..|ops| - 1]), ops[|ops| - 1])
  }

  lemma InsertKeeps(t: Tables, k: GroupKey, row: GroupRow, invited: seq<string>)
    requires WellFormed(t)
    ensures WellFormed(Inserted(t, k, row, invited).0)
  {
    var t' := Inserted(t, k, row, invited).0;
    forall j | j in t'.groups && j.bot == k.bot && t'.groups[j].wire == row.wire && t' != t
      ensures j == k
    {
      assert j != k ==> Holds(t.groups, j, k.bot, row.wire);
    }
  }

  /** With no orphans, the name being renamed to has no member rows to collide with. */
  lemma RenameNeverCollides(t: Tables, k: GroupKey, name: string)
    requires WellFormed(t) && k in t.groups && GroupKey(k.bot, name) !in t.groups
    ensures !MembersCollide(t.members, k.bot, k.name, name)
    ensures Renamed(t, k, name).1 == Ok(())
  {
  }

  lemma RenameKeeps(t: Tables, k: GroupKey, name: string)
    requires WellFormed(t) && k in t.groups
    ensures WellFormed(Renamed(t, k, name).0)
  {
    var t' := Renamed(t, k, name).0;
    var to := GroupKey(k.bot, name);
    if t' != t {
      forall i, j | i in t'.groups && j in t'.groups && i.bot == j.bot && t'.groups[i].wire == t'.groups[j].wire
        ensures i == j
      {
        var i0, j0 := if i == to then k else i, if j == to then k else j;
        assert i0 in t.groups && j0 in t.groups;
      }
    }
  }

  lemma ApplyKeeps(t: Tables, op: Op)
    requires WellFormed(t)
    ensures WellFormed(Apply(t, op))
  {
    match op
    case Insert(k, row, invited) => InsertKeeps(t, k, row, invited);
    case Upsert(bot, botNpub, wire, name, npubs) =>
      InsertKeeps(t, GroupKey(bot, name), GroupRow(wire, botNpub, "", None), npubs);
      if HasWire(t.groups, bot, wire) {
        RenameKeeps(t, KeyOf(t.groups, bot, wire), name);
      }
    case Invite(k, npub) =>
    case DeleteMember(k, npub) =>
    case DeleteWire(bot, wire) =>
      if HasWire(t.groups, bot, wire) {
        var k := KeyOf(t.groups, bot, wire);
        assert k == GroupKey(bot, k.name);
      }
    case SetLost(k, lostAt) =>
    case StartReset(bot, at) =>
    case CompleteReset(bot, at) =>
  }

  /** However operations succeed, fail and follow one another, wire ids stay unique per bot and no member row is orphaned. */
  lemma {:induction false} RunsKeepTablesWellFormed(t: Tables, ops: seq<Op>)
    requires WellFormed(t)
    ensures WellFormed(ApplyAll(t, ops))
  {
    if ops != [] {
      RunsKeepTablesWellFormed(t, ops[..|ops| - 1]);
      ApplyKeeps(ApplyAll(t, ops[..|ops| - 1]), ops[|ops| - 1]);
    }
  }

  /** Membership belongs to the wire id: no reconciliation upsert, renaming or not, changes it for a known group. */
  lemma UpsertKeepsMembership(t: Tables, bot: string, botNpub: string, wire: string, name: string, npubs: seq<string>,
                              b: string, w: string)
    requires WellFormed(t) && HasWire(t.groups, b, w)
    ensures var t' := Upserted(t, bot, botNpub, wire, name, npubs).0;
            HasWire(t'.groups, b, w) && MembersOf(t', b, w) == MembersOf(t, b, w)
  {
    var held := KeyOf(t.groups, b, w);
    if HasWire(t.groups, bot, wire) {
      var k := KeyOf(t.groups, bot, wire);
      if k.name != name {
        RenameKeepsMembership(t, k, name, held);
      }
    } else {
      var t' := Upserted(t, bot, botNpub, wire, name, npubs).0;
      assert Holds(t'.groups, held, b, w);
      forall m | m in t'.members && Holds(t'.groups, GroupKey(m.bot, m.name), b, w)
        ensures m in t.members && Holds(t.groups, GroupKey(m.bot, m.name), b, w)
      {
        if t' != t {
          InsertKeeps(t, GroupKey(bot, name), GroupRow(wire, botNpub, "", None), npubs);
          assert GroupKey(m.bot, m.name) == held;
        }
      }
      assert MembersOf(t', b, w) == MembersOf(t, b, w);
    }
  }

  lemma RenameKeepsMembership(t: Tables, k: GroupKey, name: string, held: GroupKey)
    requires WellFormed(t) && k in t.groups && held in t.groups && k.name != name
    ensures var t' := Renamed(t, k, name).0;
            var w := t.groups[held].wire;
            HasWire(t'.groups, held.bot, w) && MembersOf(t', held.bot, w) == MembersOf(t, held.bot, w)
  {
    var t' := Renamed(t, k, name).0;
    var w := t.groups[held].wire;
    var to := GroupKey(k.bot, name);
    if t' != t {
      assert Holds(t'.groups, if held == k then to else held, held.bot, w);
      RenameKeeps(t, k, name);
      forall npub
        ensures npub in MembersOf(t', held.bot, w) <==> npub in MembersOf(t, held.bot, w)
      {
        MembersAt(t, held, npub);
        MembersAt(t', if held == k then to else held, npub);
      }
    } else {
      assert Holds(t.groups, held, held.bot, w);
    }
  }

  /** A group's members are the member rows under its present name. */
  lemma MembersAt(t: Tables, k: GroupKey, npub: string)
    requires OneRowPerWire(t.groups) && k in t.groups
    ensures npub in MembersOf(t, k.bot, t.groups[k].wire) <==> MemberKey(k.bot, k.name, npub) in t.members
  {
    var w := t.groups[k].wire;
    if npub in MembersOf(t, k.bot, w) {
      var m :| m in t.members && Holds(t.groups, GroupKey(m.bot, m.name), k.bot, w) && m.npub == npub;
      assert GroupKey(m.bot, m.name) == k;
    }
    if MemberKey(k.bot, k.name, npub) in t.members {
      assert Holds(t.groups, GroupKey(k.bot, k.name), k.bot, w);
    }
  }

  /** A new group starts with exactly the members it is given: no row left over from an earlier group of that name. */
  lemma NewGroupHasItsMembersOnly(t: Tables, k: GroupKey, row: GroupRow, invited: seq<string>)
    requires WellFormed(t) && Inserted(t, k, row, invited).1 == Ok(())
    ensures MembersOf(Inserted(t, k, row, invited).0, k.bot, row.wire) == set npub | npub in invited
  {
    var t' := Inserted(t, k, row, invited).0;
    InsertKeeps(t, k, row, invited);
    forall npub
      ensures npub in MembersOf(t', k.bot, row.wire) <==> npub in invited
    {
      MembersAt(t', k, npub);
    }
  }
}

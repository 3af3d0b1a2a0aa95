/** The tables keyed by name are a record of groups keyed by wire id.

    A group keeps its wire id for life, while its name changes and each of its member rows
    with it. Seen by wire id every operation is a simple one, on one group at most. */
module TablesByWire {
  import opened Wrappers
  import opened GroupTables

  datatype WireKey = WireKey(bot: string, wire: string)
  datatype Group = Group(name: string, creator: string, relay: string, lostAt: Option<int>, members: set<string>)

  type Groups = map<WireKey, Group>

  ghost function GroupAt(t: Tables, k: GroupKey): Group
    requires k in t.groups
  {
    var row := t.groups[k];
    Group(k.name, row.creator, row.relay, row.lostAt, set m | m in t.members && m.bot == k.bot && m.name == k.name :: m.npub)
  }

  ghost function StoredWires(t: Tables): set<WireKey> {
    set k | k in t.groups :: WireKey(k.bot, t.groups[k].wire)
  }

  ghost function ByWire(t: Tables): Groups {
    map w | w in StoredWires(t) && HasWire(t.groups, w.bot, w.wire) :: GroupAt(t, KeyOf(t.groups, w.bot, w.wire))
  }

  // ----- The operations, by wire id -----

  ghost predicate NameTaken(g: Groups, bot: string, name: string) {
    exists w :: w in g && w.bot == bot && g[w].name == name
  }

  ghost predicate Called(g: Groups, w: WireKey, k: GroupKey) {
    w in g && w.bot == k.bot && g[w].name == k.name
  }

  ghost function Added(g: Groups, w: WireKey, group: Group): Groups {
    if w in g || NameTaken(g, w.bot, group.name) then g else g[w := group]
  }

  ghost function Done(g: Groups, op: Op): Groups {
    match op
    case Insert(k, row, invited) =>
      Added(g, WireKey(k.bot, row.wire), Group(k.name, row.creator, row.relay, row.lostAt, set npub | npub in invited))
    case Upsert(bot, botNpub, wire, name, npubs) =>
      var w := WireKey(bot, wire);
      if w in g && !NameTaken(g, bot, name) then g[w := g[w].(name := name)]
      else Added(g, w, Group(name, botNpub, "", None, set npub | npub in npubs))
    case Invite(k, npub) => map w | w in g :: if Called(g, w, k) then g[w].(members := g[w].members + {npub}) else g[w]
    case DeleteMember(k, npub) => map w | w in g :: if Called(g, w, k) then g[w].(members := g[w].members - {npub}) else g[w]
    case DeleteWire(bot, wire) => g - {WireKey(bot, wire)}
    case SetLost(k, lostAt) => map w | w in g :: if Called(g, w, k) then g[w].(lostAt := lostAt) else g[w]
    case StartReset(_, _) => g
    case CompleteReset(_, _) => g
  }

  ghost function DoneAll(g: Groups, ops: seq<Op>): Groups {
    if ops == [] then g else Done(DoneAll(g, ops[..|ops| - 1]), ops[|ops| - 1])
  }

  // ----- What is stored under a wire id -----

  ghost predicate HeldAs(t: Tables, w: WireKey, k: GroupKey) {
    Holds(t.groups, k, w.bot, w.wire)
  }

  lemma StoredAs(t: Tables, w: WireKey, k: GroupKey)
    requires OneRowPerWire(t.groups) && HeldAs(t, w, k)
    ensures w in ByWire(t) && ByWire(t)[w] == GroupAt(t, k)
  {
    assert w in StoredWires(t);
    assert HasWire(t.groups, w.bot, w.wire);
  }

  lemma StoredExactly(t: Tables, w: WireKey)
    ensures w in ByWire(t) <==> HasWire(t.groups, w.bot, w.wire)
    ensures w in ByWire(t) ==> HeldAs(t, w, GroupKey(w.bot, ByWire(t)[w].name))
  {
    if HasWire(t.groups, w.bot, w.wire) {
      var k := KeyOf(t.groups, w.bot, w.wire);
      assert WireKey(k.bot, t.groups[k].wire) == w;
      assert w in StoredWires(t);
    }
  }

  lemma TakenExactly(t: Tables, bot: string, name: string)
    requires OneRowPerWire(t.groups)
    ensures NameTaken(ByWire(t), bot, name) <==> GroupKey(bot, name) in t.groups
  {
    var k := GroupKey(bot, name);
    if k in t.groups {
      StoredAs(t, WireKey(bot, t.groups[k].wire), k);
    }
    if w :| w in ByWire(t) && w.bot == bot && ByWire(t)[w].name == name {
      StoredExactly(t, w);
    }
  }

  lemma CalledExactly(t: Tables, w: WireKey, k: GroupKey)
    requires OneRowPerWire(t.groups)
    ensures Called(ByWire(t), w, k) <==> HeldAs(t, w, k)
  {
    if HeldAs(t, w, k) {
      StoredAs(t, w, k);
    }
    if Called(ByWire(t), w, k) {
      StoredExactly(t, w);
    }
  }

  /** Two records are the same if every wire id is stored in neither or as the same group in both. */
  lemma SameByWire(t: Tables, g: Groups)
    requires OneRowPerWire(t.groups)
    requires forall w, k :: HeldAs(t, w, k) ==> w in g && g[w] == GroupAt(t, k)
    requires forall w :: w in g ==> HasWire(t.groups, w.bot, w.wire)
    ensures ByWire(t) == g
  {
    forall w
      ensures w in ByWire(t) <==> w in g
      ensures w in ByWire(t) ==> ByWire(t)[w] == g[w]
    {
      StoredExactly(t, w);
      if w in ByWire(t) {
        var k := GroupKey(w.bot, ByWire(t)[w].name);
        StoredAs(t, w, k);
      }
    }
  }

  // ----- Operation by operation -----

  lemma InsertByWire(t: Tables, k: GroupKey, row: GroupRow, invited: seq<string>)
    requires WellFormed(t)
    ensures ByWire(Inserted(t, k, row, invited).0) == Done(ByWire(t), Insert(k, row, invited))
    ensures Inserted(t, k, row, invited).1.Ok? <==>
              WireKey(k.bot, row.wire) !in ByWire(t) && !NameTaken(ByWire(t), k.bot, k.name)
  {
    var inserted := WireKey(k.bot, row.wire);
    TakenExactly(t, k.bot, k.name);
    StoredExactly(t, inserted);
    if Inserted(t, k, row, invited).1.Ok? {
      InsertedByWire(t, k, row, invited);
    }
  }

  lemma InsertedByWire(t: Tables, k: GroupKey, row: GroupRow, invited: seq<string>)
    requires WellFormed(t) && Inserted(t, k, row, invited).1.Ok?
    ensures ByWire(Inserted(t, k, row, invited).0)
            == ByWire(t)[WireKey(k.bot, row.wire) :=
                         Group(k.name, row.creator, row.relay, row.lostAt, set npub | npub in invited)]
  {
    var t' := Inserted(t, k, row, invited).0;
    var group := Group(k.name, row.creator, row.relay, row.lostAt, set npub | npub in invited);
    var g := ByWire(t)[WireKey(k.bot, row.wire) := group];
    InsertKeeps(t, k, row, invited);
    forall w, j | HeldAs(t', w, j)
      ensures w in g && g[w] == GroupAt(t', j)
    {
      if j == k {
        NewMembers(t, k, row, invited);
      } else {
        StoredAs(t, w, j);
        assert GroupAt(t', j).members == GroupAt(t, j).members;
        assert w != WireKey(k.bot, row.wire);
      }
    }
    forall w | w in g
      ensures HasWire(t'.groups, w.bot, w.wire)
    {
      if w == WireKey(k.bot, row.wire) {
        assert HeldAs(t', w, k);
      } else {
        StoredExactly(t, w);
        assert HeldAs(t', w, GroupKey(w.bot, ByWire(t)[w].name));
      }
    }
    SameByWire(t', g);
  }

  lemma NewMembers(t: Tables, k: GroupKey, row: GroupRow, invited: seq<string>)
    requires WellFormed(t) && Inserted(t, k, row, invited).1.Ok?
    ensures GroupAt(Inserted(t, k, row, invited).0, k)
            == Group(k.name, row.creator, row.relay, row.lostAt, set npub | npub in invited)
  {
    var t' := Inserted(t, k, row, invited).0;
    forall npub
      ensures npub in GroupAt(t', k).members <==> npub in invited
    {
      if npub in invited {
        assert MemberKey(k.bot, k.name, npub) in t'.members;
      }
    }
  }

  lemma RenameByWire(t: Tables, k: GroupKey, name: string)
    requires WellFormed(t) && k in t.groups && GroupKey(k.bot, name) !in t.groups
    ensures var w := WireKey(k.bot, t.groups[k].wire);
            && w in ByWire(t)
            && ByWire(Renamed(t, k, name).0) == ByWire(t)[w := ByWire(t)[w].(name := name)]
  {
    var renamed, t', to := WireKey(k.bot, t.groups[k].wire), Renamed(t, k, name).0, GroupKey(k.bot, name);
    StoredAs(t, renamed, k);
    RenameNeverCollides(t, k, name);
    RenameKeeps(t, k, name);
    var g := ByWire(t)[renamed := ByWire(t)[renamed].(name := name)];
    forall w, j | HeldAs(t', w, j)
      ensures w in g && g[w] == GroupAt(t', j)
    {
      MembersMove(t, k, name, j);
      StoredAs(t, w, if j == to then k else j);
      assert j != to ==> w != renamed;
    }
    forall w | w in g
      ensures HasWire(t'.groups, w.bot, w.wire)
    {
      StoredExactly(t, w);
      assert HeldAs(t', w, if w == renamed then to else GroupKey(w.bot, ByWire(t)[w].name));
    }
    SameByWire(t', g);
  }

  lemma MembersMove(t: Tables, k: GroupKey, name: string, j: GroupKey)
    requires WellFormed(t) && k in t.groups && GroupKey(k.bot, name) !in t.groups && j in Renamed(t, k, name).0.groups
    ensures var from := if j == GroupKey(k.bot, name) then k else j;
            from in t.groups && GroupAt(Renamed(t, k, name).0, j).members == GroupAt(t, from).members
  {
    var t' := Renamed(t, k, name).0;
    var from := if j == GroupKey(k.bot, name) then k else j;
    forall npub
      ensures npub in GroupAt(t', j).members <==> npub in GroupAt(t, from).members
    {
      assert npub in GroupAt(t', j).members <==> MemberKey(j.bot, j.name, npub) in t'.members;
      assert npub in GroupAt(t, from).members <==> MemberKey(from.bot, from.name, npub) in t.members;
    }
  }

  lemma UpsertByWire(t: Tables, bot: string, botNpub: string, wire: string, name: string, npubs: seq<string>)
    requires WellFormed(t)
    ensures ByWire(Upserted(t, bot, botNpub, wire, name, npubs).0) == Done(ByWire(t), Upsert(bot, botNpub, wire, name, npubs))
    ensures var w := WireKey(bot, wire);
            Upserted(t, bot, botNpub, wire, name, npubs).1.Ok? <==>
              !NameTaken(ByWire(t), bot, name) || (w in ByWire(t) && ByWire(t)[w].name == name)
    ensures var r := Upserted(t, bot, botNpub, wire, name, npubs).1;
            r.Err? ==>
              if WireKey(bot, wire) in ByWire(t) then r.error == ConstraintViolation
              else r.error.NameHeldByWire? && Called(ByWire(t), WireKey(bot, r.error.wire), GroupKey(bot, name))
  {
    var w, to := WireKey(bot, wire), GroupKey(bot, name);
    StoredExactly(t, w);
    TakenExactly(t, bot, name);
    if HasWire(t.groups, bot, wire) {
      var k := KeyOf(t.groups, bot, wire);
      StoredAs(t, w, k);
      if to !in t.groups {
        RenameByWire(t, k, name);
        RenameNeverCollides(t, k, name);
      }
    } else {
      InsertByWire(t, to, GroupRow(wire, botNpub, "", None), npubs);
      if to in t.groups {
        CalledExactly(t, WireKey(bot, t.groups[to].wire), to);
      }
    }
  }

  /** An operation that leaves every row in place changes each group by itself. */
  lemma InPlace(t: Tables, t': Tables, g: Groups)
    requires OneRowPerWire(t.groups) && OneRowPerWire(t'.groups)
    requires forall w, k :: HeldAs(t', w, k) <==> HeldAs(t, w, k)
    requires g.Keys == ByWire(t).Keys && forall w, k :: HeldAs(t', w, k) && w in g ==> g[w] == GroupAt(t', k)
    ensures ByWire(t') == g
  {
    forall w, k | HeldAs(t', w, k)
      ensures w in g && g[w] == GroupAt(t', k)
    {
      StoredAs(t, w, k);
    }
    forall w | w in g
      ensures HasWire(t'.groups, w.bot, w.wire)
    {
      StoredExactly(t, w);
      assert HeldAs(t', w, GroupKey(w.bot, ByWire(t)[w].name));
    }
    SameByWire(t', g);
  }

  ghost function MembersChanged(t: Tables, k: GroupKey, npub: string, there: bool): Tables {
    var m := MemberKey(k.bot, k.name, npub);
    t.(members := if there then t.members + {m} else t.members - {m})
  }

  lemma MemberByWire(t: Tables, k: GroupKey, npub: string, there: bool, j: GroupKey)
    requires j in t.groups
    ensures var t' := MembersChanged(t, k, npub, there);
            GroupAt(t', j) == if j != k then GroupAt(t, j)
                              else if there then GroupAt(t, j).(members := GroupAt(t, j).members + {npub})
                              else GroupAt(t, j).(members := GroupAt(t, j).members - {npub})
  {
    var t' := MembersChanged(t, k, npub, there);
    forall n
      ensures n in GroupAt(t', j).members <==> if j == k && n == npub then there else n in GroupAt(t, j).members
    {
      assert n in GroupAt(t', j).members <==> MemberKey(j.bot, j.name, n) in t'.members;
      assert n in GroupAt(t, j).members <==> MemberKey(j.bot, j.name, n) in t.members;
    }
  }

  lemma InviteByWire(t: Tables, k: GroupKey, npub: string)
    requires WellFormed(t)
    ensures ByWire(Invited(t, k, npub).0) == Done(ByWire(t), Invite(k, npub))
    ensures Invited(t, k, npub).1 <==> NameTaken(ByWire(t), k.bot, k.name)
  {
    var t' := Invited(t, k, npub).0;
    var g := Done(ByWire(t), Invite(k, npub));
    TakenExactly(t, k.bot, k.name);
    assert k in t.groups ==> t' == MembersChanged(t, k, npub, true);
    forall w, j | HeldAs(t', w, j) && w in g
      ensures g[w] == GroupAt(t', j)
    {
      CalledExactly(t, w, k);
      StoredAs(t, w, j);
      MemberByWire(t, k, npub, true, j);
    }
    InPlace(t, t', g);
  }

  lemma DeleteMemberByWire(t: Tables, k: GroupKey, npub: string)
    requires WellFormed(t)
    ensures ByWire(MemberDeleted(t, k, npub).0) == Done(ByWire(t), DeleteMember(k, npub))
    ensures MemberDeleted(t, k, npub).1 <==>
              exists w :: Called(ByWire(t), w, k) && npub in ByWire(t)[w].members
  {
    var t' := MemberDeleted(t, k, npub).0;
    var g := Done(ByWire(t), DeleteMember(k, npub));
    assert t' == MembersChanged(t, k, npub, false);
    forall w, j | HeldAs(t', w, j) && w in g
      ensures g[w] == GroupAt(t', j)
    {
      CalledExactly(t, w, k);
      StoredAs(t, w, j);
      MemberByWire(t, k, npub, false, j);
    }
    InPlace(t, t', g);
    MemberIsThere(t, k, npub);
  }

  lemma MemberIsThere(t: Tables, k: GroupKey, npub: string)
    requires WellFormed(t)
    ensures MemberKey(k.bot, k.name, npub) in t.members <==>
              exists w :: Called(ByWire(t), w, k) && npub in ByWire(t)[w].members
  {
    if MemberKey(k.bot, k.name, npub) in t.members {
      var w := WireKey(k.bot, t.groups[k].wire);
      StoredAs(t, w, k);
      assert Called(ByWire(t), w, k);
    }
    if w :| Called(ByWire(t), w, k) && npub in ByWire(t)[w].members {
      CalledExactly(t, w, k);
      StoredAs(t, w, k);
    }
  }

  lemma LostByWire(t: Tables, k: GroupKey, lostAt: Option<int>, j: GroupKey)
    requires j in t.groups
    ensures GroupAt(LostSet(t, k, lostAt), j) == if j == k then GroupAt(t, j).(lostAt := lostAt) else GroupAt(t, j)
  {
    assert GroupAt(LostSet(t, k, lostAt), j).members == GroupAt(t, j).members;
  }

  lemma SetLostByWire(t: Tables, k: GroupKey, lostAt: Option<int>)
    requires WellFormed(t)
    ensures ByWire(LostSet(t, k, lostAt)) == Done(ByWire(t), SetLost(k, lostAt))
  {
    var t' := LostSet(t, k, lostAt);
    var g := Done(ByWire(t), SetLost(k, lostAt));
    forall w, j | HeldAs(t', w, j) && w in g
      ensures g[w] == GroupAt(t', j)
    {
      CalledExactly(t, w, k);
      StoredAs(t, w, j);
      LostByWire(t, k, lostAt, j);
    }
    InPlace(t, t', g);
  }

  lemma DeleteWireByWire(t: Tables, bot: string, wire: string)
    requires WellFormed(t)
    ensures ByWire(WireDeleted(t, bot, wire).0) == Done(ByWire(t), DeleteWire(bot, wire))
    ensures WireDeleted(t, bot, wire).1 <==> WireKey(bot, wire) in ByWire(t)
  {
    StoredExactly(t, WireKey(bot, wire));
    if HasWire(t.groups, bot, wire) {
      WireGoes(t, bot, wire);
    }
  }

  lemma WireGoes(t: Tables, bot: string, wire: string)
    requires WellFormed(t) && HasWire(t.groups, bot, wire)
    ensures ByWire(WireDeleted(t, bot, wire).0) == ByWire(t) - {WireKey(bot, wire)}
  {
    var t', k := WireDeleted(t, bot, wire).0, KeyOf(t.groups, bot, wire);
    var g := ByWire(t) - {WireKey(bot, wire)};
    forall w, j | HeldAs(t', w, j)
      ensures w in g && g[w] == GroupAt(t', j)
    {
      StoredAs(t, w, j);
      assert j.bot != k.bot || j.name != k.name;
      assert GroupAt(t', j).members == GroupAt(t, j).members;
    }
    forall w | w in g
      ensures HasWire(t'.groups, w.bot, w.wire)
    {
      StoredExactly(t, w);
      assert HeldAs(t', w, GroupKey(w.bot, ByWire(t)[w].name));
    }
    SameByWire(t', g);
  }

  // ----- Refinement -----

  lemma RowOperationByWire(t: Tables, op: Op)
    requires WellFormed(t) && (op.Insert? || op.Upsert? || op.DeleteWire? || op.SetLost?)
    ensures ByWire(Apply(t, op)) == Done(ByWire(t), op)
  {
    match op
    case Insert(k, row, invited) => InsertByWire(t, k, row, invited);
    case Upsert(bot, botNpub, wire, name, npubs) => UpsertByWire(t, bot, botNpub, wire, name, npubs);
    case DeleteWire(bot, wire) => DeleteWireByWire(t, bot, wire);
    case SetLost(k, lostAt) => SetLostByWire(t, k, lostAt);
  }

  lemma OtherOperationByWire(t: Tables, op: Op)
    requires WellFormed(t) && (op.Invite? || op.DeleteMember? || op.StartReset? || op.CompleteReset?)
    ensures ByWire(Apply(t, op)) == Done(ByWire(t), op)
  {
    match op
    case Invite(k, npub) => InviteByWire(t, k, npub);
    case DeleteMember(k, npub) => DeleteMemberByWire(t, k, npub);
    case StartReset(bot, at) => ResetsLeaveGroups(t, ResetStarted(t, bot, at));
    case CompleteReset(bot, at) => ResetsLeaveGroups(t, ResetCompleted(t, bot, at));
  }

  /** Every operation on the tables is the simple one on the record of groups by wire id. */
  lemma OperationByWire(t: Tables, op: Op)
    requires WellFormed(t)
    ensures ByWire(Apply(t, op)) == Done(ByWire(t), op)
  {
    if op.Insert? || op.Upsert? || op.DeleteWire? || op.SetLost? {
      RowOperationByWire(t, op);
    } else {
      OtherOperationByWire(t, op);
    }
  }

  lemma ResetsLeaveGroups(t: Tables, t': Tables)
    requires t'.groups == t.groups && t'.members == t.members
    ensures ByWire(t') == ByWire(t)
  {
    assert forall k :: k in t.groups ==> GroupAt(t', k) == GroupAt(t, k);
  }

  /** Any run of operations, failed ones included, does to the tables what the simple ones do to the record. */
  lemma {:induction false} RunsByWire(t: Tables, ops: seq<Op>)
    requires WellFormed(t)
    ensures ByWire(ApplyAll(t, ops)) == DoneAll(ByWire(t), ops)
  {
    if ops != [] {
      var n := |ops| - 1;
      RunsByWire(t, ops[..n]);
      RunsKeepTablesWellFormed(t, ops[..n]);
      OperationByWire(ApplyAll(t, ops[..n]), ops[n]);
    }
  }

  /** The record leaves out nothing: tables with the same record have the same rows. */
  lemma NothingIsLost(t: Tables, t': Tables)
    requires WellFormed(t) && WellFormed(t') && ByWire(t) == ByWire(t')
    ensures t.groups == t'.groups && t.members == t'.members
  {
    forall k
      ensures k in t.groups ==> k in t'.groups && t'.groups[k] == t.groups[k]
      ensures k in t'.groups ==> k in t.groups
    {
      if k in t.groups {
        SameRow(t, t', k);
      }
      if k in t'.groups {
        SameRow(t', t, k);
      }
    }
    forall m
      ensures m in t.members <==> m in t'.members
    {
      MemberIsThere(t, GroupKey(m.bot, m.name), m.npub);
      MemberIsThere(t', GroupKey(m.bot, m.name), m.npub);
    }
  }

  lemma SameRow(t: Tables, t': Tables, k: GroupKey)
    requires WellFormed(t) && WellFormed(t') && ByWire(t) == ByWire(t') && k in t.groups
    ensures k in t'.groups && t'.groups[k] == t.groups[k]
  {
    var w := WireKey(k.bot, t.groups[k].wire);
    StoredAs(t, w, k);
    StoredExactly(t', w);
    StoredAs(t', w, k);
  }
}

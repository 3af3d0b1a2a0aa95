/** Which engines can be reconciled at all: when some order of their groups succeeds. */
module RenameOrders {
  import opened Wrappers
  import opened GroupTables
  import opened Reconciliation

  ghost predicate DistinctNames(engine: seq<EngineGroup>) {
    forall i, j :: 0 <= i < j < |engine| ==> engine[i].name != engine[j].name
  }

  /** No name the engine wants is held by a row whose wire id the engine lacks. */
  ghost predicate NoNameHeldOutside(t: Tables, bot: string, engine: seq<EngineGroup>) {
    forall g :: g in engine && GroupKey(bot, g.name) in t.groups ==> t.groups[GroupKey(bot, g.name)].wire in Wires(engine)
  }

  /** The name `g` wants is held by the row of another group, `h`. */
  ghost predicate WaitsFor(t: Tables, bot: string, g: EngineGroup, h: EngineGroup) {
    h.wire != g.wire && Holds(t.groups, GroupKey(bot, g.name), bot, h.wire)
  }

  /** Groups each of which waits for the next, and the last for the first. */
  ghost predicate Ring(t: Tables, bot: string, engine: seq<EngineGroup>, ring: seq<EngineGroup>) {
    && ring != []
    && (forall i :: 0 <= i < |ring| ==> ring[i] in engine)
    && forall i :: 0 <= i < |ring| ==> WaitsFor(t, bot, ring[i], ring[if i + 1 < |ring| then i + 1 else 0])
  }

  ghost predicate SomeOrderSucceeds(t: Tables, bot: string, botNpub: string, engine: seq<EngineGroup>, now: int) {
    exists order :: SameGroups(engine, order) && DistinctWires(order) && Reconciled(t, bot, botNpub, order, now).1.Ok?
  }

  // ----- What keeps every order from succeeding -----

  lemma IndexOf(engine: seq<EngineGroup>, g: EngineGroup) returns (i: nat)
    requires g in engine
    ensures i < |engine| && engine[i] == g
  {
    i :| 0 <= i < |engine| && engine[i] == g;
  }

  /** A wire id belongs to one group of the engine. */
  lemma SameWireSameGroup(engine: seq<EngineGroup>, g: EngineGroup, h: EngineGroup)
    requires DistinctWires(engine) && g in engine && h in engine && g.wire == h.wire
    ensures g == h
  {
  }

  /** In a safe order, whoever waits for another comes after it. */
  lemma WaitsComesAfter(t: Tables, bot: string, order: seq<EngineGroup>, i: nat, j: nat)
    requires SafeOrder(t, bot, order) && DistinctWires(order) && i < |order| && j < |order|
    requires WaitsFor(t, bot, order[i], order[j])
    ensures j < i
  {
    assert NameIsFree(t, bot, order[..i], order[i]);
    var k :| 0 <= k < i && order[..i][k].wire == order[j].wire;
    assert order[k] == order[j];
  }

  /** Along a ring, positions in a safe order go down by one at least. */
  lemma {:induction false} RingGoesDown(t: Tables, bot: string, engine: seq<EngineGroup>, order: seq<EngineGroup>,
                                        ring: seq<EngineGroup>, n: nat) returns (first: nat, here: nat)
    requires SameGroups(engine, order) && DistinctWires(order) && SafeOrder(t, bot, order)
    requires Ring(t, bot, engine, ring) && n < |ring|
    ensures here + n <= first < |order| && order[first] == ring[0] && order[here] == ring[n]
  {
    here := IndexOf(order, ring[n]);
    if n == 0 {
      first := here;
    } else {
      var before;
      first, before := RingGoesDown(t, bot, engine, order, ring, n - 1);
      WaitsComesAfter(t, bot, order, before, here);
    }
  }

  /** So a ring has no group to begin with. */
  lemma RingFails(t: Tables, bot: string, engine: seq<EngineGroup>, order: seq<EngineGroup>, ring: seq<EngineGroup>)
    requires SameGroups(engine, order) && DistinctWires(order) && Ring(t, bot, engine, ring)
    ensures !SafeOrder(t, bot, order)
  {
    if SafeOrder(t, bot, order) {
      var first, last := RingGoesDown(t, bot, engine, order, ring, |ring| - 1);
      WaitsComesAfter(t, bot, order, last, first);
    }
  }

  lemma SafeOrderNeedsDistinctNames(t: Tables, bot: string, engine: seq<EngineGroup>, order: seq<EngineGroup>)
    requires DistinctWires(engine) && SameGroups(engine, order) && SafeOrder(t, bot, order)
    ensures DistinctNames(engine)
  {
    forall i, j | 0 <= i < j < |engine|
      ensures engine[i].name != engine[j].name
    {
      assert engine[i] in engine && engine[j] in engine;
      var k := IndexOf(order, engine[i]);
      var l := IndexOf(order, engine[j]);
      assert NameIsFree(t, bot, order[..k], order[k]) && NameIsFree(t, bot, order[..l], order[l]);
      assert k < l ==> order[k] in order[..l];
      assert l < k ==> order[l] in order[..k];
    }
  }

  lemma SafeOrderNeedsNoNameOutside(t: Tables, bot: string, engine: seq<EngineGroup>, order: seq<EngineGroup>)
    requires SameGroups(engine, order) && SafeOrder(t, bot, order)
    ensures NoNameHeldOutside(t, bot, engine)
  {
    SameWires(engine, order);
    forall g | g in engine && GroupKey(bot, g.name) in t.groups
      ensures t.groups[GroupKey(bot, g.name)].wire in Wires(engine)
    {
      var i := IndexOf(order, g);
      assert NameIsFree(t, bot, order[..i], order[i]);
      EngineWireIsListed(engine, g);
      var holder := t.groups[GroupKey(bot, g.name)].wire;
      if holder != g.wire {
        var k :| 0 <= k < i && order[..i][k].wire == holder;
        assert order[k].wire == holder;
      }
    }
  }

  // ----- Finding an order that succeeds -----

  ghost predicate NoRing(t: Tables, bot: string, engine: seq<EngineGroup>) {
    forall ring :: !Ring(t, bot, engine, ring)
  }

  ghost predicate Distinct(path: seq<EngineGroup>) {
    forall i, j :: 0 <= i < j < |path| ==> path[i] != path[j]
  }

  lemma {:induction false} DistinctFitIn(path: seq<EngineGroup>, s: set<EngineGroup>)
    requires Distinct(path) && forall g :: g in path ==> g in s
    ensures |path| <= |s|
  {
    if path != [] {
      var n := |path| - 1;
      assert forall g :: g in path[..n] ==> g in path;
      assert path[n] !in path[..n];
      DistinctFitIn(path[..n], s - {path[n]});
    }
  }

  ghost predicate WaitsWithin(t: Tables, bot: string, s: set<EngineGroup>, g: EngineGroup) {
    exists h :: h in s && WaitsFor(t, bot, g, h)
  }

  /** Where each of a set of groups waits for another, following them leads back to one already passed. */
  lemma {:induction false} FindRing(t: Tables, bot: string, engine: seq<EngineGroup>, s: set<EngineGroup>, path: seq<EngineGroup>)
    returns (ring: seq<EngineGroup>)
    requires forall g :: g in s ==> g in engine
    requires forall g {:trigger WaitsWithin(t, bot, s, g)} :: g in s ==> WaitsWithin(t, bot, s, g)
    requires path != [] && Distinct(path) && forall g :: g in path ==> g in s
    requires forall i :: 0 <= i < |path| - 1 ==> WaitsFor(t, bot, path[i], path[i + 1])
    ensures Ring(t, bot, engine, ring)
    decreases |s| - |path|
  {
    var last := path[|path| - 1];
    assert last in path && WaitsWithin(t, bot, s, last);
    var h :| h in s && WaitsFor(t, bot, last, h);
    if h in path {
      var j := IndexOf(path, h);
      ring := path[j..];
    } else {
      DistinctFitIn(path + [h], s);
      ring := FindRing(t, bot, engine, s, path + [h]);
    }
  }

  /** A group that waits for none of those still to come has its name free. */
  lemma NextIsFree(t: Tables, bot: string, engine: seq<EngineGroup>, earlier: seq<EngineGroup>, rest: set<EngineGroup>,
                   g: EngineGroup)
    requires DistinctNames(engine) && NoNameHeldOutside(t, bot, engine)
    requires forall h :: h in engine <==> h in earlier || h in rest
    requires g in rest && g !in earlier && !WaitsWithin(t, bot, rest, g)
    ensures NameIsFree(t, bot, earlier, g)
  {
    forall p | p in earlier
      ensures p.name != g.name
    {
      var i := IndexOf(engine, p);
      var j := IndexOf(engine, g);
      assert i < j || j < i;
    }
    if GroupKey(bot, g.name) in t.groups {
      var holder := t.groups[GroupKey(bot, g.name)].wire;
      var i :| 0 <= i < |engine| && engine[i].wire == holder;
      var h := engine[i];
      assert h in engine;
      if h in earlier {
        EngineWireIsListed(earlier, h);
      }
    }
  }

  lemma AppendDistinct(engine: seq<EngineGroup>, earlier: seq<EngineGroup>, g: EngineGroup)
    requires DistinctWires(engine) && DistinctWires(earlier) && g in engine && g !in earlier
    requires forall h :: h in earlier ==> h in engine
    ensures DistinctWires(earlier + [g])
  {
    forall i | 0 <= i < |earlier|
      ensures earlier[i].wire != g.wire
    {
      assert earlier[i] in earlier;
    }
  }

  lemma SomeoneIsNext(t: Tables, bot: string, engine: seq<EngineGroup>, rest: set<EngineGroup>) returns (g: EngineGroup)
    requires NoRing(t, bot, engine) && rest != {} && forall h :: h in rest ==> h in engine
    ensures g in rest && !WaitsWithin(t, bot, rest, g)
  {
    g :| g in rest;
    if forall h {:trigger WaitsWithin(t, bot, rest, h)} :: h in rest ==> WaitsWithin(t, bot, rest, h) {
      var ring := FindRing(t, bot, engine, rest, [g]);
      assert false;
    } else {
      g :| g in rest && !WaitsWithin(t, bot, rest, g);
    }
  }

  /** As long as there is no ring, some group still to come waits for none of the others, and may come next. */
  lemma {:induction false} OrderTheRest(t: Tables, bot: string, engine: seq<EngineGroup>, earlier: seq<EngineGroup>,
                                        rest: set<EngineGroup>) returns (order: seq<EngineGroup>)
    requires DistinctWires(engine) && DistinctNames(engine) && NoNameHeldOutside(t, bot, engine) && NoRing(t, bot, engine)
    requires DistinctWires(earlier) && SafeOrder(t, bot, earlier)
    requires forall h :: h in engine <==> h in earlier || h in rest
    requires forall h :: h in rest ==> h !in earlier
    ensures SameGroups(engine, order) && DistinctWires(order) && SafeOrder(t, bot, order)
    decreases |rest|
  {
    if rest == {} {
      order := earlier;
    } else {
      var g := SomeoneIsNext(t, bot, engine, rest);
      NextIsFree(t, bot, engine, earlier, rest, g);
      SafeOrderSnoc(t, bot, earlier, g);
      AppendDistinct(engine, earlier, g);
      order := OrderTheRest(t, bot, engine, earlier + [g], rest - {g});
    }
  }

  /** The groups of an engine can be reconciled in some order exactly when their names are distinct, none is held by a row
      of a group the engine lacks, and the renames contain no ring. */
  lemma SomeOrderSucceedsExactlyWithoutRing(t: Tables, bot: string, botNpub: string, engine: seq<EngineGroup>, now: int)
    requires WellFormed(t) && DistinctWires(engine)
    ensures SomeOrderSucceeds(t, bot, botNpub, engine, now) <==>
              DistinctNames(engine) && NoNameHeldOutside(t, bot, engine) && NoRing(t, bot, engine)
  {
    if SomeOrderSucceeds(t, bot, botNpub, engine, now) {
      var order :| SameGroups(engine, order) && DistinctWires(order) && Reconciled(t, bot, botNpub, order, now).1.Ok?;
      SucceedsExactlyInSafeOrder(t, bot, botNpub, order, now);
      SafeOrderNeedsDistinctNames(t, bot, engine, order);
      SafeOrderNeedsNoNameOutside(t, bot, engine, order);
      forall ring
        ensures !Ring(t, bot, engine, ring)
      {
        if Ring(t, bot, engine, ring) {
          RingFails(t, bot, engine, order, ring);
        }
      }
    }
    if DistinctNames(engine) && NoNameHeldOutside(t, bot, engine) && NoRing(t, bot, engine) {
      var order := OrderTheRest(t, bot, engine, [], set g | g in engine);
      SucceedsExactlyInSafeOrder(t, bot, botNpub, order, now);
    }
  }

  // ----- Swaps and chains -----

  /** An engine in which two groups swapped names while the bot was away cannot be reconciled in any order, whatever other
      groups it has. */
  lemma SwappedNamesAlwaysFail(t: Tables, bot: string, botNpub: string, engine: seq<EngineGroup>, a: EngineGroup,
                               b: EngineGroup, now: int)
    requires WellFormed(t) && DistinctWires(engine) && a in engine && b in engine && a.wire != b.wire
    requires Holds(t.groups, GroupKey(bot, a.name), bot, b.wire) && Holds(t.groups, GroupKey(bot, b.name), bot, a.wire)
    ensures !SomeOrderSucceeds(t, bot, botNpub, engine, now) && Reconciled(t, bot, botNpub, engine, now).1.Err?
  {
    assert Ring(t, bot, engine, [a, b]);
    SomeOrderSucceedsExactlyWithoutRing(t, bot, botNpub, engine, now);
  }

  /** A group that comes before the one whose old name it takes fails: a chain of renames succeeds from its free end only. */
  lemma ChainFromTheWrongEndFails(t: Tables, bot: string, botNpub: string, engine: seq<EngineGroup>, i: nat, j: nat, now: int)
    requires WellFormed(t) && DistinctWires(engine) && i < j < |engine| && WaitsFor(t, bot, engine[i], engine[j])
    ensures Reconciled(t, bot, botNpub, engine, now).1.Err?
  {
    SucceedsExactlyInSafeOrder(t, bot, botNpub, engine, now);
    if SafeOrder(t, bot, engine) {
      WaitsComesAfter(t, bot, engine, i, j);
    }
  }
}

/** Every step of creates and invites keeps what they rely on. */
module GroupSteps {
  import opened Wrappers
  import opened GroupTables
  import opened GroupProtocol

  lemma QueueStays(s: State, s': State)
    requires QueueOk(s) && QueueUntouched(s, s')
    ensures QueueOk(s')
  {
    forall i | 0 <= i < |s'.queue|
      ensures CommandOk(s', s'.queue[i])
    {
      assert CommandOk(s, s.queue[i]);
    }
    forall q | q in s'.requests && s'.requests[q].phase.ISent?
      ensures exists i :: SentAt(s', q, i)
    {
      var i :| SentAt(s, q, i);
      assert SentAt(s', q, i);
    }
  }

  lemma QuietRows(s: State, s': State, pid: nat)
    requires NoOrphans(s.tables) && RowsOk(s) && Quiet(s, s', pid)
    requires InFlight(PhaseOf(s, pid)) && !InFlight(PhaseOf(s', pid)) && RowOf(s.requests[pid]) in s.tables.members ==>
               RowOk(s', RowOf(s.requests[pid]))
    ensures RowsOk(s')
  {
    forall m | m in s'.tables.members
      ensures RowOk(s', m)
    {
      assert RowOk(s, m);
    }
  }

  lemma QuietKeeps(shard: GroupKey -> nat, s: State, s': State, pid: nat)
    requires Inv(shard, s) && Quiet(s, s', pid) && LocksHeld(shard, s')
    requires CommandMayOutlive(PhaseOf(s, pid), PhaseOf(s', pid))
    requires PhaseOf(s', pid).ISent? ==> PhaseOf(s, pid) == PhaseOf(s', pid)
    requires InFlight(PhaseOf(s, pid)) && !InFlight(PhaseOf(s', pid)) ==> RowOk(s', RowOf(s.requests[pid]))
    requires InviteOk(s, pid, s'.requests[pid]) && CreateOk(s, pid, s'.requests[pid])
    requires forall job :: job in s'.lateSaves ==> job in s.lateSaves || Unsaved(s, job.group.bot, job.wire, job.npub)
    ensures Inv(shard, s')
  {
    assert InviteOk(s, pid, s.requests[pid]);
    QueueStays(s, s');
    QuietRows(s, s', pid);
    forall q | q in s'.requests
      ensures InviteOk(s', q, s'.requests[q]) && CreateOk(s', q, s'.requests[q])
    {
      assert InviteOk(s, q, s'.requests[q]) && CreateOk(s, q, s'.requests[q]);
    }
  }

  lemma LockTaken(shard: GroupKey -> nat, s: State, s': State, pid: nat)
    requires LocksHeld(shard, s) && Quiet(s, s', pid) && shard(s.requests[pid].group) !in s.locks
    requires s'.locks == s.locks[shard(s.requests[pid].group) := pid]
    ensures LocksHeld(shard, s')
  {
  }

  lemma LockGiven(shard: GroupKey -> nat, s: State, s': State, pid: nat)
    requires LocksHeld(shard, s) && pid in s.requests && HoldsLock(PhaseOf(s, pid))
    requires s'.requests.Keys == s.requests.Keys && forall q :: q in s.requests && q != pid ==> s'.requests[q] == s.requests[q]
    requires s'.locks == s.locks - {shard(s.requests[pid].group)} && !HoldsLock(s'.requests[pid].phase)
    ensures LocksHeld(shard, s')
  {
  }

  /** A request that takes the lock and relies on nothing it could not rely on before. */
  lemma AcquireInto(shard: GroupKey -> nat, s: State, pid: nat, p: Phase)
    requires Inv(shard, s) && At(s, pid) && shard(s.requests[pid].group) !in s.locks
    requires CommandMayOutlive(PhaseOf(s, pid), p) && !p.ISent? && InFlight(p) == InFlight(PhaseOf(s, pid))
    requires InviteOk(s, pid, s.requests[pid].(phase := p)) && CreateOk(s, pid, s.requests[pid].(phase := p))
    ensures Inv(shard, Moved(s, pid, p).(locks := s.locks[shard(s.requests[pid].group) := pid]))
  {
    var s' := Moved(s, pid, p).(locks := s.locks[shard(s.requests[pid].group) := pid]);
    LockTaken(shard, s, s', pid);
    QuietKeeps(shard, s, s', pid);
  }

  lemma LockedReliesOnNoMore(s: State, pid: nat)
    requires At(s, pid) && InviteOk(s, pid, s.requests[pid]) && CreateOk(s, pid, s.requests[pid])
    requires var p := PhaseOf(s, pid); p.CStart? || p.CCreated? || p.IStart? || p.IFailed?
    ensures var p := Locked(PhaseOf(s, pid));
            && CommandMayOutlive(PhaseOf(s, pid), p) && !p.ISent? && InFlight(p) == InFlight(PhaseOf(s, pid))
            && InviteOk(s, pid, s.requests[pid].(phase := p)) && CreateOk(s, pid, s.requests[pid].(phase := p))
  {
  }

  lemma AcquireKeeps(shard: GroupKey -> nat, s: State, pid: nat)
    requires Inv(shard, s) && At(s, pid) && shard(s.requests[pid].group) !in s.locks
    requires var p := PhaseOf(s, pid); p.CStart? || p.CCreated? || p.IStart? || p.IFailed?
    ensures Inv(shard, AcquireDone(shard, s, pid))
  {
    LockedReliesOnNoMore(s, pid);
    AcquireInto(shard, s, pid, Locked(PhaseOf(s, pid)));
  }

  lemma CheckGroupKeeps(shard: GroupKey -> nat, s: State, pid: nat)
    requires Inv(shard, s) && At(s, pid) && PhaseOf(s, pid).CChecking?
    ensures Inv(shard, CheckGroupDone(shard, s, pid))
  {
    var s' := CheckGroupDone(shard, s, pid);
    LockGiven(shard, s, s', pid);
    QuietKeeps(shard, s, s', pid);
  }

  lemma GiveUpKeeps(shard: GroupKey -> nat, s: State, pid: nat)
    requires Inv(shard, s) && At(s, pid) && (PhaseOf(s, pid).CChecked? || PhaseOf(s, pid).CCreated?)
    ensures Inv(shard, Moved(s, pid, CDone(None)))
  {
    QuietKeeps(shard, s, Moved(s, pid, CDone(None)), pid);
  }

  lemma SaveTimesOutKeeps(shard: GroupKey -> nat, s: State, pid: nat)
    requires Inv(shard, s) && At(s, pid) && PhaseOf(s, pid).CSaving?
    ensures Inv(shard, SaveTimesOutDone(shard, s, pid))
  {
    var s' := SaveTimesOutDone(shard, s, pid);
    assert CreateOk(s, pid, s.requests[pid]);
    LockGiven(shard, s, s', pid);
    QuietKeeps(shard, s, s', pid);
  }

  /** A request that is through lets go of the lock; nothing relies on it any more. */
  lemma EndKeeps(shard: GroupKey -> nat, s: State, pid: nat, ok: bool)
    requires Inv(shard, s) && At(s, pid) && (PhaseOf(s, pid).ILocked? || PhaseOf(s, pid).ILoaded? || PhaseOf(s, pid).IFree?)
    ensures Inv(shard, Moved(Released(shard, s, pid), pid, IDone(ok)))
  {
    var s' := Moved(Released(shard, s, pid), pid, IDone(ok));
    LockGiven(shard, s, s', pid);
    QuietKeeps(shard, s, s', pid);
  }

  /** A request that keeps the lock goes on, knowing its group's row. */
  lemma LockedOnKeeps(shard: GroupKey -> nat, s: State, pid: nat, p: Phase)
    requires Inv(shard, s) && At(s, pid) && (PhaseOf(s, pid).ILocked? || PhaseOf(s, pid).ILoaded?)
    requires p.ILoaded? || p.IFree?
    requires InviteOk(s, pid, s.requests[pid].(phase := p))
    ensures Inv(shard, Moved(s, pid, p))
  {
    QuietKeeps(shard, s, Moved(s, pid, p), pid);
  }

  lemma LoadKeeps(shard: GroupKey -> nat, s: State, pid: nat)
    requires Inv(shard, s) && At(s, pid) && PhaseOf(s, pid).ILocked?
    ensures Inv(shard, LoadDone(shard, s, pid))
  {
    var group := s.requests[pid].group;
    if group in s.tables.groups {
      LockedOnKeeps(shard, s, pid, ILoaded(s.tables.groups[group].wire));
    } else {
      EndKeeps(shard, s, pid, false);
    }
  }

  lemma CheckInvitedKeeps(shard: GroupKey -> nat, s: State, pid: nat)
    requires Inv(shard, s) && At(s, pid) && PhaseOf(s, pid).ILoaded?
    ensures Inv(shard, CheckInvitedDone(shard, s, pid))
  {
    var r := s.requests[pid];
    assert InviteOk(s, pid, r);
    if RowOf(r) in s.tables.members {
      EndKeeps(shard, s, pid, true);
    } else {
      LockedOnKeeps(shard, s, pid, IFree(r.phase.wire));
    }
  }

  lemma TimeOutKeeps(shard: GroupKey -> nat, s: State, pid: nat)
    requires Inv(shard, s) && At(s, pid)
    requires PhaseOf(s, pid).IInserted? || PhaseOf(s, pid).ISent? || PhaseOf(s, pid).IAnswered?
    ensures Inv(shard, Moved(s, pid, IFailed(PhaseOf(s, pid).wire)))
  {
    assert InviteOk(s, pid, s.requests[pid]);
    QuietKeeps(shard, s, Moved(s, pid, IFailed(PhaseOf(s, pid).wire)), pid);
  }

  /** An invite ends well only when the engine has the member for good. */
  lemma SettleKeeps(shard: GroupKey -> nat, s: State, pid: nat, ok: bool)
    requires Inv(shard, s) && At(s, pid) && PhaseOf(s, pid).IAnswered?
    ensures Inv(shard, SettleDone(s, pid, ok))
  {
    assert InviteOk(s, pid, s.requests[pid]);
    QuietKeeps(shard, s, SettleDone(s, pid, ok), pid);
  }

  lemma SpawnKeeps(shard: GroupKey -> nat, s: State, pid: nat, r: Request)
    requires Inv(shard, s) && pid !in s.requests && (r.phase == CStart || r.phase == IStart)
    ensures Inv(shard, s.(requests := s.requests[pid := r]))
  {
    var s' := s.(requests := s.requests[pid := r]);
    forall q | q in s'.requests
      ensures InviteOk(s', q, s'.requests[q]) && CreateOk(s', q, s'.requests[q])
    {
      assert q != pid ==> InviteOk(s, q, s.requests[q]) && CreateOk(s, q, s.requests[q]);
    }
    QueueStays(s, s');
    forall m | m in s'.tables.members
      ensures RowOk(s', m)
    {
      assert RowOk(s, m);
    }
  }

  /** A new engine group takes nothing from the others. */
  lemma NewEngineGroupKeeps(shard: GroupKey -> nat, s: State, g: EngineKey, members: set<string>)
    requires Inv(shard, s) && g !in s.engine
    ensures Inv(shard, s.(engine := s.engine[g := members]))
  {
    var s' := s.(engine := s.engine[g := members]);
    forall q | q in s'.requests
      ensures InviteOk(s', q, s'.requests[q]) && CreateOk(s', q, s'.requests[q])
    {
      assert InviteOk(s, q, s.requests[q]) && CreateOk(s, q, s.requests[q]);
    }
    QueueStays(s, s');
    forall m | m in s'.tables.members
      ensures RowOk(s', m)
    {
      assert RowOk(s, m);
    }
  }

  lemma EngineCreateKeeps(shard: GroupKey -> nat, s: State, pid: nat, wire: string, members: set<string>)
    requires Inv(shard, s) && At(s, pid) && PhaseOf(s, pid).CChecked?
    requires EngineKey(s.requests[pid].group.bot, wire) !in s.engine && s.requests[pid].npub in members
    ensures Inv(shard, EngineCreateDone(s, pid, wire, members))
  {
    var g := EngineKey(s.requests[pid].group.bot, wire);
    var s1 := s.(engine := s.engine[g := members]);
    NewEngineGroupKeeps(shard, s, g, members);
    QuietKeeps(shard, s1, EngineCreateDone(s, pid, wire, members), pid);
  }

  lemma SendQueue(shard: GroupKey -> nat, s: State, pid: nat)
    requires Inv(shard, s) && At(s, pid) && PhaseOf(s, pid).IInserted?
    ensures QueueOk(SendDone(s, pid))
  {
    var s' := SendDone(s, pid);
    var r := s.requests[pid];
    var c := Command(pid, r.group.bot, r.phase.wire, r.npub);
    var n := |s.queue|;
    assert InviteOk(s, pid, r);
    forall i | 0 <= i < n
      ensures s.queue[i].pid != pid && CommandOk(s', s.queue[i])
    {
      assert CommandOk(s, s.queue[i]);
    }
    assert CommandOk(s', c);
    assert SentAt(s', pid, n);
    forall q | q in s'.requests && s'.requests[q].phase.ISent? && q != pid
      ensures exists i :: SentAt(s', q, i)
    {
      var i :| SentAt(s, q, i);
      NotTheSameTarget(shard, s, pid, q, c);
      assert SentAt(s', q, i);
    }
  }

  lemma SendKeeps(shard: GroupKey -> nat, s: State, pid: nat)
    requires Inv(shard, s) && At(s, pid) && PhaseOf(s, pid).IInserted?
    ensures Inv(shard, SendDone(s, pid))
  {
    var s' := SendDone(s, pid);
    var r := s.requests[pid];
    var c := Command(pid, r.group.bot, r.phase.wire, r.npub);
    SendQueue(shard, s, pid);
    forall q | q in s'.requests
      ensures InviteOk(s', q, s'.requests[q]) && CreateOk(s', q, s'.requests[q])
    {
      assert InviteOk(s, q, s.requests[q]) && CreateOk(s, q, s.requests[q]);
      if q != pid && InFlight(s.requests[q].phase) {
        NotTheSameTarget(shard, s, pid, q, c);
      }
    }
    forall m | m in s'.tables.members
      ensures RowOk(s', m)
    {
      assert RowOk(s, m) && InviteOk(s, pid, r);
      SendRow(s, pid, m);
    }
  }

  /** The new command is for the sender's own row, which is in flight. */
  lemma SendRow(s: State, pid: nat, m: MemberKey)
    requires WellFormed(s.tables) && At(s, pid) && PhaseOf(s, pid).IInserted? && InviteOk(s, pid, s.requests[pid])
    requires m in s.tables.members && RowOk(s, m)
    ensures RowOk(SendDone(s, pid), m)
  {
    var r := s.requests[pid];
    var c := Command(pid, r.group.bot, r.phase.wire, r.npub);
    if Targets(c, m.bot, s.tables.groups[GroupKey(m.bot, m.name)].wire, m.npub) {
      SameWireSameName(s, GroupKey(m.bot, m.name), r.group);
    }
  }

  lemma SameWireSameName(s: State, j: GroupKey, k: GroupKey)
    requires WellFormed(s.tables) && j in s.tables.groups && k in s.tables.groups
    requires j.bot == k.bot && s.tables.groups[j].wire == s.tables.groups[k].wire
    ensures j == k
  {
  }

  /** Two requests in flight never target the same member of the same group. */
  lemma NotTheSameTarget(shard: GroupKey -> nat, s: State, p: nat, q: nat, c: Command)
    requires Inv(shard, s) && p in s.requests && q in s.requests && p != q
    requires InFlight(PhaseOf(s, p)) && InFlight(PhaseOf(s, q))
    requires Targets(c, s.requests[p].group.bot, PhaseOf(s, p).wire, s.requests[p].npub)
    ensures !Targets(c, s.requests[q].group.bot, PhaseOf(s, q).wire, s.requests[q].npub)
  {
    var a, b := s.requests[p], s.requests[q];
    assert InviteOk(s, p, a) && InviteOk(s, q, b);
    if a.group.bot == b.group.bot && a.phase.wire == b.phase.wire {
      SameWireSameName(s, a.group, b.group);
    }
  }

  lemma OneHolderPerGroup(shard: GroupKey -> nat, s: State, p: nat, q: nat)
    requires LocksHeld(shard, s) && p in s.requests && q in s.requests
    requires HoldsLock(PhaseOf(s, p)) && HoldsLock(PhaseOf(s, q)) && s.requests[p].group == s.requests[q].group
    ensures p == q
  {
  }

  lemma InsertRowRequests(shard: GroupKey -> nat, s: State, pid: nat)
    requires LocksHeld(shard, s) && RequestsOk(s) && At(s, pid) && PhaseOf(s, pid).IFree?
    ensures RequestsOk(InsertRowDone(shard, s, pid))
  {
    var s' := InsertRowDone(shard, s, pid);
    var r := s.requests[pid];
    assert InviteOk(s, pid, r);
    forall q | q in s'.requests
      ensures InviteOk(s', q, s'.requests[q]) && CreateOk(s', q, s'.requests[q])
    {
      assert InviteOk(s, q, s.requests[q]) && CreateOk(s, q, s.requests[q]);
      if s.requests[q].phase.IFree? && RowOf(s.requests[q]) == RowOf(r) {
        OneHolderPerGroup(shard, s, pid, q);
      }
    }
  }

  lemma InsertRowRows(shard: GroupKey -> nat, s: State, pid: nat)
    requires NoOrphans(s.tables) && RowsOk(s) && At(s, pid) && PhaseOf(s, pid).IFree? && s.requests[pid].group in s.tables.groups
    requires RowOf(s.requests[pid]) !in s.tables.members
    ensures NoOrphans(InsertRowDone(shard, s, pid).tables) && RowsOk(InsertRowDone(shard, s, pid))
  {
    var s' := InsertRowDone(shard, s, pid);
    forall m | m in s'.tables.members
      ensures RowOk(s', m)
    {
      assert m != RowOf(s.requests[pid]) ==> RowOk(s, m);
    }
  }

  lemma InsertRowKeeps(shard: GroupKey -> nat, s: State, pid: nat)
    requires Inv(shard, s) && At(s, pid) && PhaseOf(s, pid).IFree?
    ensures Inv(shard, InsertRowDone(shard, s, pid))
  {
    var s' := InsertRowDone(shard, s, pid);
    assert InviteOk(s, pid, s.requests[pid]);
    InsertRowRequests(shard, s, pid);
    InsertRowRows(shard, s, pid);
    LockGiven(shard, s, s', pid);
    QueueStays(s, s');
  }

  lemma UndoRequests(shard: GroupKey -> nat, s: State, pid: nat)
    requires RequestsOk(s) && At(s, pid) && PhaseOf(s, pid).IUndoing?
    ensures RequestsOk(UndoDone(shard, s, pid))
  {
    var s' := UndoDone(shard, s, pid);
    assert InviteOk(s, pid, s.requests[pid]);
    forall q | q in s'.requests
      ensures InviteOk(s', q, s'.requests[q]) && CreateOk(s', q, s'.requests[q])
    {
      assert InviteOk(s, q, s.requests[q]) && CreateOk(s, q, s.requests[q]);
    }
  }

  lemma UndoRows(shard: GroupKey -> nat, s: State, pid: nat)
    requires NoOrphans(s.tables) && RowsOk(s) && At(s, pid) && PhaseOf(s, pid).IUndoing?
    ensures NoOrphans(UndoDone(shard, s, pid).tables) && RowsOk(UndoDone(shard, s, pid))
  {
    var s' := UndoDone(shard, s, pid);
    forall m | m in s'.tables.members
      ensures RowOk(s', m)
    {
      assert RowOk(s, m);
    }
  }

  /** Only the row the same request inserted goes. */
  lemma UndoKeeps(shard: GroupKey -> nat, s: State, pid: nat)
    requires Inv(shard, s) && At(s, pid) && PhaseOf(s, pid).IUndoing?
    ensures Inv(shard, UndoDone(shard, s, pid))
  {
    var s' := UndoDone(shard, s, pid);
    LockGiven(shard, s, s', pid);
    UndoRequests(shard, s, pid);
    UndoRows(shard, s, pid);
    QueueStays(s, s');
  }

  // ----- Saving a created group -----

  lemma SavedTables(s: State, pid: nat, group: GroupKey, npub: string, wire: string)
    requires WellFormed(s.tables) && Saved(s, pid, group, npub, wire).1
    ensures var s' := Saved(s, pid, group, npub, wire).0;
            && WellFormed(s'.tables)
            && group !in s.tables.groups && !HasWire(s.tables.groups, group.bot, wire)
            && s'.tables.groups == s.tables.groups[group := NewRow(wire)]
            && s'.tables.members == s.tables.members + {MemberKey(group.bot, group.name, npub)}
            && MemberKey(group.bot, group.name, npub) !in s.tables.members
            && (forall b, w :: HasWire(s.tables.groups, b, w) ==> HasWire(s'.tables.groups, b, w))
  {
    var s' := Saved(s, pid, group, npub, wire).0;
    InsertKeeps(s.tables, group, NewRow(wire), [npub]);
    assert MemberKeys(group.bot, group.name, [npub]) == {MemberKey(group.bot, group.name, npub)} by {
      assert [npub][0] == npub;
    }
    assert forall k, b, w :: Holds(s.tables.groups, k, b, w) ==> Holds(s'.tables.groups, k, b, w);
  }

  lemma SavedQueue(s: State, pid: nat, group: GroupKey, npub: string, wire: string)
    requires WellFormed(s.tables) && QueueOk(s) && Saved(s, pid, group, npub, wire).1
    ensures QueueOk(Saved(s, pid, group, npub, wire).0)
    ensures NoCommandFor(s, group.bot, wire, npub)
  {
    var s' := Saved(s, pid, group, npub, wire).0;
    SavedTables(s, pid, group, npub, wire);
    forall i | 0 <= i < |s.queue|
      ensures CommandOk(s', s.queue[i]) && !Targets(s.queue[i], group.bot, wire, npub)
    {
      var c := s.queue[i];
      assert CommandOk(s, c);
      assert Holds(s.tables.groups, s.requests[c.pid].group, c.bot, c.wire);
    }
    forall q | q in s'.requests && s'.requests[q].phase.ISent?
      ensures exists i :: SentAt(s', q, i)
    {
      var i :| SentAt(s, q, i);
      assert SentAt(s', q, i);
    }
  }

  lemma SavedRequests(s: State, pid: nat, group: GroupKey, npub: string, wire: string)
    requires WellFormed(s.tables) && RequestsOk(s) && LateSavesOk(s) && Saved(s, pid, group, npub, wire).1
    ensures RequestsOk(Saved(s, pid, group, npub, wire).0) && LateSavesOk(Saved(s, pid, group, npub, wire).0)
  {
    var s' := Saved(s, pid, group, npub, wire).0;
    SavedTables(s, pid, group, npub, wire);
    forall q | q in s'.requests
      ensures InviteOk(s', q, s'.requests[q]) && CreateOk(s', q, s'.requests[q])
    {
      assert InviteOk(s, q, s.requests[q]) && CreateOk(s, q, s.requests[q]);
    }
  }

  lemma SavedKeeps(shard: GroupKey -> nat, s: State, pid: nat, group: GroupKey, npub: string, wire: string)
    requires Inv(shard, s) && Unsaved(s, group.bot, wire, npub)
    ensures var (s', ok) := Saved(s, pid, group, npub, wire);
            && Inv(shard, s')
            && (ok ==> GroupKnown(s', group, wire) && group in s'.groupBy && s'.groupBy[group] == pid)
  {
    var (s', ok) := Saved(s, pid, group, npub, wire);
    if ok {
      SavedTables(s, pid, group, npub, wire);
      SavedQueue(s, pid, group, npub, wire);
      SavedRequests(s, pid, group, npub, wire);
      forall m | m in s'.tables.members
        ensures RowOk(s', m)
      {
        if m in s.tables.members {
          assert RowOk(s, m);
        }
      }
    }
  }

  lemma SaveKeeps(shard: GroupKey -> nat, s: State, pid: nat)
    requires Inv(shard, s) && At(s, pid) && PhaseOf(s, pid).CSaving?
    ensures Inv(shard, SaveDone(shard, s, pid))
  {
    var r := s.requests[pid];
    assert CreateOk(s, pid, r);
    SavedKeeps(shard, s, pid, r.group, r.npub, r.phase.wire);
    var s1 := Saved(s, pid, r.group, r.npub, r.phase.wire).0;
    LockGiven(shard, s1, SaveDone(shard, s, pid), pid);
    QuietKeeps(shard, s1, SaveDone(shard, s, pid), pid);
  }

  lemma LateSaveKeeps(shard: GroupKey -> nat, s: State, job: LateSave)
    requires Inv(shard, s) && job in s.lateSaves
    ensures Inv(shard, LateSaveDone(s, job))
  {
    SavedKeeps(shard, s, job.pid, job.group, job.npub, job.wire);
    FewerLateSaves(shard, Saved(s, job.pid, job.group, job.npub, job.wire).0, job);
  }

  lemma FewerLateSaves(shard: GroupKey -> nat, s: State, job: LateSave)
    requires Inv(shard, s)
    ensures Inv(shard, s.(lateSaves := s.lateSaves - {job}))
  {
    var s' := s.(lateSaves := s.lateSaves - {job});
    QueueStays(s, s');
    forall q | q in s'.requests
      ensures InviteOk(s', q, s'.requests[q]) && CreateOk(s', q, s'.requests[q])
    {
      assert InviteOk(s, q, s.requests[q]) && CreateOk(s, q, s.requests[q]);
    }
    forall m | m in s'.tables.members
      ensures RowOk(s', m)
    {
      assert RowOk(s, m);
    }
  }

  // ----- The worker -----

  /** Commands left after the one at `i` ran: those before it and those after it. */
  lemma LeftInQueue(q: seq<Command>, i: nat)
    requires i < |q|
    ensures var q' := q[..i] + q[i + 1..];
            && |q'| == |q| - 1
            && (forall j :: 0 <= j < i ==> q'[j] == q[j])
            && (forall j :: i <= j < |q'| ==> q'[j] == q[j + 1])
  {
  }

  /** When a request's command runs, it is the last one left for its member. */
  lemma NothingLeftFor(s: State, i: nat, outcome: Outcome, members: set<string>)
    requires QueueOk(s) && MayRun(s, i, outcome, members)
    requires s.queue[i].pid in s.requests && PhaseOf(s, s.queue[i].pid).ISent?
    ensures var c := s.queue[i];
            NoCommandFor(WorkDone(s, i, outcome, members), c.bot, c.wire, c.npub)
  {
    var c := s.queue[i];
    var s' := WorkDone(s, i, outcome, members);
    var k :| SentAt(s, c.pid, k);
    assert CommandOk(s, c);
    assert k == i;
    LeftInQueue(s.queue, i);
    forall j | 0 <= j < |s'.queue|
      ensures !Targets(s'.queue[j], c.bot, c.wire, c.npub)
    {
      assert s'.queue[j] == if j < i then s.queue[j] else s.queue[j + 1];
    }
  }

  lemma CommandStaysOk(s: State, s': State, c: Command, outcome: Outcome, other: Command)
    requires s'.tables == s.tables && s'.requests == WithAnswer(s.requests, c, outcome)
    requires CommandOk(s, other) && other.pid != c.pid
    ensures CommandOk(s', other)
  {
  }

  lemma WorkCommands(s: State, i: nat, outcome: Outcome, members: set<string>, j: nat)
    requires QueueOk(s) && MayRun(s, i, outcome, members) && j < |s.queue| - 1
    ensures CommandOk(WorkDone(s, i, outcome, members), WorkDone(s, i, outcome, members).queue[j])
  {
    var k := if j < i then j else j + 1;
    LeftInQueue(s.queue, i);
    assert CommandOk(s, s.queue[k]) && s.queue[k].pid != s.queue[i].pid;
    CommandStaysOk(s, WorkDone(s, i, outcome, members), s.queue[i], outcome, s.queue[k]);
  }

  lemma TailShifts(q: seq<Command>, i: nat, k: nat, bot: string, wire: string, npub: string)
    requires i < |q| && k < |q| && k != i
    requires forall j :: k < j < |q| ==> !Targets(q[j], bot, wire, npub)
    ensures var q', k' := q[..i] + q[i + 1..], if k < i then k else k - 1;
            && k' < |q'| && q'[k'] == q[k]
            && forall j :: k' < j < |q'| ==> !Targets(q'[j], bot, wire, npub)
  {
  }

  lemma StillSent(s: State, i: nat, outcome: Outcome, members: set<string>, q: nat)
    requires i < |s.queue|
    requires var s' := WorkDone(s, i, outcome, members); At(s', q) && PhaseOf(s', q).ISent?
    ensures At(s, q) && WorkDone(s, i, outcome, members).requests[q] == s.requests[q] && q != s.queue[i].pid
  {
  }

  lemma WorkSent(s: State, i: nat, outcome: Outcome, members: set<string>, q: nat)
    requires QueueOk(s) && MayRun(s, i, outcome, members)
    requires var s' := WorkDone(s, i, outcome, members); At(s', q) && PhaseOf(s', q).ISent?
    ensures exists j :: SentAt(WorkDone(s, i, outcome, members), q, j)
  {
    StillSent(s, i, outcome, members, q);
    var r := s.requests[q];
    var k: nat :| SentAt(s, q, k);
    TailShifts(s.queue, i, k, r.group.bot, r.phase.wire, r.npub);
    assert SentAt(WorkDone(s, i, outcome, members), q, if k < i then k else k - 1);
  }

  lemma WorkQueue(s: State, i: nat, outcome: Outcome, members: set<string>)
    requires QueueOk(s) && MayRun(s, i, outcome, members)
    ensures QueueOk(WorkDone(s, i, outcome, members))
  {
    var s' := WorkDone(s, i, outcome, members);
    LeftInQueue(s.queue, i);
    forall j | 0 <= j < |s'.queue|
      ensures CommandOk(s', s'.queue[j])
    {
      WorkCommands(s, i, outcome, members, j);
    }
    forall j, k | 0 <= j < k < |s'.queue|
      ensures s'.queue[j].pid != s'.queue[k].pid
    {
      assert s'.queue[j] == if j < i then s.queue[j] else s.queue[j + 1];
      assert s'.queue[k] == if k < i then s.queue[k] else s.queue[k + 1];
    }
    forall q | q in s'.requests && s'.requests[q].phase.ISent?
      ensures exists j :: SentAt(s', q, j)
    {
      WorkSent(s, i, outcome, members, q);
    }
  }

  /** A command touches one member of one group; whoever else relies on the engine is not affected. */
  lemma WorkKeepsOthers(s: State, i: nat, outcome: Outcome, members: set<string>, bot: string, wire: string, npub: string)
    requires MayRun(s, i, outcome, members) && !Targets(s.queue[i], bot, wire, npub)
    requires NoCommandFor(s, bot, wire, npub)
    ensures NoCommandFor(WorkDone(s, i, outcome, members), bot, wire, npub)
    ensures EngineHolds(s, bot, wire, npub) ==> EngineHolds(WorkDone(s, i, outcome, members), bot, wire, npub)
  {
    var s' := WorkDone(s, i, outcome, members);
    LeftInQueue(s.queue, i);
    forall j | 0 <= j < |s'.queue|
      ensures !Targets(s'.queue[j], bot, wire, npub)
    {
      assert s'.queue[j] == if j < i then s.queue[j] else s.queue[j + 1];
    }
    var c := s.queue[i];
    if EngineHolds(s, bot, wire, npub) && EngineKey(bot, wire) == EngineKey(c.bot, c.wire) {
      assert npub in members - {c.npub};
    }
  }

  lemma WorkUnsaved(s: State, i: nat, outcome: Outcome, members: set<string>, bot: string, wire: string, npub: string)
    requires QueueOk(s) && MayRun(s, i, outcome, members) && Unsaved(s, bot, wire, npub)
    ensures Unsaved(WorkDone(s, i, outcome, members), bot, wire, npub)
  {
    var c := s.queue[i];
    assert CommandOk(s, c);
    assert Holds(s.tables.groups, s.requests[c.pid].group, c.bot, c.wire);
  }

  /** The request whose command ran gets its answer. */
  lemma WorkAnswered(s: State, i: nat, outcome: Outcome, members: set<string>)
    requires RequestsOk(s) && QueueOk(s) && MayRun(s, i, outcome, members)
    requires At(s, s.queue[i].pid) && PhaseOf(s, s.queue[i].pid).ISent?
    ensures var s', q := WorkDone(s, i, outcome, members), s.queue[i].pid;
            At(s', q) && InviteOk(s', q, s'.requests[q]) && CreateOk(s', q, s'.requests[q])
  {
    var c := s.queue[i];
    assert InviteOk(s, c.pid, s.requests[c.pid]);
    assert CommandOk(s, c);
    NothingLeftFor(s, i, outcome, members);
  }

  /** Whatever another request may rely on survives. */
  lemma WorkOther(s: State, i: nat, outcome: Outcome, members: set<string>, q: nat)
    requires RequestsOk(s) && QueueOk(s) && MayRun(s, i, outcome, members) && At(s, q)
    requires !(q == s.queue[i].pid && PhaseOf(s, q).ISent?)
    ensures InviteOk(WorkDone(s, i, outcome, members), q, s.requests[q])
    ensures CreateOk(WorkDone(s, i, outcome, members), q, s.requests[q])
  {
    var r := s.requests[q];
    assert InviteOk(s, q, r) && CreateOk(s, q, r);
    if r.phase.CCreated? || r.phase.CSaving? {
      WorkUnsaved(s, i, outcome, members, r.group.bot, r.phase.wire, r.npub);
    }
    if r.phase.IAnswered? {
      WorkKeepsOthers(s, i, outcome, members, r.group.bot, r.phase.wire, r.npub);
    }
  }

  lemma WorkBacked(s: State, i: nat, outcome: Outcome, members: set<string>, m: MemberKey, wire: string)
    requires QueueOk(s) && MayRun(s, i, outcome, members)
    requires EngineHolds(s, m.bot, wire, m.npub) && NoCommandFor(s, m.bot, wire, m.npub)
    ensures var s' := WorkDone(s, i, outcome, members);
            EngineHolds(s', m.bot, wire, m.npub) && NoCommandFor(s', m.bot, wire, m.npub)
  {
    WorkKeepsOthers(s, i, outcome, members, m.bot, wire, m.npub);
  }

  /** A row whose request was in flight is still that request's. */
  lemma WorkKeepsFlying(s: State, s': State, c: Command, outcome: Outcome, m: MemberKey)
    requires m in s.memberBy && s.memberBy[m] in s.requests && s'.memberBy == s.memberBy
    requires InFlight(s.requests[s.memberBy[m]].phase) && RowOf(s.requests[s.memberBy[m]]) == m
    requires s'.requests == WithAnswer(s.requests, c, outcome)
    ensures s.memberBy[m] in s'.requests && InFlight(s'.requests[s.memberBy[m]].phase)
    ensures RowOf(s'.requests[s.memberBy[m]]) == m
  {
  }

  lemma WorkRows(s: State, i: nat, outcome: Outcome, members: set<string>, m: MemberKey)
    requires WellFormed(s.tables) && QueueOk(s) && MayRun(s, i, outcome, members)
    requires m in s.tables.members && RowOk(s, m)
    ensures RowOk(WorkDone(s, i, outcome, members), m)
  {
    var wire := s.tables.groups[GroupKey(m.bot, m.name)].wire;
    if EngineHolds(s, m.bot, wire, m.npub) && NoCommandFor(s, m.bot, wire, m.npub) {
      WorkBacked(s, i, outcome, members, m, wire);
    } else if m !in s.leftover {
      WorkKeepsFlying(s, WorkDone(s, i, outcome, members), s.queue[i], outcome, m);
    }
  }

  lemma WorkLocks(shard: GroupKey -> nat, s: State, i: nat, outcome: Outcome, members: set<string>)
    requires LocksHeld(shard, s) && i < |s.queue|
    ensures LocksHeld(shard, WorkDone(s, i, outcome, members))
  {
  }

  lemma WorkKeeps(shard: GroupKey -> nat, s: State, i: nat, outcome: Outcome, members: set<string>)
    requires Inv(shard, s) && MayRun(s, i, outcome, members)
    ensures Inv(shard, WorkDone(s, i, outcome, members))
  {
    var s' := WorkDone(s, i, outcome, members);
    WorkLocks(shard, s, i, outcome, members);
    WorkQueue(s, i, outcome, members);
    forall q | q in s'.requests
      ensures InviteOk(s', q, s'.requests[q]) && CreateOk(s', q, s'.requests[q])
    {
      if q == s.queue[i].pid && PhaseOf(s, q).ISent? {
        WorkAnswered(s, i, outcome, members);
      } else {
        WorkOther(s, i, outcome, members, q);
      }
    }
    forall job | job in s'.lateSaves
      ensures Unsaved(s', job.group.bot, job.wire, job.npub)
    {
      WorkUnsaved(s, i, outcome, members, job.group.bot, job.wire, job.npub);
    }
    forall m | m in s'.tables.members
      ensures RowOk(s', m)
    {
      WorkRows(s, i, outcome, members, m);
    }
  }

  // ----- Every step -----

  lemma StepKeeps(shard: GroupKey -> nat, s: State, a: Action)
    requires Inv(shard, s) && Enabled(shard, s, a)
    ensures Inv(shard, Do(shard, s, a))
  {
    match a
    case Spawn(pid, r) => SpawnKeeps(shard, s, pid, r);
    case Acquire(pid) => AcquireKeeps(shard, s, pid);
    case CheckGroup(pid) => CheckGroupKeeps(shard, s, pid);
    case EngineCreate(pid, wire, members) => EngineCreateKeeps(shard, s, pid, wire, members);
    case LateEngineCreate(bot, wire, members) => NewEngineGroupKeeps(shard, s, EngineKey(bot, wire), members);
    case GiveUp(pid) => GiveUpKeeps(shard, s, pid);
    case Save(pid) => SaveKeeps(shard, s, pid);
    case SaveTimesOut(pid) => SaveTimesOutKeeps(shard, s, pid);
    case RunLateSave(job) => LateSaveKeeps(shard, s, job);
    case Load(pid) => LoadKeeps(shard, s, pid);
    case CheckInvited(pid) => CheckInvitedKeeps(shard, s, pid);
    case InsertRow(pid) => InsertRowKeeps(shard, s, pid);
    case Send(pid) => SendKeeps(shard, s, pid);
    case Work(i, outcome, members) => WorkKeeps(shard, s, i, outcome, members);
    case Settle(pid, ok) => SettleKeeps(shard, s, pid, ok);
    case TimeOut(pid) => TimeOutKeeps(shard, s, pid);
    case Undo(pid) => UndoKeeps(shard, s, pid);
  }
}

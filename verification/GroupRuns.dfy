/** Creates and invites over every run. */
module GroupRuns {
  import opened Wrappers
  import opened GroupTables
  import opened GroupProtocol
  import opened GroupSteps

  lemma InitIsOk(shard: GroupKey -> nat, s: State)
    requires Init(s)
    ensures Inv(shard, s)
  {
    forall m | m in s.tables.members
      ensures RowOk(s, m)
    {
      var wire := s.tables.groups[GroupKey(m.bot, m.name)].wire;
      assert m in s.leftover || EngineHolds(s, m.bot, wire, m.npub);
      assert NoCommandFor(s, m.bot, wire, m.npub);
    }
  }

  lemma {:induction false} RunsKeepInv(shard: GroupKey -> nat, run: seq<State>, actions: seq<Action>, i: nat)
    requires IsRun(shard, run, actions) && i < |run|
    ensures Inv(shard, run[i])
  {
    if i == 0 {
      InitIsOk(shard, run[0]);
    } else {
      RunsKeepInv(shard, run, actions, i - 1);
      StepKeeps(shard, run[i - 1], actions[i - 1]);
    }
  }

  /** At most one invite per bot, group and recipient is between its insert and its outcome, and its row is there. */
  lemma OneInviteInFlight(shard: GroupKey -> nat, run: seq<State>, actions: seq<Action>, i: nat, p: nat, q: nat)
    requires IsRun(shard, run, actions) && i < |run|
    requires FlyingAt(run[i], p) && FlyingAt(run[i], q) && RowOf(run[i].requests[p]) == RowOf(run[i].requests[q])
    ensures p == q
    ensures RowOf(run[i].requests[p]) in run[i].tables.members
  {
    var s := run[i];
    RunsKeepInv(shard, run, actions, i);
    assert InviteOk(s, p, s.requests[p]) && InviteOk(s, q, s.requests[q]);
  }

  // What one step may change.

  lemma AcquireRequest(shard: GroupKey -> nat, s: State, pid: nat, q: nat)
    requires At(s, pid) && (PhaseOf(s, pid).CStart? || PhaseOf(s, pid).CCreated? || PhaseOf(s, pid).IStart? || PhaseOf(s, pid).IFailed?)
    ensures RequestFrame(s, AcquireDone(shard, s, pid), Acquire(pid), q)
  {
  }

  lemma SaveRequest(shard: GroupKey -> nat, s: State, pid: nat, q: nat)
    requires At(s, pid) && PhaseOf(s, pid).CSaving?
    ensures RequestFrame(s, SaveDone(shard, s, pid), Save(pid), q)
  {
  }

  lemma LateSaveRequest(s: State, job: LateSave, q: nat)
    ensures RequestFrame(s, LateSaveDone(s, job), RunLateSave(job), q)
  {
  }

  lemma LoadRequest(shard: GroupKey -> nat, s: State, pid: nat, q: nat)
    requires At(s, pid) && PhaseOf(s, pid).ILocked?
    ensures RequestFrame(s, LoadDone(shard, s, pid), Load(pid), q)
  {
  }

  lemma CheckInvitedRequest(shard: GroupKey -> nat, s: State, pid: nat, q: nat)
    requires At(s, pid) && PhaseOf(s, pid).ILoaded?
    ensures RequestFrame(s, CheckInvitedDone(shard, s, pid), CheckInvited(pid), q)
  {
  }

  lemma InsertRowRequest(shard: GroupKey -> nat, s: State, pid: nat, q: nat)
    requires At(s, pid) && PhaseOf(s, pid).IFree?
    ensures RequestFrame(s, InsertRowDone(shard, s, pid), InsertRow(pid), q)
  {
  }

  lemma WorkRequest(s: State, i: nat, outcome: Outcome, members: set<string>, q: nat)
    requires i < |s.queue|
    ensures RequestFrame(s, WorkDone(s, i, outcome, members), Work(i, outcome, members), q)
  {
  }

  lemma SettleRequest(s: State, pid: nat, ok: bool, q: nat)
    requires At(s, pid) && PhaseOf(s, pid).IAnswered?
    ensures RequestFrame(s, SettleDone(s, pid, ok), Settle(pid, ok), q)
  {
  }

  lemma CheckGroupRequest(shard: GroupKey -> nat, s: State, pid: nat, q: nat)
    requires At(s, pid) && PhaseOf(s, pid).CChecking?
    ensures RequestFrame(s, CheckGroupDone(shard, s, pid), CheckGroup(pid), q)
  {
  }

  lemma UndoRequest(shard: GroupKey -> nat, s: State, pid: nat, q: nat)
    requires At(s, pid) && PhaseOf(s, pid).IUndoing?
    ensures RequestFrame(s, UndoDone(shard, s, pid), Undo(pid), q)
  {
  }

  lemma StepRequest(shard: GroupKey -> nat, s: State, a: Action, q: nat)
    requires Enabled(shard, s, a)
    ensures RequestFrame(s, Do(shard, s, a), a, q)
  {
    match a
    case Acquire(pid) => AcquireRequest(shard, s, pid, q);
    case CheckGroup(pid) => CheckGroupRequest(shard, s, pid, q);
    case EngineCreate(pid, wire, members) =>
    case Save(pid) => SaveRequest(shard, s, pid, q);
    case SaveTimesOut(pid) =>
    case RunLateSave(job) => LateSaveRequest(s, job, q);
    case Load(pid) => LoadRequest(shard, s, pid, q);
    case CheckInvited(pid) => CheckInvitedRequest(shard, s, pid, q);
    case InsertRow(pid) => InsertRowRequest(shard, s, pid, q);
    case Send(pid) =>
    case Work(i, outcome, members) => WorkRequest(s, i, outcome, members, q);
    case Settle(pid, ok) => SettleRequest(s, pid, ok, q);
    case Undo(pid) => UndoRequest(shard, s, pid, q);
    case Spawn(_, _) =>
    case LateEngineCreate(_, _, _) =>
    case GiveUp(_) =>
    case TimeOut(_) =>
  }

  lemma SaveTables(shard: GroupKey -> nat, s: State, pid: nat, k: GroupKey, m: MemberKey)
    requires At(s, pid) && PhaseOf(s, pid).CSaving?
    ensures TableFrame(s, SaveDone(shard, s, pid), Save(pid), k, m)
  {
  }

  lemma LateSaveTables(s: State, job: LateSave, k: GroupKey, m: MemberKey)
    ensures TableFrame(s, LateSaveDone(s, job), RunLateSave(job), k, m)
  {
  }

  lemma InsertRowTables(shard: GroupKey -> nat, s: State, pid: nat, k: GroupKey, m: MemberKey)
    requires At(s, pid) && PhaseOf(s, pid).IFree?
    ensures TableFrame(s, InsertRowDone(shard, s, pid), InsertRow(pid), k, m)
  {
  }

  lemma WorkTables(s: State, i: nat, outcome: Outcome, members: set<string>, k: GroupKey, m: MemberKey)
    requires i < |s.queue|
    ensures TableFrame(s, WorkDone(s, i, outcome, members), Work(i, outcome, members), k, m)
  {
  }

  lemma UndoTables(shard: GroupKey -> nat, s: State, pid: nat, k: GroupKey, m: MemberKey)
    requires At(s, pid) && PhaseOf(s, pid).IUndoing?
    ensures TableFrame(s, UndoDone(shard, s, pid), Undo(pid), k, m)
  {
  }

  lemma LoadTables(shard: GroupKey -> nat, s: State, pid: nat, k: GroupKey, m: MemberKey)
    requires At(s, pid) && PhaseOf(s, pid).ILocked?
    ensures TableFrame(s, LoadDone(shard, s, pid), Load(pid), k, m)
  {
  }

  lemma CheckInvitedTables(shard: GroupKey -> nat, s: State, pid: nat, k: GroupKey, m: MemberKey)
    requires At(s, pid) && PhaseOf(s, pid).ILoaded?
    ensures TableFrame(s, CheckInvitedDone(shard, s, pid), CheckInvited(pid), k, m)
  {
  }

  lemma StepTables(shard: GroupKey -> nat, s: State, a: Action, k: GroupKey, m: MemberKey)
    requires Enabled(shard, s, a)
    ensures TableFrame(s, Do(shard, s, a), a, k, m)
  {
    match a
    case Acquire(pid) =>
    case CheckGroup(pid) =>
    case EngineCreate(pid, wire, members) =>
    case Save(pid) => SaveTables(shard, s, pid, k, m);
    case SaveTimesOut(pid) =>
    case RunLateSave(job) => LateSaveTables(s, job, k, m);
    case Load(pid) => LoadTables(shard, s, pid, k, m);
    case CheckInvited(pid) => CheckInvitedTables(shard, s, pid, k, m);
    case InsertRow(pid) => InsertRowTables(shard, s, pid, k, m);
    case Send(pid) =>
    case Work(i, outcome, members) => WorkTables(s, i, outcome, members, k, m);
    case Settle(pid, ok) =>
    case Undo(pid) => UndoTables(shard, s, pid, k, m);
    case Spawn(_, _) =>
    case LateEngineCreate(_, _, _) =>
    case GiveUp(_) =>
    case TimeOut(_) =>
  }

  // ----- Over every run -----

  lemma {:induction false} InFlightOwnsItsRow(shard: GroupKey -> nat, run: seq<State>, actions: seq<Action>, i: nat, pid: nat)
    requires IsRun(shard, run, actions) && i < |run| && FlyingAt(run[i], pid)
    ensures exists j: nat :: FlyingSince(run, actions, j, i, pid)
    decreases i
  {
    RunsKeepInv(shard, run, actions, i);
    assert InviteOk(run[i], pid, run[i].requests[pid]);
    if i > 0 {
      RunsKeepInv(shard, run, actions, i - 1);
      if FlyingAt(run[i - 1], pid) {
        StepRequest(shard, run[i - 1], actions[i - 1], pid);
        InFlightOwnsItsRow(shard, run, actions, i - 1, pid);
        var j: nat :| FlyingSince(run, actions, j, i - 1, pid);
        assert FlyingSince(run, actions, j, i, pid);
      } else {
        StepRequest(shard, run[i - 1], actions[i - 1], pid);
        assert InviteOk(run[i - 1], pid, run[i - 1].requests[pid]);
        assert FlyingSince(run, actions, i - 1, i, pid);
      }
    }
  }

  /** Whenever a row disappears, the invite rolling back is the one that had inserted it, and no one touched it in between. */
  lemma RollbackUndoesItsOwnInsert(shard: GroupKey -> nat, run: seq<State>, actions: seq<Action>, i: nat, m: MemberKey)
    requires IsRun(shard, run, actions) && i < |actions|
    requires m in run[i].tables.members && m !in run[i + 1].tables.members
    ensures actions[i].Undo? && RowOf(run[i].requests[actions[i].pid]) == m
    ensures exists j: nat :: FlyingSince(run, actions, j, i, actions[i].pid)
  {
    StepTables(shard, run[i], actions[i], GroupKey(m.bot, m.name), m);
    InFlightOwnsItsRow(shard, run, actions, i, actions[i].pid);
  }

  lemma {:induction false} SameLeftover(shard: GroupKey -> nat, run: seq<State>, actions: seq<Action>, i: nat)
    requires IsRun(shard, run, actions) && i < |run|
    ensures run[i].leftover == run[0].leftover
  {
    if i > 0 {
      SameLeftover(shard, run, actions, i - 1);
      StepTables(shard, run[i - 1], actions[i - 1], GroupKey("", ""), MemberKey("", "", ""));
    }
  }

  /** Every member row is an invite's still in flight, or the engine holds the member and no queued command can undo it;
      the only others are rows that a crash had left unbacked before the run. */
  lemma RowsAreBacked(shard: GroupKey -> nat, run: seq<State>, actions: seq<Action>, i: nat, m: MemberKey)
    requires IsRun(shard, run, actions) && i < |run| && m in run[i].tables.members
    ensures GroupKey(m.bot, m.name) in run[i].tables.groups
    ensures var wire := run[i].tables.groups[GroupKey(m.bot, m.name)].wire;
            || m in run[0].leftover
            || (exists q :: FlyingAt(run[i], q) && RowOf(run[i].requests[q]) == m)
            || (EngineHolds(run[i], m.bot, wire, m.npub) && NoCommandFor(run[i], m.bot, wire, m.npub))
  {
    RunsKeepInv(shard, run, actions, i);
    SameLeftover(shard, run, actions, i);
    assert RowOk(run[i], m);
    var s := run[i];
    assert m in s.memberBy && s.memberBy[m] in s.requests && InFlight(s.requests[s.memberBy[m]].phase) ==>
        FlyingAt(s, s.memberBy[m]);
  }

  lemma StepKeepsSettled(shard: GroupKey -> nat, s: State, a: Action, m: MemberKey)
    requires Inv(shard, s) && Enabled(shard, s, a) && Settled(s, m)
    ensures Settled(Do(shard, s, a), m)
  {
    var s' := Do(shard, s, a);
    StepTables(shard, s, a, GroupKey(m.bot, m.name), m);
    forall q | FlyingAt(s', q)
      ensures RowOf(s'.requests[q]) != m
    {
      StepRequest(shard, s, a, q);
      assert At(s, q) ==> InviteOk(s, q, s.requests[q]);
    }
  }

  lemma SettledOneMore(shard: GroupKey -> nat, run: seq<State>, actions: seq<Action>, i: nat, m: MemberKey)
    requires IsRun(shard, run, actions) && i < |actions| && Settled(run[i], m)
    ensures Settled(run[i + 1], m)
  {
    RunsKeepInv(shard, run, actions, i);
    StepKeepsSettled(shard, run[i], actions[i], m);
  }

  lemma {:induction false} SettledThrough(run: seq<State>, i: nat, j: nat, m: MemberKey)
    requires i <= j < |run| && Settled(run[i], m)
    requires forall k :: i <= k < j && Settled(run[k], m) ==> Settled(run[k + 1], m)
    ensures Settled(run[j], m)
    decreases j
  {
    if i < j {
      SettledThrough(run, i, j - 1, m);
    }
  }

  lemma SettledStays(shard: GroupKey -> nat, run: seq<State>, actions: seq<Action>, i: nat, j: nat, m: MemberKey)
    requires IsRun(shard, run, actions) && i <= j < |run| && Settled(run[i], m)
    ensures Settled(run[j], m)
  {
    forall k | i <= k < j && Settled(run[k], m)
      ensures Settled(run[k + 1], m)
    {
      SettledOneMore(shard, run, actions, k, m);
    }
    SettledThrough(run, i, j, m);
  }

  /** Once settled, a member stays: its row is never removed and the engine holds it in every later state, unless the
      row was left over from before the run. */
  lemma SettledForGood(shard: GroupKey -> nat, run: seq<State>, actions: seq<Action>, i: nat, j: nat, m: MemberKey)
    requires IsRun(shard, run, actions) && i <= j < |run| && Settled(run[i], m)
    ensures Settled(run[j], m) && GroupKey(m.bot, m.name) in run[j].tables.groups
    ensures m in run[0].leftover
            || EngineHolds(run[j], m.bot, run[j].tables.groups[GroupKey(m.bot, m.name)].wire, m.npub)
  {
    SettledStays(shard, run, actions, i, j, m);
    RowsAreBacked(shard, run, actions, j, m);
  }

  /** A row left over from before the run stays in every state. */
  lemma LeftoverRowsStay(shard: GroupKey -> nat, run: seq<State>, actions: seq<Action>, i: nat, m: MemberKey)
    requires IsRun(shard, run, actions) && i < |run| && m in run[0].leftover
    ensures m in run[i].tables.members
  {
    assert Settled(run[0], m);
    SettledStays(shard, run, actions, 0, i, m);
  }

  /** An invite in flight is never for a leftover row: it found its row absent. */
  lemma InFlightIsNotLeftover(shard: GroupKey -> nat, run: seq<State>, actions: seq<Action>, i: nat, pid: nat)
    requires IsRun(shard, run, actions) && i < |run| && FlyingAt(run[i], pid)
    ensures RowOf(run[i].requests[pid]) !in run[0].leftover
  {
    InFlightOwnsItsRow(shard, run, actions, i, pid);
    var j: nat :| FlyingSince(run, actions, j, i, pid);
    if RowOf(run[i].requests[pid]) in run[0].leftover {
      LeftoverRowsStay(shard, run, actions, j, RowOf(run[i].requests[pid]));
    }
  }

  /** An invite that ends well after its insert leaves a settled member. */
  lemma SuccessfulInviteSettles(shard: GroupKey -> nat, run: seq<State>, actions: seq<Action>, i: nat, pid: nat)
    requires IsRun(shard, run, actions) && i < |actions|
    requires actions[i].Settle? && actions[i].pid == pid && DoneWell(run[i + 1], pid)
    ensures Settled(run[i + 1], RowOf(run[i].requests[pid])) && RowOf(run[i].requests[pid]) !in run[0].leftover
  {
    RunsKeepInv(shard, run, actions, i);
    InFlightIsNotLeftover(shard, run, actions, i, pid);
    var s, s' := run[i], run[i + 1];
    forall q | FlyingAt(s', q)
      ensures RowOf(s'.requests[q]) != RowOf(s.requests[pid])
    {
      assert InviteOk(s, q, s.requests[q]) && InviteOk(s, pid, s.requests[pid]);
    }
    assert InviteOk(run[i], pid, run[i].requests[pid]);
  }

  lemma GroupsOneMore(shard: GroupKey -> nat, run: seq<State>, actions: seq<Action>, i: nat, k: GroupKey)
    requires IsRun(shard, run, actions) && i < |actions| && k in run[i].tables.groups
    ensures k in run[i + 1].tables.groups && run[i + 1].tables.groups[k] == run[i].tables.groups[k]
    ensures k !in run[i].groupBy ==> k !in run[i + 1].groupBy
  {
    StepTables(shard, run[i], actions[i], k, MemberKey(k.bot, k.name, ""));
  }

  lemma {:induction false} GroupKeptThrough(run: seq<State>, i: nat, j: nat, k: GroupKey)
    requires i <= j < |run| && k in run[i].tables.groups
    requires forall n :: i <= n < j && k in run[n].tables.groups ==>
               k in run[n + 1].tables.groups && run[n + 1].tables.groups[k] == run[n].tables.groups[k]
    ensures k in run[j].tables.groups && run[j].tables.groups[k] == run[i].tables.groups[k]
    decreases j
  {
    if i < j {
      GroupKeptThrough(run, i, j - 1, k);
    }
  }

  lemma GroupsStay(shard: GroupKey -> nat, run: seq<State>, actions: seq<Action>, i: nat, j: nat, k: GroupKey)
    requires IsRun(shard, run, actions) && i <= j < |run| && k in run[i].tables.groups
    ensures k in run[j].tables.groups && run[j].tables.groups[k] == run[i].tables.groups[k]
  {
    forall n | i <= n < j && k in run[n].tables.groups
      ensures k in run[n + 1].tables.groups && run[n + 1].tables.groups[k] == run[n].tables.groups[k]
    {
      GroupsOneMore(shard, run, actions, n, k);
    }
    GroupKeptThrough(run, i, j, k);
  }

  lemma RequestOneMore(shard: GroupKey -> nat, run: seq<State>, actions: seq<Action>, i: nat, q: nat)
    requires IsRun(shard, run, actions) && i < |actions| && At(run[i], q)
    ensures At(run[i + 1], q) && GoesOn(run[i].requests[q], run[i + 1].requests[q])
  {
    StepRequest(shard, run[i], actions[i], q);
  }

  lemma {:induction false} GoesOnThrough(run: seq<State>, i: nat, j: nat, q: nat)
    requires i <= j < |run| && At(run[i], q)
    requires forall n :: i <= n < j && At(run[n], q) ==> At(run[n + 1], q) && GoesOn(run[n].requests[q], run[n + 1].requests[q])
    ensures At(run[j], q) && GoesOn(run[i].requests[q], run[j].requests[q])
    decreases j
  {
    if i < j {
      GoesOnThrough(run, i, j - 1, q);
    }
  }

  /** In every later state a request is still there, for the same group and recipient, and unchanged once it is done. */
  lemma RequestsGoOn(shard: GroupKey -> nat, run: seq<State>, actions: seq<Action>, i: nat, j: nat, q: nat)
    requires IsRun(shard, run, actions) && i <= j < |run| && At(run[i], q)
    ensures At(run[j], q) && GoesOn(run[i].requests[q], run[j].requests[q])
  {
    forall n | i <= n < j && At(run[n], q)
      ensures At(run[n + 1], q) && GoesOn(run[n].requests[q], run[n + 1].requests[q])
    {
      RequestOneMore(shard, run, actions, n, q);
    }
    GoesOnThrough(run, i, j, q);
  }

  /** At most one create per bot and group name ever succeeds, and from then on its wire id is the one stored. */
  lemma OneCreateSucceeds(shard: GroupKey -> nat, run: seq<State>, actions: seq<Action>, i: nat, j: nat,
                          p: nat, q: nat, k: GroupKey, wire: string, wire': string)
    requires IsRun(shard, run, actions) && i <= j < |run|
    requires CreatedAt(run[i], p, k, wire) && CreatedAt(run[j], q, k, wire')
    ensures p == q && wire == wire'
    ensures k in run[j].tables.groups && run[j].tables.groups[k].wire == wire
  {
    RequestsGoOn(shard, run, actions, i, j, p);
    RunsKeepInv(shard, run, actions, j);
    assert CreateOk(run[j], p, run[j].requests[p]) && CreateOk(run[j], q, run[j].requests[q]);
  }

  /** A group that was there before the run is never created again. */
  lemma ExistingGroupIsNotCreated(shard: GroupKey -> nat, run: seq<State>, actions: seq<Action>, i: nat,
                                  p: nat, k: GroupKey, wire: string)
    requires IsRun(shard, run, actions) && i < |run| && k in run[0].tables.groups
    ensures !CreatedAt(run[i], p, k, wire)
  {
    NotCreatedBy(shard, run, actions, i, k);
    RunsKeepInv(shard, run, actions, i);
    assert At(run[i], p) ==> CreateOk(run[i], p, run[i].requests[p]);
  }

  lemma {:induction false} NotCreatedBy(shard: GroupKey -> nat, run: seq<State>, actions: seq<Action>, i: nat, k: GroupKey)
    requires IsRun(shard, run, actions) && i < |run| && k in run[0].tables.groups
    ensures k !in run[i].groupBy
  {
    if i > 0 {
      NotCreatedBy(shard, run, actions, i - 1, k);
      GroupsStay(shard, run, actions, 0, i - 1, k);
      GroupsOneMore(shard, run, actions, i - 1, k);
    }
  }
}

/** Member rows that a crash left without their engine members: where they come from, and what becomes of them. */
module LeftoverRows {
  import opened Wrappers
  import opened GroupTables
  import opened GroupProtocol
  import opened GroupSteps
  import opened GroupRuns

  // ----- An idle row, step by step -----

  /** Only a command for the member, or making the engine group, changes whether the engine holds it. */
  lemma WorkLeavesIdle(s: State, i: nat, outcome: Outcome, members: set<string>, bot: string, wire: string, npub: string)
    requires MayRun(s, i, outcome, members) && NoCommandFor(s, bot, wire, npub)
    ensures NoCommandFor(WorkDone(s, i, outcome, members), bot, wire, npub)
    ensures EngineHolds(WorkDone(s, i, outcome, members), bot, wire, npub) <==> EngineHolds(s, bot, wire, npub)
  {
    WorkKeepsOthers(s, i, outcome, members, bot, wire, npub);
    var c := s.queue[i];
    if EngineKey(bot, wire) in s.engine && EngineKey(bot, wire) == EngineKey(c.bot, c.wire) {
      assert npub in members <==> npub in members - {c.npub};
    }
  }

  /** An invite about to send is in flight for another row than a settled one. */
  lemma SendLeavesIdle(shard: GroupKey -> nat, s: State, pid: nat, m: MemberKey, wire: string)
    requires Inv(shard, s) && At(s, pid) && PhaseOf(s, pid).IInserted? && Idle(s, m, wire)
    ensures NoCommandFor(SendDone(s, pid), m.bot, wire, m.npub)
  {
    var r := s.requests[pid];
    assert InviteOk(s, pid, r) && FlyingAt(s, pid);
    if r.group.bot == m.bot && r.phase.wire == wire {
      SameWireSameName(s, GroupKey(m.bot, m.name), r.group);
    }
  }

  lemma SavesLeaveEngine(shard: GroupKey -> nat, s: State, pid: nat)
    requires At(s, pid) && PhaseOf(s, pid).CSaving?
    ensures EngineFrame(s, SaveDone(shard, s, pid), Save(pid))
    ensures EngineFrame(s, SaveTimesOutDone(shard, s, pid), SaveTimesOut(pid))
  {
  }

  lemma LateSaveLeavesEngine(s: State, job: LateSave)
    ensures EngineFrame(s, LateSaveDone(s, job), RunLateSave(job))
  {
  }

  lemma LockedLeaveEngine(shard: GroupKey -> nat, s: State, pid: nat)
    requires At(s, pid)
    ensures EngineFrame(s, LoadDone(shard, s, pid), Load(pid))
    ensures EngineFrame(s, CheckGroupDone(shard, s, pid), CheckGroup(pid))
    ensures EngineFrame(s, UndoDone(shard, s, pid), Undo(pid))
    ensures PhaseOf(s, pid).ILoaded? ==> EngineFrame(s, CheckInvitedDone(shard, s, pid), CheckInvited(pid))
    ensures PhaseOf(s, pid).IFree? ==> EngineFrame(s, InsertRowDone(shard, s, pid), InsertRow(pid))
  {
  }

  /** Commands apart, only creates change an engine, and none takes a member from a group. */
  lemma StepEngine(shard: GroupKey -> nat, s: State, a: Action)
    requires Enabled(shard, s, a) && !a.Send? && !a.Work?
    ensures EngineFrame(s, Do(shard, s, a), a)
  {
    match a
    case Save(pid) => SavesLeaveEngine(shard, s, pid);
    case SaveTimesOut(pid) => SavesLeaveEngine(shard, s, pid);
    case RunLateSave(job) => LateSaveLeavesEngine(s, job);
    case Load(pid) => LockedLeaveEngine(shard, s, pid);
    case CheckGroup(pid) => LockedLeaveEngine(shard, s, pid);
    case CheckInvited(pid) => LockedLeaveEngine(shard, s, pid);
    case InsertRow(pid) => LockedLeaveEngine(shard, s, pid);
    case Undo(pid) => LockedLeaveEngine(shard, s, pid);
    case Acquire(_) =>
    case Spawn(_, _) =>
    case EngineCreate(_, _, _) =>
    case LateEngineCreate(_, _, _) =>
    case GiveUp(_) =>
    case Settle(_, _) =>
    case TimeOut(_) =>
  }

  lemma NewInEngine(shard: GroupKey -> nat, s: State, a: Action)
    requires Enabled(shard, s, a) && EngineMade(s, a).Some?
    ensures EngineMade(s, a).value !in s.engine
  {
  }

  lemma FrameOnIdle(s: State, s': State, a: Action, bot: string, wire: string, npub: string)
    requires EngineFrame(s, s', a) && NoCommandFor(s, bot, wire, npub)
    requires EngineMade(s, a).Some? ==> EngineMade(s, a).value !in s.engine
    ensures EngineSpares(s, s', a, bot, wire, npub)
  {
  }

  /** No command for the member comes into the queue, and the engine comes to hold it only by a create, of a group the
      engine did not have. */
  ghost predicate EngineSpares(s: State, s': State, a: Action, bot: string, wire: string, npub: string) {
    && NoCommandFor(s', bot, wire, npub)
    && (EngineHolds(s', bot, wire, npub) <==> EngineHolds(s, bot, wire, npub) || Makes(s, a, bot, wire, npub))
    && (EngineKey(bot, wire) in s.engine ==> EngineKey(bot, wire) in s'.engine && !Makes(s, a, bot, wire, npub))
  }

  lemma CommandSpares(shard: GroupKey -> nat, s: State, a: Action, m: MemberKey, wire: string)
    requires Inv(shard, s) && Enabled(shard, s, a) && Idle(s, m, wire) && (a.Send? || a.Work?)
    ensures EngineSpares(s, Do(shard, s, a), a, m.bot, wire, m.npub)
  {
    if a.Send? {
      SendLeavesIdle(shard, s, a.pid, m, wire);
    } else {
      WorkLeavesIdle(s, a.index, a.outcome, a.members, m.bot, wire, m.npub);
    }
  }

  lemma OthersSpare(shard: GroupKey -> nat, s: State, a: Action, bot: string, wire: string, npub: string)
    requires Enabled(shard, s, a) && NoCommandFor(s, bot, wire, npub) && !a.Send? && !a.Work?
    ensures EngineSpares(s, Do(shard, s, a), a, bot, wire, npub)
  {
    StepEngine(shard, s, a);
    if EngineMade(s, a).Some? {
      NewInEngine(shard, s, a);
    }
    FrameOnIdle(s, Do(shard, s, a), a, bot, wire, npub);
  }

  lemma StepKeepsIdle(shard: GroupKey -> nat, s: State, a: Action, m: MemberKey, wire: string)
    requires Inv(shard, s) && Enabled(shard, s, a) && Idle(s, m, wire)
    ensures Idle(Do(shard, s, a), m, wire) && EngineSpares(s, Do(shard, s, a), a, m.bot, wire, m.npub)
  {
    if a.Send? || a.Work? {
      CommandSpares(shard, s, a, m, wire);
    } else {
      OthersSpare(shard, s, a, m.bot, wire, m.npub);
    }
    StepKeepsSettled(shard, s, a, m);
    StepTables(shard, s, a, GroupKey(m.bot, m.name), m);
  }

  // ----- Over one run -----

  /** Where a row left over before the run stands at one of its states. */
  ghost predicate LeftoverAt(run: seq<State>, actions: seq<Action>, i: nat, m: MemberKey, wire: string)
    requires 0 < |run| && i < |run|
  {
    && Idle(run[i], m, wire)
    && (EngineHolds(run[i], m.bot, wire, m.npub) <==> MadeBefore(run, actions, i, m.bot, wire, m.npub))
    && (EngineKey(m.bot, wire) in run[0].engine ==>
          EngineKey(m.bot, wire) in run[i].engine && !EngineHolds(run[i], m.bot, wire, m.npub))
  }

  lemma LeftoverOneMore(shard: GroupKey -> nat, run: seq<State>, actions: seq<Action>, i: nat, m: MemberKey, wire: string)
    requires IsRun(shard, run, actions) && i < |actions| && LeftoverAt(run, actions, i, m, wire)
    ensures LeftoverAt(run, actions, i + 1, m, wire)
  {
    RunsKeepInv(shard, run, actions, i);
    StepKeepsIdle(shard, run[i], actions[i], m, wire);
    MadeOneMore(run, actions, i, m.bot, wire, m.npub);
  }

  lemma MadeOneMore(run: seq<State>, actions: seq<Action>, i: nat, bot: string, wire: string, npub: string)
    requires i < |run| && i < |actions|
    ensures MadeBefore(run, actions, i + 1, bot, wire, npub) <==>
              MadeBefore(run, actions, i, bot, wire, npub) || Makes(run[i], actions[i], bot, wire, npub)
  {
  }

  lemma {:induction false} LeftoverThroughout(shard: GroupKey -> nat, run: seq<State>, actions: seq<Action>, i: nat,
                                              m: MemberKey, wire: string)
    requires IsRun(shard, run, actions) && i < |run| && m in run[0].leftover
    requires GroupKnown(run[0], GroupKey(m.bot, m.name), wire)
    ensures LeftoverAt(run, actions, i, m, wire)
  {
    if i > 0 {
      LeftoverThroughout(shard, run, actions, i - 1, m, wire);
      LeftoverOneMore(shard, run, actions, i - 1, m, wire);
    }
  }

  /** A row left over from before the run stays, and the engine comes to hold its member exactly when the engine lacked
      the group and a create makes one for that very wire id with the member in it. */
  lemma LeftoverIsHeldExactlyWhenMade(shard: GroupKey -> nat, run: seq<State>, actions: seq<Action>, i: nat, m: MemberKey,
                                      wire: string)
    requires IsRun(shard, run, actions) && i < |run| && m in run[0].leftover
    requires GroupKnown(run[0], GroupKey(m.bot, m.name), wire)
    ensures m in run[i].tables.members && GroupKnown(run[i], GroupKey(m.bot, m.name), wire)
    ensures RowHeld(run[i], m) <==> MadeBefore(run, actions, i, m.bot, wire, m.npub)
    ensures RowHeld(run[i], m) ==> EngineKey(m.bot, wire) !in run[0].engine
  {
    LeftoverThroughout(shard, run, actions, i, m, wire);
  }

  /** Where the engine has the group, nothing a create or an invite does repairs the row. */
  lemma LeftoverIsNeverRepaired(shard: GroupKey -> nat, run: seq<State>, actions: seq<Action>, i: nat, m: MemberKey,
                                wire: string)
    requires IsRun(shard, run, actions) && i < |run| && m in run[0].leftover
    requires GroupKnown(run[0], GroupKey(m.bot, m.name), wire) && EngineKey(m.bot, wire) in run[0].engine
    ensures m in run[i].tables.members && GroupKnown(run[i], GroupKey(m.bot, m.name), wire)
    ensures EngineKey(m.bot, wire) in run[i].engine && !RowHeld(run[i], m)
  {
    LeftoverThroughout(shard, run, actions, i, m, wire);
  }

  /** Where it has not, one late create for the stored wire id does. */
  lemma ALateCreateRepairs(shard: GroupKey -> nat, s: State, m: MemberKey, wire: string)
    requires Init(s) && m in s.leftover
    requires GroupKnown(s, GroupKey(m.bot, m.name), wire) && EngineKey(m.bot, wire) !in s.engine
    ensures var a := LateEngineCreate(m.bot, wire, {m.npub});
            && Enabled(shard, s, a) && IsRun(shard, [s, Do(shard, s, a)], [a])
            && RowHeld(Do(shard, s, a), m)
  {
  }

  // ----- Over crashes -----

  /** Whatever a crash leaves is a state to begin with. Its leftover rows were left over before, or their invites were in
      flight when it came. */
  lemma CrashLeavesInit(shard: GroupKey -> nat, run: seq<State>, actions: seq<Action>, i: nat, m: MemberKey)
    requires IsRun(shard, run, actions) && i < |run|
    ensures Init(Restarted(run[i]))
    ensures m in Restarted(run[i]).leftover ==>
              || m in run[0].leftover
              || exists q :: FlyingAt(run[i], q) && RowOf(run[i].requests[q]) == m
  {
    RunsKeepInv(shard, run, actions, i);
    if m in Restarted(run[i]).leftover {
      RowsAreBacked(shard, run, actions, i, m);
    }
  }

  /** A leftover row of any life, unless it was there from the very first, was in flight at the crash of one before. */
  lemma {:induction false} LeftoverComesFromACrash(shard: GroupKey -> nat, lives: seq<Life>, n: nat, m: MemberKey)
    requires AreLives(shard, lives) && n < |lives| && m in lives[n].run[0].leftover
    ensures m in lives[0].run[0].leftover || exists c :: 0 <= c < n && CrashedInFlight(lives[c], m)
  {
    if n > 0 {
      var before := lives[n - 1];
      CrashLeavesInit(shard, before.run, before.actions, before.crash, m);
      if m in before.run[0].leftover {
        LeftoverComesFromACrash(shard, lives, n - 1, m);
      } else {
        assert CrashedInFlight(before, m);
      }
    }
  }

  /** Nor does a restart repair it: once left over in a group the engine has, a row is there and unbacked in every state
      of every later life. */
  lemma {:induction false} NoLifeRepairs(shard: GroupKey -> nat, lives: seq<Life>, a: nat, b: nat, i: nat, m: MemberKey,
                                         wire: string)
    requires AreLives(shard, lives) && a <= b < |lives| && i < |lives[b].run| && m in lives[a].run[0].leftover
    requires GroupKnown(lives[a].run[0], GroupKey(m.bot, m.name), wire) && EngineKey(m.bot, wire) in lives[a].run[0].engine
    ensures m in lives[b].run[i].tables.members && GroupKnown(lives[b].run[i], GroupKey(m.bot, m.name), wire)
    ensures EngineKey(m.bot, wire) in lives[b].run[i].engine && !RowHeld(lives[b].run[i], m)
    decreases b
  {
    var life := lives[b];
    if a < b {
      var before := lives[b - 1];
      NoLifeRepairs(shard, lives, a, b - 1, before.crash, m, wire);
      assert life.run[0] == Restarted(before.run[before.crash]);
    }
    LeftoverIsNeverRepaired(shard, life.run, life.actions, i, m, wire);
  }
}

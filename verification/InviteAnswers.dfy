/** Invites that find the member row already there: when their answer proves right, and a run in which it does not. */
module InviteAnswers {
  import opened Wrappers
  import opened GroupTables
  import opened GroupProtocol
  import opened GroupSteps
  import opened GroupRuns
  import opened LeftoverRows
  import opened RequestRuns

  lemma UndoRemoves(shard: GroupKey -> nat, s: State, pid: nat)
    requires At(s, pid)
    ensures RowOf(s.requests[pid]) !in UndoDone(shard, s, pid).tables.members
  {
  }

  /** A rollback takes the row away. */
  lemma RollbackRemoves(shard: GroupKey -> nat, run: seq<State>, actions: seq<Action>, i: nat, k: nat, m: MemberKey)
    requires IsRun(shard, run, actions) && RollsBack(run, actions, i, k, m)
    ensures m !in run[k + 1].tables.members
  {
    RequestsGoOn(shard, run, actions, i, k, actions[k].pid);
    UndoRemoves(shard, run[k], actions[k].pid);
  }

  /** A row that was there throughout and then goes was in flight from the start, and its invite rolls back. */
  lemma RemovalIsARollback(shard: GroupKey -> nat, run: seq<State>, actions: seq<Action>, i: nat, k: nat, m: MemberKey)
    requires IsRun(shard, run, actions) && i <= k < |actions| && RowStays(run, i, k, m)
    requires m !in run[k + 1].tables.members
    ensures RollsBack(run, actions, i, k, m)
  {
    RollbackUndoesItsOwnInsert(shard, run, actions, k, m);
    var pid := actions[k].pid;
    var j: nat :| FlyingSince(run, actions, j, k, pid);
    assert j < i;
    assert FlyingAt(run[i], pid);
  }

  lemma {:induction false} StaysExactlyWithoutRollback(shard: GroupKey -> nat, run: seq<State>, actions: seq<Action>,
                                                       i: nat, j: nat, m: MemberKey)
    requires IsRun(shard, run, actions) && i <= j < |run| && m in run[i].tables.members
    ensures RowStays(run, i, j, m) <==> !RolledBack(run, actions, i, j, m)
    decreases j
  {
    if k :| i <= k < j && RollsBack(run, actions, i, k, m) {
      RollbackRemoves(shard, run, actions, i, k, m);
    }
    if i < j && !RolledBack(run, actions, i, j, m) {
      StaysExactlyWithoutRollback(shard, run, actions, i, j - 1, m);
      if m !in run[j].tables.members {
        RemovalIsARollback(shard, run, actions, i, j - 1, m);
      }
    }
  }

  /** What is held once no invite is in flight for the row any more. */
  lemma SettledIsHeldExactly(shard: GroupKey -> nat, run: seq<State>, actions: seq<Action>, j: nat, m: MemberKey)
    requires IsRun(shard, run, actions) && j < |run| && Settled(run[j], m)
    ensures RowHeld(run[j], m) <==> !StillUnbacked(run, actions, j, m)
    ensures EngineHasGroupOf(run[0], m) ==> (RowHeld(run[j], m) <==> m !in run[0].leftover)
  {
    SettledForGood(shard, run, actions, j, j, m);
    if m in run[0].leftover {
      var wire := run[0].tables.groups[GroupKey(m.bot, m.name)].wire;
      LeftoverIsHeldExactlyWhenMade(shard, run, actions, j, m, wire);
    }
  }

  /** An invite that finds the row there answers success at once, though the invite that inserted the row may still be
      in flight, and the row may be one that a crash left. Once no invite is in flight for the row any more, that answer
      has proved right exactly when no invite in flight at the time of the answer has rolled the row back since, and the
      row is not one left over whose member the engine still lacks. If the engine had the group from the start, that is
      any row left over. */
  lemma AlreadyInvitedIsRightExactly(shard: GroupKey -> nat, run: seq<State>, actions: seq<Action>, i: nat, j: nat, pid: nat)
    requires IsRun(shard, run, actions) && AnswersAlreadyInvited(run, actions, i, pid) && i <= j < |run|
    requires forall q :: FlyingAt(run[j], q) ==> RowOf(run[j].requests[q]) != RowOf(run[i].requests[pid])
    ensures var m := RowOf(run[i].requests[pid]);
            ProvedRight(run, i, j, m) <==> !RolledBack(run, actions, i, j, m) && !StillUnbacked(run, actions, j, m)
    ensures var m := RowOf(run[i].requests[pid]);
            EngineHasGroupOf(run[0], m) ==>
              (ProvedRight(run, i, j, m) <==> !RolledBack(run, actions, i, j, m) && m !in run[0].leftover)
  {
    var m := RowOf(run[i].requests[pid]);
    StaysExactlyWithoutRollback(shard, run, actions, i, j, m);
    if RowStays(run, i, j, m) {
      assert m in run[j].tables.members;
      SettledIsHeldExactly(shard, run, actions, j, m);
    }
  }

  // ----- Runs in which the answer proves wrong -----

  /** If the row is there, that invite answers success, whatever the engine has. */
  lemma InviteIsAnswered(shard: GroupKey -> nat, run: seq<State>, actions: seq<Action>, pid: nat, k: GroupKey, npub: string)
    returns (run': seq<State>, actions': seq<Action>)
    requires IsRun(shard, run, actions)
    requires var s := run[|actions|]; pid !in s.requests && shard(k) !in s.locks && k in s.tables.groups
    requires MemberKey(k.bot, k.name, npub) in run[|actions|].tables.members
    ensures IsRun(shard, run', actions') && |actions'| == |actions| + 4 && run'[0] == run[0]
    ensures AnswersAlreadyInvited(run', actions', |actions| + 3, pid)
    ensures RowOf(run'[|actions| + 3].requests[pid]) == MemberKey(k.bot, k.name, npub)
    ensures run'[|actions'|] == WithRequest(run[|actions|], pid, k, npub, IDone(true), run[|actions|].locks)
  {
    var s := run[|actions|];
    run', actions' := InviteGetsIn(shard, run, actions, pid, k, npub);
    InviteFindsRow(shard, s, pid, k, npub, s.tables.groups[k].wire);
    var s4 := WithRequest(s, pid, k, npub, IDone(true), s.locks);
    OneMoreStep(shard, run', actions', CheckInvited(pid), s4);
    run', actions' := run' + [s4], actions' + [CheckInvited(pid)];
  }

  /** Whatever the daemon starts with, one invite for a row left over is answered success in four steps, though nothing
      is in flight, nothing was rolled back and the engine lacks the member. */
  lemma LeftoverIsAnsweredWrongly(shard: GroupKey -> nat, s: State, m: MemberKey)
    returns (run: seq<State>, actions: seq<Action>)
    requires Init(s) && m in s.leftover
    ensures IsRun(shard, run, actions) && |actions| == 4 && run[0] == s && AnswersAlreadyInvited(run, actions, 3, 0)
    ensures RowOf(run[3].requests[0]) == m && !RolledBack(run, actions, 3, 4, m)
    ensures (forall q :: !FlyingAt(run[4], q)) && !RowHeld(run[4], m)
  {
    var k := GroupKey(m.bot, m.name);
    run, actions := InviteIsAnswered(shard, [s], [], 0, k, m.npub);
  }

  lemma FirstInserts(shard: GroupKey -> nat, k: GroupKey, npub: string, wire: string)
    ensures var s4 := WithRequest(With(k, wire, map[], map[], {}, map[]), 0, k, npub, IFree(wire), map[shard(k) := 0]);
            var m := MemberKey(k.bot, k.name, npub);
            && Enabled(shard, s4, InsertRow(0))
            && Do(shard, s4, InsertRow(0))
               == With(k, wire, map[0 := Request(k, npub, IInserted(wire))], map[], {m}, map[m := 0])
  {
    var m := MemberKey(k.bot, k.name, npub);
    var s4 := WithRequest(With(k, wire, map[], map[], {}, map[]), 0, k, npub, IFree(wire), map[shard(k) := 0]);
    var s5 := With(k, wire, map[0 := Request(k, npub, IInserted(wire))], map[], {m}, map[m := 0]);
    assert InsertRowDone(shard, s4, 0).requests == s5.requests;
    assert InsertRowDone(shard, s4, 0).locks == s5.locks;
    assert InsertRowDone(shard, s4, 0).tables.members == s5.tables.members;
  }

  /** From a stored group without members, the first invite finds its row absent and inserts it. */
  lemma FirstIsInFlight(shard: GroupKey -> nat, k: GroupKey, npub: string, wire: string)
    returns (run: seq<State>, actions: seq<Action>)
    ensures IsRun(shard, run, actions) && run[0].leftover == {}
    ensures var m := MemberKey(k.bot, k.name, npub);
            run[|actions|] == With(k, wire, map[0 := Request(k, npub, IInserted(wire))], map[], {m}, map[m := 0])
  {
    var s0 := With(k, wire, map[], map[], {}, map[]);
    var m, lock := MemberKey(k.bot, k.name, npub), s0.locks[shard(k) := 0];
    run, actions := InviteGetsIn(shard, [s0], [], 0, k, npub);
    InviteFindsNoRow(shard, s0, 0, k, npub, wire, lock);
    var s4 := WithRequest(s0, 0, k, npub, IFree(wire), lock);
    OneMoreStep(shard, run, actions, CheckInvited(0), s4);
    run, actions := run + [s4], actions + [CheckInvited(0)];
    var s5 := With(k, wire, map[0 := Request(k, npub, IInserted(wire))], map[], {m}, map[m := 0]);
    FirstInserts(shard, k, npub, wire);
    OneMoreStep(shard, run, actions, InsertRow(0), s5);
    run, actions := run + [s5], actions + [InsertRow(0)];
  }

  /** A crash at that moment leaves the row without its member: the daemon's next life begins with it, and answers the
      next invite for it wrongly. */
  lemma ACrashLeavesARow(shard: GroupKey -> nat, k: GroupKey, npub: string, wire: string)
    returns (lives: seq<Life>)
    ensures AreLives(shard, lives) && |lives| == 2
    ensures var m := MemberKey(k.bot, k.name, npub);
            && lives[0].run[0].leftover == {} && CrashedInFlight(lives[0], m) && m in lives[1].run[0].leftover
            && |lives[1].actions| == 4 && AnswersAlreadyInvited(lives[1].run, lives[1].actions, 3, 0)
            && RowOf(lives[1].run[3].requests[0]) == m && !RowHeld(lives[1].run[4], m)
  {
    var m := MemberKey(k.bot, k.name, npub);
    var run, actions := FirstIsInFlight(shard, k, npub, wire);
    var crashed := run[|actions|];
    assert FlyingAt(crashed, 0) && RowOf(crashed.requests[0]) == m;
    CrashLeavesInit(shard, run, actions, |actions|, m);
    var run', actions' := LeftoverIsAnsweredWrongly(shard, Restarted(crashed), m);
    lives := [Life(run, actions, |actions|), Life(run', actions', 4)];
  }

  /** The second invite finds the row there and answers success. */
  lemma SecondAnswers(shard: GroupKey -> nat, k: GroupKey, npub: string, wire: string)
    returns (run: seq<State>, actions: seq<Action>, i: nat)
    ensures IsRun(shard, run, actions) && i == |actions| - 1 && AnswersAlreadyInvited(run, actions, i, 1)
    ensures RowOf(run[i].requests[1]) == MemberKey(k.bot, k.name, npub)
    ensures run[|actions|] == Both(shard, k, npub, wire, IInserted(wire))
  {
    run, actions := FirstIsInFlight(shard, k, npub, wire);
    var s := run[|actions|];
    run, actions := InviteIsAnswered(shard, run, actions, 1, k, npub);
    i := |actions| - 1;
    assert WithRequest(s, 1, k, npub, IDone(true), s.locks).requests == Both(shard, k, npub, wire, IInserted(wire)).requests;
  }

  lemma FirstTimesOut(shard: GroupKey -> nat, k: GroupKey, npub: string, wire: string)
    ensures Enabled(shard, Both(shard, k, npub, wire, IInserted(wire)), TimeOut(0))
    ensures Do(shard, Both(shard, k, npub, wire, IInserted(wire)), TimeOut(0)) == Both(shard, k, npub, wire, IFailed(wire))
  {
  }

  lemma FirstLocks(shard: GroupKey -> nat, k: GroupKey, npub: string, wire: string)
    ensures Enabled(shard, Both(shard, k, npub, wire, IFailed(wire)), Acquire(0))
    ensures Do(shard, Both(shard, k, npub, wire, IFailed(wire)), Acquire(0)) == Both(shard, k, npub, wire, IUndoing(wire))
  {
  }

  lemma FirstRollsBack(shard: GroupKey -> nat, k: GroupKey, npub: string, wire: string)
    ensures Enabled(shard, Both(shard, k, npub, wire, IUndoing(wire)), Undo(0))
    ensures Do(shard, Both(shard, k, npub, wire, IUndoing(wire)), Undo(0)) == Both(shard, k, npub, wire, IDone(false))
  {
    var s := Both(shard, k, npub, wire, IUndoing(wire));
    assert UndoDone(shard, s, 0).locks == map[];
    assert UndoDone(shard, s, 0).tables.members == {};
    assert UndoDone(shard, s, 0).requests == Both(shard, k, npub, wire, IDone(false)).requests;
  }

  /** A run with an answer in it goes on. */
  lemma AnswerGoesOn(shard: GroupKey -> nat, run: seq<State>, actions: seq<Action>, i: nat, pid: nat, a: Action)
    requires IsRun(shard, run, actions) && Enabled(shard, run[|actions|], a) && AnswersAlreadyInvited(run, actions, i, pid)
    ensures var run', actions' := run + [Do(shard, run[|actions|], a)], actions + [a];
            IsRun(shard, run', actions') && AnswersAlreadyInvited(run', actions', i, pid) && run'[i] == run[i]
  {
    OneMoreStep(shard, run, actions, a, Do(shard, run[|actions|], a));
  }

  /** The first invite then runs out of time before the engine has its command, and rolls back: the second has answered
      success, no request is left, and there is neither a row nor a member. */
  lemma AlreadyInvitedMayBeWrong(shard: GroupKey -> nat, k: GroupKey, npub: string, wire: string)
    returns (run: seq<State>, actions: seq<Action>, i: nat)
    ensures IsRun(shard, run, actions) && AnswersAlreadyInvited(run, actions, i, 1)
    ensures RowOf(run[i].requests[1]) == MemberKey(k.bot, k.name, npub)
    ensures run[|actions|] == Both(shard, k, npub, wire, IDone(false)) && run[|actions|].tables.members == {}
    ensures !EngineHolds(run[|actions|], k.bot, wire, npub)
  {
    run, actions, i := SecondAnswers(shard, k, npub, wire);
    FirstTimesOut(shard, k, npub, wire);
    AnswerGoesOn(shard, run, actions, i, 1, TimeOut(0));
    run, actions := run + [Both(shard, k, npub, wire, IFailed(wire))], actions + [TimeOut(0)];
    FirstLocks(shard, k, npub, wire);
    AnswerGoesOn(shard, run, actions, i, 1, Acquire(0));
    run, actions := run + [Both(shard, k, npub, wire, IUndoing(wire))], actions + [Acquire(0)];
    FirstRollsBack(shard, k, npub, wire);
    AnswerGoesOn(shard, run, actions, i, 1, Undo(0));
    run, actions := run + [Both(shard, k, npub, wire, IDone(false))], actions + [Undo(0)];
  }
}

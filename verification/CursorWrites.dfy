/** Last cursors and persisted ones: when they agree once every pending write is through, when they do not, and
    what a flush repairs. */
module CursorWrites {
  import opened Wrappers
  import opened Dispatching
  import opened DispatchProtocol
  import opened DispatchSteps
  import opened DispatchRuns

  /** Calls for two events whose ids share a shard never overlap. */
  lemma OverlapNeedsTwoShards(shard: string -> nat, run: seq<State>, actions: seq<Action>, i: nat, p: nat, q: nat, b: string)
    requires IsRun(shard, run, actions) && i < |run| && Clash(run[i], p, q, b)
    ensures shard(run[i].dispatches[p].event.id) != shard(run[i].dispatches[q].event.id)
  {
    RunsKeepInv(shard, run, actions, i);
  }

  // ----- Without an overlap -----

  lemma SameForKeepsTidy(s: State, s': State, b: string)
    requires Tidy(s, b) && SameFor(s, s', b)
    ensures Tidy(s', b)
  {
    if pid :| Setter(s, pid, b) {
      assert Setter(s', pid, b);
    }
    assert forall pid :: Writer(s', pid, b) && At(s', pid, CursorSet) ==> Setter(s', pid, b);
  }

  lemma OthersSame(shard: string -> nat, s: State, a: Action, b: string)
    requires CallsOk(shard, s) && Enabled(shard, s, a) && !WritesCursors(a)
    ensures SameFor(s, Do(shard, s, a), b)
  {
    var s' := Do(shard, s, a);
    OthersLeaveCursors(shard, s, a);
    StepKeepsCalls(shard, s, a);
    forall pid | Setter(s', pid, b)
      ensures Setter(s, pid, b) && s'.dispatches[pid] == s.dispatches[pid]
    {
      assert DispatchOk(s'.dispatches[pid]);
      if !MovedCursor(s, pid, b, CursorOf(s'.dispatches[pid])) {
        MovedCursorStarts(shard, s, a, pid, b, CursorOf(s'.dispatches[pid]));
      }
      OthersLeavePast(shard, s, a, pid);
    }
    forall pid | Setter(s, pid, b)
      ensures Setter(s', pid, b)
    {
      OthersLeavePast(shard, s, a, pid);
    }
  }

  /** A call of another bot, or one that moves no cursor, goes on. */
  lemma PhaseSame(s: State, s': State, p: nat, phase: Phase, b: string)
    requires p in s.dispatches && s'.dispatches == s.dispatches[p := s.dispatches[p].(phase := phase)]
    requires !Writer(s, p, b) && !Writer(s', p, b)
    requires s'.flush == s.flush
    requires (b in s'.lastCursor <==> b in s.lastCursor) && (b in s.lastCursor ==> s'.lastCursor[b] == s.lastCursor[b])
    requires (b in s'.persisted <==> b in s.persisted) && (b in s.persisted ==> s'.persisted[b] == s.persisted[b])
    ensures SameFor(s, s', b)
  {
  }

  lemma SetSame(shard: string -> nat, s: State, p: nat, b: string)
    requires At(s, p, Removed) && !Writer(s, p, b)
    ensures SameFor(s, Do(shard, s, SetCursor(p)), b)
  {
    var s' := Do(shard, s, SetCursor(p));
    SetShape(shard, s, p);
    PhaseSame(s, s', p, s'.dispatches[p].phase, b);
  }

  lemma SaveSame(shard: string -> nat, s: State, p: nat, saves: bool, b: string)
    requires CallsOk(shard, s) && At(s, p, CursorSet) && !Writer(s, p, b)
    ensures SameFor(s, Do(shard, s, SaveCursor(p, saves)), b)
  {
    var s' := Do(shard, s, SaveCursor(p, saves));
    assert DispatchOk(s.dispatches[p]);
    SaveShape(shard, s, p, saves);
    PhaseSame(s, s', p, Done, b);
  }

  lemma StepKeepsTidy(shard: string -> nat, s: State, a: Action, b: string)
    requires CallsOk(shard, s) && Enabled(shard, s, a) && Tidy(s, b) && !Overlap(s, b)
    requires (a.SaveCursor? ==> a.saves) && !a.StartFlush?
    ensures Tidy(Do(shard, s, a), b)
  {
    var s' := Do(shard, s, a);
    if !WritesCursors(a) {
      OthersSame(shard, s, a, b);
      SameForKeepsTidy(s, s', b);
    } else if !Writer(s, a.pid, b) {
      if a.SetCursor? {
        SetSame(shard, s, a.pid, b);
      } else {
        SaveSame(shard, s, a.pid, a.saves, b);
      }
      SameForKeepsTidy(s, s', b);
    } else if a.SetCursor? {
      SetKeepsTidy(shard, s, a.pid, b);
    } else {
      SaveKeepsTidy(shard, s, a.pid, b);
    }
  }

  lemma SetKeepsTidy(shard: string -> nat, s: State, p: nat, b: string)
    requires Tidy(s, b) && !Overlap(s, b) && Writer(s, p, b) && At(s, p, Removed)
    ensures Tidy(Do(shard, s, SetCursor(p)), b)
  {
    var s' := Do(shard, s, SetCursor(p));
    SetShape(shard, s, p);
    assert Setter(s', p, b);
    forall q | Setter(s', q, b)
      ensures s'.lastCursor[b] == CursorOf(s'.dispatches[q])
    {
      assert !Clash(s, p, q, b);
    }
  }

  lemma SaveKeepsTidy(shard: string -> nat, s: State, p: nat, b: string)
    requires Tidy(s, b) && Writer(s, p, b) && At(s, p, CursorSet)
    ensures Tidy(Do(shard, s, SaveCursor(p, true)), b)
  {
    SaveShape(shard, s, p, true);
  }

  lemma {:induction false} RunsKeepTidy(shard: string -> nat, run: seq<State>, actions: seq<Action>, i: nat, b: string)
    requires IsRun(shard, run, actions) && Smooth(actions) && i < |run|
    requires forall k :: 0 <= k < i ==> !Overlap(run[k], b)
    ensures Tidy(run[i], b)
  {
    if i > 0 {
      RunsKeepTidy(shard, run, actions, i - 1, b);
      RunsKeepInv(shard, run, actions, i - 1);
      StepKeepsTidy(shard, run[i - 1], actions[i - 1], b);
    }
  }

  /** Pending writes start no overlap: whoever writes afterwards wrote before. */
  lemma WritesStartNoOverlap(shard: string -> nat, s: State, a: Action, b: string)
    requires Enabled(shard, s, a) && IsWrite(a) && !Overlap(s, b)
    ensures !Overlap(Do(shard, s, a), b)
  {
    var s' := Do(shard, s, a);
    if a.SetCursor? {
      SetShape(shard, s, a.pid);
    } else {
      SaveShape(shard, s, a.pid, a.saves);
    }
    forall p, q
      ensures !Clash(s', p, q, b)
    {
      assert !Clash(s, p, q, b);
    }
  }

  lemma {:induction false} ScheduleStartsNoOverlap(shard: string -> nat, run: seq<State>, actions: seq<Action>, i: nat,
                                                   run': seq<State>, actions': seq<Action>, k: nat, b: string)
    requires WritesFrom(shard, run, actions, i, run', actions') && NeverOverlaps(run, b) && k < |run'|
    ensures !Overlap(run'[k], b)
    decreases k
  {
    if k <= i {
      assert run'[k] == run'[..i + 1][k] == run[..i + 1][k];
    } else {
      ScheduleStartsNoOverlap(shard, run, actions, i, run', actions', k - 1, b);
      WritesStartNoOverlap(shard, run'[k - 1], actions'[k - 1], b);
    }
  }

  lemma ScheduleIsSmooth(shard: string -> nat, run: seq<State>, actions: seq<Action>, i: nat,
                         run': seq<State>, actions': seq<Action>)
    requires WritesFrom(shard, run, actions, i, run', actions') && Smooth(actions)
    ensures Smooth(actions')
  {
    forall k | 0 <= k < i
      ensures actions'[k] == actions[k]
    {
      assert actions'[k] == actions'[..i][k] == actions[..i][k];
    }
  }

  // ----- With an overlap -----

  /** Extends a run by one pending write. */
  lemma WriteOnce(shard: string -> nat, run: seq<State>, actions: seq<Action>, i: nat, run': seq<State>, actions': seq<Action>,
                  a: Action)
    requires WritesFrom(shard, run, actions, i, run', actions')
    requires IsWrite(a) && Enabled(shard, run'[|actions'|], a)
    ensures WritesFrom(shard, run, actions, i, run' + [Do(shard, run'[|actions'|], a)], actions' + [a])
  {
    OneMoreStep(shard, run', actions', a);
    var longer := run' + [Do(shard, run'[|actions'|], a)];
    assert longer[..i + 1] == run'[..i + 1] && (actions' + [a])[..i] == actions'[..i];
  }

  /** One call's pending writes carried out. */
  lemma FinishCall(shard: string -> nat, run: seq<State>, actions: seq<Action>, i: nat, run': seq<State>, actions': seq<Action>,
                   r: nat, b: string)
    returns (run'': seq<State>, actions'': seq<Action>)
    requires WritesFrom(shard, run, actions, i, run', actions') && Writer(run'[|actions'|], r, b)
    ensures WritesFrom(shard, run, actions, i, run'', actions'')
    ensures var s, s' := run'[|actions'|], run''[|actions''|];
            && s'.dispatches == s.dispatches[r := s.dispatches[r].(phase := Done)]
            && s'.persisted == s.persisted[b := CursorOf(s.dispatches[r])]
            && s'.lastCursor == if At(s, r, Removed) then s.lastCursor[b := CursorOf(s.dispatches[r])] else s.lastCursor
  {
    run'', actions'' := run', actions';
    var s := run'[|actions'|];
    if At(s, r, Removed) {
      SetShape(shard, s, r);
      WriteOnce(shard, run, actions, i, run'', actions'', SetCursor(r));
      s := Do(shard, s, SetCursor(r));
      run'', actions'' := run'' + [s], actions'' + [SetCursor(r)];
    }
    SaveShape(shard, s, r, true);
    WriteOnce(shard, run, actions, i, run'', actions'', SaveCursor(r, true));
    run'', actions'' := run'' + [Do(shard, s, SaveCursor(r, true))], actions'' + [SaveCursor(r, true)];
  }

  /** All calls of the bot but two, one after the other. */
  lemma {:induction false} FinishOthers(shard: string -> nat, run: seq<State>, actions: seq<Action>, i: nat,
                                        run': seq<State>, actions': seq<Action>, p: nat, q: nat, b: string)
    returns (run'': seq<State>, actions'': seq<Action>)
    requires WritesFrom(shard, run, actions, i, run', actions') && Clash(run'[|actions'|], p, q, b)
    ensures WritesFrom(shard, run, actions, i, run'', actions'')
    ensures Clash(run''[|actions''|], p, q, b) && Others(run''[|actions''|], p, q, b) == {}
    decreases |Others(run'[|actions'|], p, q, b)|
  {
    var others := Others(run'[|actions'|], p, q, b);
    if others == {} {
      return run', actions';
    }
    var r :| r in others;
    run'', actions'' := FinishCall(shard, run, actions, i, run', actions', r, b);
    assert Others(run''[|actions''|], p, q, b) == others - {r};
    run'', actions'' := FinishOthers(shard, run, actions, i, run'', actions'', p, q, b);
  }

  /** The call at `p` has set its cursor; the one at `q` finishes before it saves. */
  lemma CrossAfterSetting(shard: string -> nat, run: seq<State>, actions: seq<Action>, i: nat,
                          run': seq<State>, actions': seq<Action>, p: nat, q: nat, b: string)
    returns (run'': seq<State>, actions'': seq<Action>)
    requires WritesFrom(shard, run, actions, i, run', actions')
    requires var s := run'[|actions'|]; Clash(s, p, q, b) && Others(s, p, q, b) == {} && At(s, p, CursorSet)
    ensures WritesFrom(shard, run, actions, i, run'', actions'')
    ensures var s, s' := run'[|actions'|], run''[|actions''|];
            && NoWriter(s', b) && b in s'.persisted && s'.persisted[b] == CursorOf(s.dispatches[p])
            && s'.lastCursor == (if At(s, q, Removed) then s.lastCursor[b := CursorOf(s.dispatches[q])] else s.lastCursor)
            && s'.dispatches == s.dispatches[q := s.dispatches[q].(phase := Done)][p := s.dispatches[p].(phase := Done)]
  {
    run'', actions'' := FinishCall(shard, run, actions, i, run', actions', q, b);
    run'', actions'' := FinishCall(shard, run, actions, i, run'', actions'', p, b);
    assert forall r :: Writer(run''[|actions''|], r, b) ==> r in Others(run'[|actions'|], p, q, b);
  }

  /** From any overlap, some schedule of the pending writes leaves the two different. */
  lemma OverlapMayCross(shard: string -> nat, run: seq<State>, actions: seq<Action>, i: nat, b: string)
    returns (run': seq<State>, actions': seq<Action>)
    requires IsRun(shard, run, actions) && i < |run| && Overlap(run[i], b)
    ensures WritesFrom(shard, run, actions, i, run', actions')
    ensures NoWriter(run'[|actions'|], b) && !Agree(run'[|actions'|], b)
  {
    var p, q :| Clash(run[i], p, q, b);
    run', actions' := run[..i + 1], actions[..i];
    run', actions' := FinishOthers(shard, run, actions, i, run', actions', p, q, b);
    var s := run'[|actions'|];
    if At(s, p, Removed) && At(s, q, Removed) {
      run', actions' := SetFirst(shard, run, actions, i, run', actions', p, q, b);
      run', actions' := CrossAfterSetting(shard, run, actions, i, run', actions', p, q, b);
    } else if At(s, q, Removed) {
      run', actions' := CrossAfterSetting(shard, run, actions, i, run', actions', p, q, b);
    } else {
      OtherWayRound(s, p, q, b);
      run', actions' := CrossSecondSet(shard, run, actions, i, run', actions', p, q, b);
    }
  }

  lemma SetFirst(shard: string -> nat, run: seq<State>, actions: seq<Action>, i: nat,
                 run': seq<State>, actions': seq<Action>, p: nat, q: nat, b: string)
    returns (run'': seq<State>, actions'': seq<Action>)
    requires WritesFrom(shard, run, actions, i, run', actions')
    requires var s := run'[|actions'|]; Clash(s, p, q, b) && Others(s, p, q, b) == {} && At(s, p, Removed) && At(s, q, Removed)
    ensures WritesFrom(shard, run, actions, i, run'', actions'')
    ensures var s' := run''[|actions''|]; Clash(s', p, q, b) && Others(s', p, q, b) == {} && At(s', p, CursorSet) && At(s', q, Removed)
  {
    var s := run'[|actions'|];
    SetShape(shard, s, p);
    WriteOnce(shard, run, actions, i, run', actions', SetCursor(p));
    run'', actions'' := run' + [Do(shard, s, SetCursor(p))], actions' + [SetCursor(p)];
    assert Others(run''[|actions''|], p, q, b) == Others(s, p, q, b);
  }

  lemma OtherWayRound(s: State, p: nat, q: nat, b: string)
    requires Clash(s, p, q, b) && Others(s, p, q, b) == {}
    ensures Clash(s, q, p, b) && Others(s, q, p, b) == {}
  {
    assert Others(s, q, p, b) == Others(s, p, q, b);
  }

  /** The call at `q` has set its cursor: whichever of the two has been, or is going to be, overwritten saves last. */
  lemma CrossSecondSet(shard: string -> nat, run: seq<State>, actions: seq<Action>, i: nat,
                       run': seq<State>, actions': seq<Action>, p: nat, q: nat, b: string)
    returns (run'': seq<State>, actions'': seq<Action>)
    requires WritesFrom(shard, run, actions, i, run', actions')
    requires var s := run'[|actions'|];
             Clash(s, p, q, b) && Others(s, p, q, b) == {} && Clash(s, q, p, b) && Others(s, q, p, b) == {} && At(s, q, CursorSet)
    ensures WritesFrom(shard, run, actions, i, run'', actions'')
    ensures NoWriter(run''[|actions''|], b) && !Agree(run''[|actions''|], b)
  {
    var s := run'[|actions'|];
    SetterHasSet(shard, run', actions', |actions'|, q, b);
    if At(s, p, CursorSet) && s.lastCursor[b] != CursorOf(s.dispatches[p]) {
      run'', actions'' := CrossAfterSetting(shard, run, actions, i, run', actions', p, q, b);
    } else {
      run'', actions'' := CrossAfterSetting(shard, run, actions, i, run', actions', q, p, b);
    }
  }

  /** A bot one of whose calls has set a cursor has a last cursor. */
  lemma {:induction false} SetterHasSet(shard: string -> nat, run: seq<State>, actions: seq<Action>, i: nat, p: nat, b: string)
    requires IsRun(shard, run, actions) && i < |run| && Setter(run[i], p, b)
    ensures b in run[i].lastCursor
  {
    RunsKeepInv(shard, run, actions, i);
    assert DispatchOk(run[i].dispatches[p]);
    var j := MovedCursorDidMove(shard, run, actions, i, p, b, CursorOf(run[i].dispatches[p]));
    LastCursorsStay(shard, run, actions, j + 1, i, b);
  }

  lemma {:induction false} LastCursorsStay(shard: string -> nat, run: seq<State>, actions: seq<Action>, j: nat, i: nat, b: string)
    requires IsRun(shard, run, actions) && j <= i < |run| && b in run[j].lastCursor
    ensures b in run[i].lastCursor
    decreases i
  {
    if j < i {
      LastCursorsStay(shard, run, actions, j, i - 1, b);
      StepKeepsLastCursors(shard, run[i - 1], actions[i - 1], b);
    }
  }

  lemma StepKeepsLastCursors(shard: string -> nat, s: State, a: Action, b: string)
    requires Enabled(shard, s, a) && b in s.lastCursor
    ensures b in Do(shard, s, a).lastCursor
  {
    match a
    case SetCursor(p) => SetShape(shard, s, p);
    case SaveCursor(p, saves) => SaveShape(shard, s, p, saves);
    case StartFlush(_) =>
    case FlushOne(_) =>
    case _ => OthersLeaveCursors(shard, s, a);
  }

  // ----- Exactly when the two agree -----

  /** In a run whose saves succeed and that no flush interferes with, every schedule of the pending writes leaves the
      bot's last cursor persisted if and only if no two calls of the bot with different cursors were ever about to
      write at once. */
  lemma CursorsAgreeExactlyWithoutOverlap(shard: string -> nat, run: seq<State>, actions: seq<Action>, b: string)
    requires IsRun(shard, run, actions) && Smooth(actions)
    ensures NeverOverlaps(run, b) <==> EveryScheduleAgrees(shard, run, actions, b)
  {
    if NeverOverlaps(run, b) {
      forall i, run', actions' | WritesFrom(shard, run, actions, i, run', actions') && NoWriter(run'[|actions'|], b)
        ensures Agree(run'[|actions'|], b)
      {
        ScheduleIsSmooth(shard, run, actions, i, run', actions');
        forall k | 0 <= k < |run'|
          ensures !Overlap(run'[k], b)
        {
          ScheduleStartsNoOverlap(shard, run, actions, i, run', actions', k, b);
        }
        RunsKeepTidy(shard, run', actions', |actions'|, b);
      }
    } else {
      var i: nat :| i < |run| && Overlap(run[i], b);
      var run', actions' := OverlapMayCross(shard, run, actions, i, b);
      assert WritesFrom(shard, run, actions, i, run', actions');
    }
  }

  // ----- A run that ends with the two different -----

  /** It takes its lock and inserts its tracker. */
  lemma CallStarts(shard: string -> nat, run: seq<State>, actions: seq<Action>, pid: nat, event: Event)
    returns (run': seq<State>, actions': seq<Action>)
    requires IsRun(shard, run, actions) && Smooth(actions)
    requires var s := run[|actions|]; pid !in s.dispatches && shard(event.id) !in s.locks
    ensures IsRun(shard, run', actions') && Smooth(actions')
    ensures var s := run[|actions|];
            run'[|actions'|] == s.(dispatches := s.dispatches[pid := Fresh(event, Collecting)],
                                   locks := s.locks[shard(event.id) := pid],
                                   pending := s.pending[event.id := NewTracker(pid, [])])
  {
    var s := run[|actions|];
    var s1 := Do(shard, s, Spawn(pid, event, []));
    var s2 := LockDone(shard, s1, pid);
    var s3 := InsertDone(s2, pid);
    OneMoreStep(shard, run, actions, Spawn(pid, event, []));
    run', actions' := run + [s1], actions + [Spawn(pid, event, [])];
    OneMoreStep(shard, run', actions', Lock(pid));
    run', actions' := run' + [s2], actions' + [Lock(pid)];
    OneMoreStep(shard, run', actions', Insert(pid));
    run', actions' := run' + [s3], actions' + [Insert(pid)];
    assert s3.dispatches == s.dispatches[pid := Fresh(event, Collecting)];
  }

  /** It leaves the loop at once and removes its tracker. */
  lemma CallLeaves(shard: string -> nat, run: seq<State>, actions: seq<Action>, pid: nat, event: Event)
    returns (run': seq<State>, actions': seq<Action>)
    requires IsRun(shard, run, actions) && Smooth(actions)
    requires var s := run[|actions|]; pid in s.dispatches && s.dispatches[pid] == Fresh(event, Collecting)
    ensures IsRun(shard, run', actions') && Smooth(actions')
    ensures var s := run[|actions|];
            run'[|actions'|] == s.(dispatches := s.dispatches[pid := Fresh(event, Removed)], pending := s.pending - {event.id})
  {
    var s := run[|actions|];
    var s1 := LeaveDone(s, pid, ByCount);
    var s2 := RemoveDone(s1, pid);
    OneMoreStep(shard, run, actions, LeaveByCount(pid));
    run', actions' := run + [s1], actions + [LeaveByCount(pid)];
    OneMoreStep(shard, run', actions', Remove(pid));
    run', actions' := run' + [s2], actions' + [Remove(pid)];
    assert s2.dispatches == s.dispatches[pid := Fresh(event, Removed)];
  }

  lemma CallRuns(shard: string -> nat, run: seq<State>, actions: seq<Action>, pid: nat, event: Event)
    returns (run': seq<State>, actions': seq<Action>)
    requires IsRun(shard, run, actions) && Smooth(actions)
    requires var s := run[|actions|];
             pid !in s.dispatches && shard(event.id) !in s.locks && event.id !in s.pending
    ensures IsRun(shard, run', actions') && Smooth(actions')
    ensures var s := run[|actions|];
            run'[|actions'|] == s.(dispatches := s.dispatches[pid := Fresh(event, Removed)],
                                   locks := s.locks[shard(event.id) := pid])
  {
    ghost var s := run[|actions|];
    run', actions' := CallStarts(shard, run, actions, pid, event);
    run', actions' := CallLeaves(shard, run', actions', pid, event);
    assert s.pending[event.id := NewTracker(pid, [])] - {event.id} == s.pending;
    assert s.dispatches[pid := Fresh(event, Collecting)][pid := Fresh(event, Removed)] == s.dispatches[pid := Fresh(event, Removed)];
  }

  /** Two events of one bot in different shards: the first sets the cursor, the second sets and saves, the first saves.
      Both calls are done, no save has failed, and the database holds the first event's cursor while memory holds
      the second's. */
  lemma CursorWritesMayCross(shard: string -> nat, first: Event, second: Event)
    returns (run: seq<State>, actions: seq<Action>)
    requires shard(first.id) != shard(second.id) && first.bot == second.bot
    requires first.timestamp <= MAX_TIMESTAMP && second.timestamp <= MAX_TIMESTAMP
    requires Cursor(first.npub, first.timestamp) != Cursor(second.npub, second.timestamp)
    ensures IsRun(shard, run, actions) && Smooth(actions)
    ensures var s := run[|actions|];
            && At(s, 0, Done) && At(s, 1, Done) && s.dispatches.Keys == {0, 1}
            && first.bot in s.lastCursor && s.lastCursor[first.bot] == Cursor(second.npub, second.timestamp)
            && first.bot in s.persisted && s.persisted[first.bot] == Cursor(first.npub, first.timestamp)
  {
    var s0 := State(map[], map[], map[], map[], map[], []);
    run, actions := CallRuns(shard, [s0], [], 0, first);
    run, actions := CallRuns(shard, run, actions, 1, second);
    var b, s := first.bot, run[|actions|];
    SetShape(shard, s, 0);
    OneMoreStep(shard, run, actions, SetCursor(0));
    run, actions := run + [Do(shard, s, SetCursor(0))], actions + [SetCursor(0)];
    var last := |actions|;
    assert Clash(run[last], 0, 1, b) && Others(run[last], 0, 1, b) == {};
    var run', actions' := CrossAfterSetting(shard, run, actions, last, run, actions, 0, 1, b);
    ScheduleIsSmooth(shard, run, actions, last, run', actions');
    run, actions := run', actions';
  }

  // ----- What a flush repairs -----

  lemma FlushGoesOn(shard: string -> nat, s0: State, s: State, items: seq<FlushItem>, n: nat, a: Action) returns (n': nat)
    requires Lists(items, s0.lastCursor) && Flushing(s0, s, items, n) && Enabled(shard, s, a)
    requires WritesCursors(a) ==> a == FlushOne(true)
    ensures Flushing(s0, Do(shard, s, a), items, n')
  {
    if WritesCursors(a) {
      n' := n + 1;
      assert items[n] == s.flush[0];
      assert items[n..][1..] == items[n + 1..];
    } else {
      n' := n;
      OthersLeaveCursors(shard, s, a);
    }
  }

  lemma {:induction false} RunFlushes(shard: string -> nat, run: seq<State>, actions: seq<Action>, i: nat, j: nat,
                                      items: seq<FlushItem>) returns (n: nat)
    requires IsRun(shard, run, actions) && i < j < |run| && actions[i] == StartFlush(items)
    requires forall k :: i < k < j && WritesCursors(actions[k]) ==> actions[k] == FlushOne(true)
    ensures Lists(items, run[i].lastCursor) && Flushing(run[i], run[j], items, n)
    decreases j
  {
    if j == i + 1 {
      n := 0;
      assert items[0..] == items;
    } else {
      n := RunFlushes(shard, run, actions, i, j - 1, items);
      n := FlushGoesOn(shard, run[i], run[j - 1], items, n, actions[j - 1]);
    }
  }

  /** In every run, once a flush is through that no cursor write and no failure interfered with, every bot's last
      cursor is the persisted one, whatever had crossed before, and bots without a last cursor are untouched. */
  lemma FlushRepairs(shard: string -> nat, run: seq<State>, actions: seq<Action>, i: nat, j: nat, items: seq<FlushItem>, b: string)
    requires IsRun(shard, run, actions) && i < j < |run| && actions[i] == StartFlush(items) && run[j].flush == []
    requires forall k :: i < k < j && WritesCursors(actions[k]) ==> actions[k] == FlushOne(true)
    ensures run[j].lastCursor == run[i].lastCursor && Agree(run[j], b)
    ensures b !in run[i].lastCursor ==>
              (b in run[j].persisted <==> b in run[i].persisted)
              && (b in run[i].persisted ==> run[j].persisted[b] == run[i].persisted[b])
  {
    var n := RunFlushes(shard, run, actions, i, j, items);
    assert n == |items|;
    if b in run[i].lastCursor {
      var k :| 0 <= k < |items| && items[k].bot == b;
    }
  }

  lemma NoFlushUntilStarted(shard: string -> nat, s: State, a: Action)
    requires Enabled(shard, s, a) && !a.StartFlush? && s.flush == []
    ensures Do(shard, s, a).flush == [] && !a.FlushOne?
  {
  }

  lemma {:induction false} NothingToFlush(shard: string -> nat, run: seq<State>, actions: seq<Action>, j: nat, i: nat)
    requires IsRun(shard, run, actions) && j <= i < |run| && run[j].flush == []
    requires forall k :: j <= k < i ==> !actions[k].StartFlush?
    ensures run[i].flush == []
    decreases i
  {
    if j < i {
      NothingToFlush(shard, run, actions, j, i - 1);
      NoFlushUntilStarted(shard, run[i - 1], actions[i - 1]);
    }
  }

  /** A write that fails ends its flush: nothing more is written until another flush begins. */
  lemma FailureEndsFlush(shard: string -> nat, run: seq<State>, actions: seq<Action>, j: nat, i: nat)
    requires IsRun(shard, run, actions) && j < i < |actions| && actions[j] == FlushOne(false)
    requires forall k :: j < k < i ==> !actions[k].StartFlush?
    ensures run[j + 1].persisted == run[j].persisted && !actions[i].FlushOne?
  {
    NothingToFlush(shard, run, actions, j + 1, i);
  }
}

/** What becomes of a dispatch that nothing gets in the way of, from any state of any run. */
module DispatchCourse {
  import opened Wrappers
  import opened Dispatching
  import opened DispatchProtocol
  import opened DispatchSteps
  import opened DispatchRuns
  import opened CursorWrites

  lemma CallBegins(shard: string -> nat, run: seq<State>, actions: seq<Action>, pid: nat, event: Event, handlers: seq<string>)
    returns (run': seq<State>, actions': seq<Action>)
    requires IsRun(shard, run, actions) && pid !in run[|actions|].dispatches && shard(event.id) !in run[|actions|].locks
    requires Distinct(handlers)
    ensures IsRun(shard, run', actions') && actions' == actions + [Spawn(pid, event, handlers), Lock(pid), Insert(pid)]
    ensures OnlyCall(shard, run[|actions|], run'[|actions'|], pid, Collects(event, handlers, [], []))
  {
    var s := run[|actions|];
    NoTrackerWithoutLock(shard, run, actions, event.id);
    var a1 := Spawn(pid, event, handlers);
    OneMoreStep(shard, run, actions, a1);
    run', actions' := run + [Do(shard, s, a1)], actions + [a1];
    OneMoreStep(shard, run', actions', Lock(pid));
    run', actions' := run' + [Do(shard, run'[|actions'|], Lock(pid))], actions' + [Lock(pid)];
    OneMoreStep(shard, run', actions', Insert(pid));
    run', actions' := run' + [Do(shard, run'[|actions'|], Insert(pid))], actions' + [Insert(pid)];
  }

  /** A tracker's call holds the lock of its event. */
  lemma NoTrackerWithoutLock(shard: string -> nat, run: seq<State>, actions: seq<Action>, id: string)
    requires IsRun(shard, run, actions) && shard(id) !in run[|actions|].locks
    ensures id !in run[|actions|].pending
  {
    RunsKeepInv(shard, run, actions, |actions|);
  }

  lemma NotYetAnswered(event: Event, handlers: seq<string>, answers: seq<Answer>, k: nat)
    requires k < |answers| && FromDistinctHandlers(answers, handlers)
    ensures !Answered(Collects(event, handlers, [], answers[..k]), answers[k].handler)
    ensures answers[k].handler in handlers && answers[..k] + [answers[k]] == answers[..k + 1]
  {
    var d := Collects(event, handlers, [], answers[..k]);
    assert Accepted(d) == answers[..k];
  }

  lemma AnswerIsTaken(shard: string -> nat, s: State, x: State, pid: nat, event: Event, handlers: seq<string>,
                      answers: seq<Answer>, k: nat)
    requires TrackersOk(x) && k < |answers| && FromDistinctHandlers(answers, handlers)
    requires OnlyCall(shard, s, x, pid, Collects(event, handlers, [], answers[..k]))
    ensures OnlyCall(shard, s, RespondDone(x, answers[k].handler, event.id, answers[k].action), pid,
                     Collects(event, handlers, [], answers[..k + 1]))
  {
    NotYetAnswered(event, handlers, answers, k);
    assert Expects(x, pid, answers[k].handler, event.id);
    ExpectedIsAccepted(x, pid, answers[k].handler, event.id);
  }

  lemma AnswerComes(shard: string -> nat, run: seq<State>, actions: seq<Action>, s: State, pid: nat, event: Event,
                    handlers: seq<string>, answers: seq<Answer>, k: nat)
    returns (run': seq<State>, actions': seq<Action>)
    requires IsRun(shard, run, actions) && k < |answers| && FromDistinctHandlers(answers, handlers)
    requires OnlyCall(shard, s, run[|actions|], pid, Collects(event, handlers, [], answers[..k]))
    ensures IsRun(shard, run', actions')
    ensures actions' == actions + [Respond(Some(answers[k].handler), event.id, answers[k].action)]
    ensures OnlyCall(shard, s, run'[|actions'|], pid, Collects(event, handlers, [], answers[..k + 1]))
  {
    var a := Respond(Some(answers[k].handler), event.id, answers[k].action);
    RunsKeepInv(shard, run, actions, |actions|);
    AnswerIsTaken(shard, s, run[|actions|], pid, event, handlers, answers, k);
    OneMoreStep(shard, run, actions, a);
    run', actions' := run + [Do(shard, run[|actions|], a)], actions + [a];
  }

  lemma {:induction false} AnswersCome(shard: string -> nat, run: seq<State>, actions: seq<Action>, s: State, pid: nat,
                                       event: Event, handlers: seq<string>, answers: seq<Answer>, k: nat)
    returns (run': seq<State>, actions': seq<Action>)
    requires IsRun(shard, run, actions) && k <= |answers| && FromDistinctHandlers(answers, handlers)
    requires OnlyCall(shard, s, run[|actions|], pid, Collects(event, handlers, [], answers[..k]))
    ensures IsRun(shard, run', actions')
    ensures OnlyCall(shard, s, run'[|actions'|], pid, Collects(event, handlers, [], answers))
    decreases |answers| - k
  {
    if k == |answers| {
      assert answers[..k] == answers;
      run', actions' := run, actions;
    } else {
      run', actions' := AnswerComes(shard, run, actions, s, pid, event, handlers, answers, k);
      run', actions' := AnswersCome(shard, run', actions', s, pid, event, handlers, answers, k + 1);
    }
  }

  // ----- The loop -----

  /** The call has left the loop, with these responses. */
  ghost predicate LeftWith(shard: string -> nat, s: State, x: State, pid: nat, event: Event, handlers: seq<string>, answers: seq<Answer>)
  {
    && pid in x.dispatches && var d := x.dispatches[pid];
    && OnlyCall(shard, s, x, pid, d) && d.event == event && d.handlers == handlers && d.phase == Left
    && CollectedFrom(|handlers|, answers, d.responses, d.anyDefer)
    && d.exit == Some(ExitOf(|handlers|, d.responses, d.anyDefer))
  }

  lemma ReadsOne(shard: string -> nat, s: State, x: State, pid: nat, event: Event, handlers: seq<string>, answers: seq<Answer>, k: nat)
    requires k < |answers| && k < |handlers| && (forall i :: 0 <= i < k ==> !answers[i].action.Defer?)
    requires OnlyCall(shard, s, x, pid, Collects(event, handlers, answers[..k], answers[k..]))
    ensures !answers[k].action.Defer? ==>
              OnlyCall(shard, s, ReceiveDone(x, pid), pid, Collects(event, handlers, answers[..k + 1], answers[k + 1..]))
    ensures answers[k].action.Defer? ==> LeftWith(shard, s, ReceiveDone(x, pid), pid, event, handlers, answers)
  {
    var channel := answers[k..];
    assert channel[0] == answers[k] && channel[1..] == answers[k + 1..] && answers[..k] + [answers[k]] == answers[..k + 1];
  }

  lemma LeavesLoop(shard: string -> nat, s: State, x: State, pid: nat, event: Event, handlers: seq<string>, answers: seq<Answer>, k: nat)
    requires k <= |answers| && k <= |handlers| && (k == |answers| || k == |handlers|)
    requires forall i :: 0 <= i < k ==> !answers[i].action.Defer?
    requires OnlyCall(shard, s, x, pid, Collects(event, handlers, answers[..k], answers[k..]))
    ensures var exit := if k == |handlers| then ByCount else ByTimeout;
            LeftWith(shard, s, LeaveDone(x, pid, exit), pid, event, handlers, answers)
  {
    assert k == |answers| ==> answers[..k] == answers;
  }

  /** The call reads its answers one by one, and leaves at the first `Defer`, with the last answer or when the time is up. */
  lemma {:induction false} LoopRuns(shard: string -> nat, run: seq<State>, actions: seq<Action>, s: State, pid: nat, event: Event,
                                    handlers: seq<string>, answers: seq<Answer>, k: nat)
    returns (run': seq<State>, actions': seq<Action>)
    requires IsRun(shard, run, actions) && k <= |answers| && k <= |handlers|
    requires forall i :: 0 <= i < k ==> !answers[i].action.Defer?
    requires OnlyCall(shard, s, run[|actions|], pid, Collects(event, handlers, answers[..k], answers[k..]))
    ensures IsRun(shard, run', actions') && LeftWith(shard, s, run'[|actions'|], pid, event, handlers, answers)
    decreases |answers| - k
  {
    var x := run[|actions|];
    if k == |handlers| {
      LeavesLoop(shard, s, x, pid, event, handlers, answers, k);
      OneMoreStep(shard, run, actions, LeaveByCount(pid));
      run', actions' := run + [LeaveDone(x, pid, ByCount)], actions + [LeaveByCount(pid)];
    } else if k == |answers| {
      LeavesLoop(shard, s, x, pid, event, handlers, answers, k);
      OneMoreStep(shard, run, actions, LeaveByTimeout(pid));
      run', actions' := run + [LeaveDone(x, pid, ByTimeout)], actions + [LeaveByTimeout(pid)];
    } else {
      ReadsOne(shard, s, x, pid, event, handlers, answers, k);
      OneMoreStep(shard, run, actions, Receive(pid));
      run', actions' := run + [ReceiveDone(x, pid)], actions + [Receive(pid)];
      if !answers[k].action.Defer? {
        run', actions' := LoopRuns(shard, run', actions', s, pid, event, handlers, answers, k + 1);
      }
    }
  }

  // ----- After the loop -----

  /** Since `s` nothing has happened but this call, and its tracker is gone. */
  ghost predicate TrackerGone(shard: string -> nat, s: State, x: State, pid: nat, d: Dispatch) {
    && x.dispatches == s.dispatches[pid := d] && x.pending == s.pending && x.locks == s.locks[shard(d.event.id) := pid]
    && x.lastCursor == s.lastCursor && x.persisted == s.persisted && x.flush == s.flush
  }

  lemma RemovesTracker(shard: string -> nat, s: State, x: State, pid: nat, d: Dispatch)
    requires OnlyCall(shard, s, x, pid, d) && d.phase == Left
    ensures TrackerGone(shard, s, RemoveDone(x, pid), pid, d.(phase := Removed))
  {
  }

  lemma SetsCursor(shard: string -> nat, s: State, x: State, pid: nat, d: Dispatch)
    requires TrackerGone(shard, s, x, pid, d) && d.phase == Removed && !d.anyDefer && d.event.timestamp <= MAX_TIMESTAMP
    ensures var cursor := s.lastCursor[d.event.bot := Cursor(d.event.npub, d.event.timestamp)];
            && At(SetCursorDone(shard, x, pid), pid, CursorSet)
            && TrackerGone(shard, s.(lastCursor := cursor), SetCursorDone(shard, x, pid), pid, d.(phase := CursorSet))
  {
  }

  lemma SavesCursor(shard: string -> nat, s: State, x: State, pid: nat, d: Dispatch, saves: bool)
    requires TrackerGone(shard, s, x, pid, d) && d.phase == CursorSet && shard(d.event.id) !in s.locks
    ensures var x', cursor := SaveCursorDone(shard, x, pid, saves), Cursor(d.event.npub, d.event.timestamp);
            && x'.dispatches == s.dispatches[pid := d.(phase := Done)] && x'.locks == s.locks && x'.pending == s.pending
            && x'.lastCursor == s.lastCursor && x'.flush == s.flush
            && x'.persisted == if saves then s.persisted[d.event.bot := cursor] else s.persisted
  {
    assert s.locks[shard(d.event.id) := pid] - {shard(d.event.id)} == s.locks;
  }

  lemma CursorStays(shard: string -> nat, s: State, x: State, pid: nat, event: Event, handlers: seq<string>,
                    answers: seq<Answer>, saves: bool)
    requires LeftWith(shard, s, x, pid, event, handlers, answers) && shard(event.id) !in s.locks
    requires x.dispatches[pid].anyDefer || event.timestamp > MAX_TIMESTAMP
    ensures CallDone(s, SetCursorDone(shard, RemoveDone(x, pid), pid), pid, event, handlers, answers, saves)
  {
    RemovesTracker(shard, s, x, pid, x.dispatches[pid]);
    assert s.locks[shard(event.id) := pid] - {shard(event.id)} == s.locks;
  }

  lemma CursorMoves(shard: string -> nat, s: State, x: State, pid: nat, event: Event, handlers: seq<string>,
                    answers: seq<Answer>, saves: bool)
    requires LeftWith(shard, s, x, pid, event, handlers, answers) && shard(event.id) !in s.locks
    requires !x.dispatches[pid].anyDefer && event.timestamp <= MAX_TIMESTAMP
    ensures var x2 := SetCursorDone(shard, RemoveDone(x, pid), pid);
            At(x2, pid, CursorSet) && CallDone(s, SaveCursorDone(shard, x2, pid, saves), pid, event, handlers, answers, saves)
  {
    var d := x.dispatches[pid];
    var x1 := RemoveDone(x, pid);
    RemovesTracker(shard, s, x, pid, d);
    SetsCursor(shard, s, x1, pid, d.(phase := Removed));
    var s' := s.(lastCursor := s.lastCursor[event.bot := Cursor(event.npub, event.timestamp)]);
    SavesCursor(shard, s', SetCursorDone(shard, x1, pid), pid, d.(phase := CursorSet), saves);
  }

  lemma TwoMoreSteps(shard: string -> nat, run: seq<State>, actions: seq<Action>, pid: nat)
    returns (run': seq<State>, actions': seq<Action>)
    requires IsRun(shard, run, actions) && At(run[|actions|], pid, Left)
    ensures IsRun(shard, run', actions') && run'[|actions'|] == SetCursorDone(shard, RemoveDone(run[|actions|], pid), pid)
  {
    var x1 := RemoveDone(run[|actions|], pid);
    OneMoreStep(shard, run, actions, Remove(pid));
    run', actions' := run + [x1], actions + [Remove(pid)];
    OneMoreStep(shard, run', actions', SetCursor(pid));
    run', actions' := run' + [SetCursorDone(shard, x1, pid)], actions' + [SetCursor(pid)];
  }

  /** The tracker goes, the cursor moves unless something was deferred, and the lock is given back. */
  lemma CallEnds(shard: string -> nat, run: seq<State>, actions: seq<Action>, s: State, pid: nat, event: Event,
                 handlers: seq<string>, answers: seq<Answer>, saves: bool)
    returns (run': seq<State>, actions': seq<Action>)
    requires IsRun(shard, run, actions) && shard(event.id) !in s.locks
    requires LeftWith(shard, s, run[|actions|], pid, event, handlers, answers)
    ensures IsRun(shard, run', actions') && CallDone(s, run'[|actions'|], pid, event, handlers, answers, saves)
  {
    var x := run[|actions|];
    run', actions' := TwoMoreSteps(shard, run, actions, pid);
    if x.dispatches[pid].anyDefer || event.timestamp > MAX_TIMESTAMP {
      CursorStays(shard, s, x, pid, event, handlers, answers, saves);
    } else {
      CursorMoves(shard, s, x, pid, event, handlers, answers, saves);
      var x2 := run'[|actions'|];
      OneMoreStep(shard, run', actions', SaveCursor(pid, saves));
      run', actions' := run' + [SaveCursorDone(shard, x2, pid, saves)], actions' + [SaveCursor(pid, saves)];
    }
  }

  /** From any state of any run, a dispatch whose lock is free and whose handlers give these answers in time runs to its end:
      it collects what the loop collects from them, and the cursor moves, in memory and if the database takes it there too,
      unless a `Defer` was among it or the timestamp does not fit. Nothing else is changed. */
  lemma CallRunsItsCourse(shard: string -> nat, run: seq<State>, actions: seq<Action>, pid: nat, event: Event,
                          handlers: seq<string>, answers: seq<Answer>, saves: bool)
    returns (run': seq<State>, actions': seq<Action>)
    requires IsRun(shard, run, actions) && pid !in run[|actions|].dispatches && shard(event.id) !in run[|actions|].locks
    requires Distinct(handlers) && FromDistinctHandlers(answers, handlers)
    ensures IsRun(shard, run', actions')
    ensures CallDone(run[|actions|], run'[|actions'|], pid, event, handlers, answers, saves)
  {
    var s := run[|actions|];
    run', actions' := CallBegins(shard, run, actions, pid, event, handlers);
    assert answers[..0] == [] && answers[0..] == answers;
    run', actions' := AnswersCome(shard, run', actions', s, pid, event, handlers, answers, 0);
    run', actions' := LoopRuns(shard, run', actions', s, pid, event, handlers, answers, 0);
    run', actions' := CallEnds(shard, run', actions', s, pid, event, handlers, answers, saves);
  }

  // ----- A flush that nothing gets in the way of -----

  /** Since `s` only persisted cursors have changed; these are still to be written. */
  ghost predicate OnlyFlush(s: State, x: State, left: seq<FlushItem>) {
    x == s.(persisted := x.persisted, flush := left)
  }

  lemma {:induction false} FlushWrites(shard: string -> nat, run: seq<State>, actions: seq<Action>, s: State, left: seq<FlushItem>)
    returns (run': seq<State>, actions': seq<Action>)
    requires IsRun(shard, run, actions) && OnlyFlush(s, run[|actions|], left)
    ensures IsRun(shard, run', actions') && OnlyFlush(s, run'[|actions'|], [])
    ensures run <= run' && actions <= actions'
    ensures forall k :: |actions| <= k < |actions'| ==> actions'[k] == FlushOne(true)
    decreases |left|
  {
    run', actions' := run, actions;
    if left != [] {
      var x := run[|actions|];
      OneMoreStep(shard, run, actions, FlushOne(true));
      run', actions' := run + [FlushOneDone(x, true)], actions + [FlushOne(true)];
      run', actions' := FlushWrites(shard, run', actions', s, left[1..]);
    }
  }

  /** From any state of any run with no flush under way, a flush of its last cursors, in any order, runs through: every last
      cursor is then persisted, and nothing else is changed. */
  lemma FlushRunsItsCourse(shard: string -> nat, run: seq<State>, actions: seq<Action>, items: seq<FlushItem>)
    returns (run': seq<State>, actions': seq<Action>)
    requires IsRun(shard, run, actions) && run[|actions|].flush == [] && Lists(items, run[|actions|].lastCursor)
    ensures IsRun(shard, run', actions')
    ensures var s := run[|actions|]; run'[|actions'|] == s.(persisted := s.persisted + s.lastCursor)
  {
    var s, a := run[|actions|], StartFlush(items);
    OneMoreStep(shard, run, actions, a);
    var run1, actions1 := run + [Do(shard, s, a)], actions + [a];
    run', actions' := FlushWrites(shard, run1, actions1, s, items);
    var x := run'[|actions'|];
    assert actions'[|actions|] == a && run'[|actions|] == s;
    forall b
      ensures b in x.persisted <==> b in s.persisted + s.lastCursor
      ensures b in x.persisted ==> x.persisted[b] == (s.persisted + s.lastCursor)[b]
    {
      FlushRepairs(shard, run', actions', |actions|, |actions'|, items, b);
    }
    assert x.persisted == s.persisted + s.lastCursor;
  }
}

/** Dispatches, answers and cursors over every run. */
module DispatchRuns {
  import opened Wrappers
  import opened Dispatching
  import opened DispatchProtocol
  import opened DispatchSteps

  lemma {:induction false} RunsKeepInv(shard: string -> nat, run: seq<State>, actions: seq<Action>, i: nat)
    requires IsRun(shard, run, actions) && i < |run|
    ensures Inv(shard, run[0], run[i])
  {
    if i > 0 {
      RunsKeepInv(shard, run, actions, i - 1);
      StepKeepsCalls(shard, run[i - 1], actions[i - 1]);
      CursorsKeep(shard, run[0], run[i - 1], actions[i - 1]);
    }
  }

  /** There is a tracker for an event id exactly while a call owns it, and only one call at a time does. */
  lemma TrackerExactlyWhileOwned(shard: string -> nat, run: seq<State>, actions: seq<Action>, i: nat, id: string)
    requires IsRun(shard, run, actions) && i < |run|
    ensures id in run[i].pending <==> exists pid :: Owns(run[i], pid, id)
    ensures forall pid :: Owns(run[i], pid, id) ==> run[i].pending[id].owner == pid
  {
    var s := run[i];
    RunsKeepInv(shard, run, actions, i);
    if id in s.pending {
      assert Owns(s, s.pending[id].owner, id);
    }
    forall pid | Owns(s, pid, id)
      ensures id in s.pending && s.pending[id].owner == pid
    {
      assert TracksFor(s.pending[id], pid, s.dispatches[pid]);
    }
  }

  /** No insert overwrites a live tracker, and a removal takes away the call's own. */
  lemma InsertNeverOverwrites(shard: string -> nat, run: seq<State>, actions: seq<Action>, i: nat, pid: nat)
    requires IsRun(shard, run, actions) && i < |actions|
    ensures actions[i] == Insert(pid) ==> run[i].dispatches[pid].event.id !in run[i].pending
    ensures actions[i] == Remove(pid) ==>
              var id := run[i].dispatches[pid].event.id; id in run[i].pending && run[i].pending[id].owner == pid
  {
    var s := run[i];
    RunsKeepInv(shard, run, actions, i);
    if actions[i] == Insert(pid) {
      NoTrackerBeforeInsert(shard, s, pid);
    } else if actions[i] == Remove(pid) {
      assert TracksFor(s.pending[s.dispatches[pid].event.id], pid, s.dispatches[pid]);
    }
  }

  /** An answer is accepted exactly when a call for that event is collecting, sent the event to that handler
      and has no answer from it yet. It then goes to the end of that call's channel and nowhere else;
      otherwise nothing changes. */
  lemma AnswersGoToTheirCall(shard: string -> nat, run: seq<State>, actions: seq<Action>, i: nat,
                             handlerId: Option<string>, handler: string, id: string, action: HandlerAction)
    requires IsRun(shard, run, actions) && i < |actions| && actions[i] == Respond(handlerId, id, action)
    requires handlerId == Some(handler) || (handlerId == None && handler == "unknown")
    ensures Accepts(run[i].pending, handler, id) <==> exists pid :: Expects(run[i], pid, handler, id)
    ensures forall pid :: Expects(run[i], pid, handler, id) ==>
              var d := run[i].dispatches[pid];
              run[i + 1].dispatches == run[i].dispatches[pid := d.(channel := d.channel + [Answer(handler, action)])]
    ensures !(exists pid :: Expects(run[i], pid, handler, id)) ==> run[i + 1] == run[i]
  {
    var s := run[i];
    RunsKeepInv(shard, run, actions, i);
    if Accepts(s.pending, handler, id) {
      AcceptedFor(s, handler, id, action);
      assert Expects(s, s.pending[id].owner, handler, id);
    }
    forall pid | Expects(s, pid, handler, id)
      ensures Accepts(s.pending, handler, id) && s.pending[id].owner == pid
    {
      ExpectedIsAccepted(s, pid, handler, id);
    }
  }

  lemma ExpectedIsAccepted(s: State, pid: nat, handler: string, id: string)
    requires TrackersOk(s) && Expects(s, pid, handler, id)
    ensures Accepts(s.pending, handler, id) && s.pending[id].owner == pid
  {
    assert TracksFor(s.pending[id], pid, s.dispatches[pid]);
    assert Count(s.pending[id], handler) == if Answered(s.dispatches[pid], handler) then 1 else 0;
  }

  lemma CallStepsLeaveAnswers(shard: string -> nat, s: State, a: Action, pid: nat)
    requires Enabled(shard, s, a) && pid in s.dispatches && !WritesCursors(a) && !a.Respond? && !a.Receive?
    ensures var s' := Do(shard, s, a);
            && pid in s'.dispatches && s'.dispatches[pid].read == s.dispatches[pid].read
            && s'.dispatches[pid].channel == s.dispatches[pid].channel
  {
  }

  lemma RespondAddsAnswers(s: State, handler: string, id: string, action: HandlerAction, pid: nat)
    requires TrackersOk(s) && DispatchesOk(s) && pid in s.dispatches
    ensures var s' := RespondDone(s, handler, id, action);
            pid in s'.dispatches && Accepted(s.dispatches[pid]) <= Accepted(s'.dispatches[pid])
  {
    if Accepts(s.pending, handler, id) {
      AcceptedFor(s, handler, id, action);
      OneMoreAnswer(s.dispatches[s.pending[id].owner], Answer(handler, action));
    }
  }

  lemma ReceiveKeepsAnswers(s: State, pid: nat)
    requires At(s, pid, Collecting) && s.dispatches[pid].channel != []
    ensures forall q :: q in s.dispatches ==>
              q in ReceiveDone(s, pid).dispatches && Accepted(ReceiveDone(s, pid).dispatches[q]) == Accepted(s.dispatches[q])
  {
    assert Accepted(ReceiveDone(s, pid).dispatches[pid]) == Accepted(s.dispatches[pid]);
  }

  lemma StepAnswers(shard: string -> nat, s: State, a: Action, pid: nat)
    requires TrackersOk(s) && DispatchesOk(s) && Enabled(shard, s, a) && pid in s.dispatches
    ensures var s' := Do(shard, s, a);
            pid in s'.dispatches && Accepted(s.dispatches[pid]) <= Accepted(s'.dispatches[pid])
  {
    if a.Respond? {
      RespondAddsAnswers(s, Sender(a.handlerId), a.id, a.action, pid);
    } else if a.Receive? {
      ReceiveKeepsAnswers(s, a.pid);
    } else {
      if WritesCursors(a) {
        CursorStepRecords(shard, s, a, pid);
      } else {
        CallStepsLeaveAnswers(shard, s, a, pid);
      }
    }
  }

  /** Accepted answers are neither lost, reordered nor repeated on their way to the call. */
  lemma {:induction false} AnswersArriveInOrder(shard: string -> nat, run: seq<State>, actions: seq<Action>,
                                                i: nat, j: nat, pid: nat)
    requires IsRun(shard, run, actions) && i <= j < |run| && pid in run[i].dispatches
    ensures pid in run[j].dispatches && Accepted(run[i].dispatches[pid]) <= Accepted(run[j].dispatches[pid])
    ensures run[j].dispatches[pid].read <= Accepted(run[j].dispatches[pid])
    decreases j
  {
    if i < j {
      AnswersArriveInOrder(shard, run, actions, i, j - 1, pid);
      RunsKeepInv(shard, run, actions, j - 1);
      StepAnswers(shard, run[j - 1], actions[j - 1], pid);
    }
  }

  /** What a call has collected: answers from pairwise distinct handlers it was sent to, none of them `Defer`,
      and exactly what the sequential loop collects from the same answers. */
  lemma ResponsesAreDistinct(shard: string -> nat, run: seq<State>, actions: seq<Action>, i: nat, pid: nat)
    requires IsRun(shard, run, actions) && i < |run| && pid in run[i].dispatches
    ensures var d := run[i].dispatches[pid];
            && FromDistinctHandlers(d.responses, d.handlers)
            && (forall k :: 0 <= k < |d.responses| ==> !d.responses[k].action.Defer?)
            && CollectedFrom(|d.handlers|, d.read, d.responses, d.anyDefer)
  {
    RunsKeepInv(shard, run, actions, i);
    var d := run[i].dispatches[pid];
    assert DispatchOk(d);
    assert forall k :: 0 <= k < |d.responses| ==> d.responses[k] == d.read[k] == Accepted(d)[k];
  }

  // Counting distinct handlers.

  function Handlers(answers: seq<Answer>): (r: seq<string>)
    ensures |r| == |answers| && forall i :: 0 <= i < |r| ==> r[i] == answers[i].handler
  {
    if answers == [] then [] else [answers[0].handler] + Handlers(answers[1..])
  }

  lemma {:induction false} DistinctSize(s: seq<string>)
    requires Distinct(s)
    ensures |Range(s)| == |s|
  {
    if s != [] {
      DistinctSize(s[1..]);
      assert Range(s) == Range(s[1..]) + {s[0]};
    }
  }

  lemma SubsetOfSameSize(a: set<string>, b: set<string>)
    requires a <= b && |b| <= |a|
    ensures a == b
  {
    assert |b - a| == |b| - |a|;
  }

  /** A full house: as many distinct handlers as the event was sent to are all of them. */
  lemma FullHouse(answers: seq<Answer>, handlers: seq<string>)
    requires Distinct(handlers) && FromDistinctHandlers(answers, handlers)
    ensures |answers| <= |handlers|
    ensures |answers| == |handlers| ==> Range(Handlers(answers)) == Range(handlers)
  {
    var given := Handlers(answers);
    DistinctSize(given);
    DistinctSize(handlers);
    assert Range(given) <= Range(handlers);
    SetsShrink(Range(given), Range(handlers));
    if |answers| == |handlers| {
      SubsetOfSameSize(Range(given), Range(handlers));
    }
  }

  lemma SetsShrink(a: set<string>, b: set<string>)
    requires a <= b
    ensures |a| <= |b|
  {
    assert |b| == |a| + |b - a| by {
      assert b == a + (b - a);
    }
  }

  /** Leaving the loop by count means that every handler the event was sent to answered once, none deferred,
      and no answer is left unread. */
  lemma ByCountEveryoneAnswered(shard: string -> nat, run: seq<State>, actions: seq<Action>, i: nat, pid: nat)
    requires IsRun(shard, run, actions) && i < |run| && pid in run[i].dispatches
    requires run[i].dispatches[pid].exit == Some(ByCount)
    ensures var d := run[i].dispatches[pid];
            && Range(Handlers(d.responses)) == Range(d.handlers) && |d.responses| == |d.handlers|
            && Accepted(d) == d.responses
            && forall k :: 0 <= k < |Accepted(d)| ==> !Accepted(d)[k].action.Defer?
  {
    ResponsesAreDistinct(shard, run, actions, i, pid);
    RunsKeepInv(shard, run, actions, i);
    var d := run[i].dispatches[pid];
    assert DispatchOk(d);
    FullHouse(d.responses, d.handlers);
    FullHouse(Accepted(d), d.handlers);
    assert Accepted(d) == d.responses;
  }

  /** Every cursor in memory or in the database was there before the run, or belongs to an event whose call received
      no `Defer`. If a `Defer` was accepted for it nevertheless, the call had run out of time. */
  lemma CursorMeansNoDefer(shard: string -> nat, run: seq<State>, actions: seq<Action>, i: nat, b: string, c: Cursor)
    requires IsRun(shard, run, actions) && i < |run|
    requires || (b in run[i].lastCursor && run[i].lastCursor[b] == c)
             || (b in run[i].persisted && run[i].persisted[b] == c && !(b in run[0].persisted && run[0].persisted[b] == c))
    ensures exists pid :: MovedCursor(run[i], pid, b, c)
    ensures forall pid :: MovedCursor(run[i], pid, b, c) ==>
              var d := run[i].dispatches[pid];
              && (forall k :: 0 <= k < |d.read| ==> !d.read[k].action.Defer?)
              && (Deferred(d) ==> d.exit == Some(ByTimeout))
  {
    var s := run[i];
    RunsKeepInv(shard, run, actions, i);
    assert Earned(s, b, c);
    forall pid | MovedCursor(s, pid, b, c)
      ensures var d := s.dispatches[pid];
              && (forall k :: 0 <= k < |d.read| ==> !d.read[k].action.Defer?)
              && (Deferred(d) ==> d.exit == Some(ByTimeout))
    {
      var d := s.dispatches[pid];
      assert DispatchOk(d);
      assert d.read == d.responses;
      match d.exit.value
      case ByCount => ByCountEveryoneAnswered(shard, run, actions, i, pid);
      case ByTimeout =>
      case ByDefer =>
    }
  }

  lemma {:induction false} FirstMoved(run: seq<State>, i: nat, pid: nat, b: string, c: Cursor) returns (j: nat)
    requires i < |run| && MovedCursor(run[i], pid, b, c) && !MovedCursor(run[0], pid, b, c)
    ensures j < i && !MovedCursor(run[j], pid, b, c) && MovedCursor(run[j + 1], pid, b, c)
  {
    if MovedCursor(run[i - 1], pid, b, c) {
      j := FirstMoved(run, i - 1, pid, b, c);
    } else {
      j := i - 1;
    }
  }

  /** `MovedCursor` reads only the call's record; here is the step at which it wrote the cursor. */
  lemma MovedCursorDidMove(shard: string -> nat, run: seq<State>, actions: seq<Action>, i: nat,
                           pid: nat, b: string, c: Cursor) returns (j: nat)
    requires IsRun(shard, run, actions) && i < |run| && MovedCursor(run[i], pid, b, c)
    ensures j < i && actions[j] == SetCursor(pid)
    ensures b in run[j + 1].lastCursor && run[j + 1].lastCursor[b] == c
  {
    j := FirstMoved(run, i, pid, b, c);
    MovedCursorStartsAt(shard, run, actions, j, pid, b, c);
  }

  lemma MovedCursorStartsAt(shard: string -> nat, run: seq<State>, actions: seq<Action>, j: nat, pid: nat, b: string, c: Cursor)
    requires IsRun(shard, run, actions) && j < |actions|
    ensures MovedCursor(run[j + 1], pid, b, c) && !MovedCursor(run[j], pid, b, c) ==>
              actions[j] == SetCursor(pid) && b in run[j + 1].lastCursor && run[j + 1].lastCursor[b] == c
  {
    RunsKeepInv(shard, run, actions, j);
    MovedCursorStarts(shard, run[j], actions[j], pid, b, c);
  }

  lemma MovedCursorStarts(shard: string -> nat, s: State, a: Action, pid: nat, b: string, c: Cursor)
    requires CallsOk(shard, s) && Enabled(shard, s, a)
    ensures MovedCursor(Do(shard, s, a), pid, b, c) && !MovedCursor(s, pid, b, c) ==>
              a == SetCursor(pid) && b in Do(shard, s, a).lastCursor && Do(shard, s, a).lastCursor[b] == c
  {
    if !MovedCursor(Do(shard, s, a), pid, b, c) || MovedCursor(s, pid, b, c) {
      return;
    }
    if a.Respond? {
      RespondMovesNone(s, Sender(a.handlerId), a.id, a.action, pid, b, c);
    } else if !WritesCursors(a) {
      CallsMoveNone(shard, s, a, pid, b, c);
    } else {
      CursorStepMoves(shard, s, a, pid, b, c);
    }
  }

  lemma RespondMovesNone(s: State, handler: string, id: string, action: HandlerAction, pid: nat, b: string, c: Cursor)
    requires TrackersOk(s) && MovedCursor(RespondDone(s, handler, id, action), pid, b, c)
    ensures MovedCursor(s, pid, b, c)
  {
  }

  lemma CallsMoveNone(shard: string -> nat, s: State, a: Action, pid: nat, b: string, c: Cursor)
    requires Enabled(shard, s, a) && !WritesCursors(a) && !a.Respond? && MovedCursor(Do(shard, s, a), pid, b, c)
    ensures MovedCursor(s, pid, b, c)
  {
  }

  lemma SetCursorMoves(shard: string -> nat, s: State, p: nat, pid: nat, b: string, c: Cursor)
    requires DispatchesOk(s) && At(s, p, Removed)
    requires MovedCursor(SetCursorDone(shard, s, p), pid, b, c) && !MovedCursor(s, pid, b, c)
    ensures pid == p && var s' := SetCursorDone(shard, s, p); b in s'.lastCursor && s'.lastCursor[b] == c
  {
    assert DispatchOk(s.dispatches[pid]);
    SetShape(shard, s, p);
  }

  lemma SaveCursorMovesNone(shard: string -> nat, s: State, p: nat, saves: bool, pid: nat, b: string, c: Cursor)
    requires At(s, p, CursorSet) && MovedCursor(SaveCursorDone(shard, s, p, saves), pid, b, c)
    ensures MovedCursor(s, pid, b, c)
  {
    SaveShape(shard, s, p, saves);
  }

  lemma CursorStepMoves(shard: string -> nat, s: State, a: Action, pid: nat, b: string, c: Cursor)
    requires DispatchesOk(s) && Enabled(shard, s, a) && WritesCursors(a)
    requires MovedCursor(Do(shard, s, a), pid, b, c) && !MovedCursor(s, pid, b, c)
    ensures a == SetCursor(pid) && b in Do(shard, s, a).lastCursor && Do(shard, s, a).lastCursor[b] == c
  {
    match a
    case SetCursor(p) => SetCursorMoves(shard, s, p, pid, b, c);
    case SaveCursor(p, saves) => SaveCursorMovesNone(shard, s, p, saves, pid, b, c);
    case StartFlush(_) =>
    case FlushOne(_) =>
  }

  /** A call that is done with a `Defer` accepted for it has moved the cursor past the event all the same
      exactly when it left the loop because the time was up. */
  lemma DeferLostExactlyAtTimeout(shard: string -> nat, run: seq<State>, actions: seq<Action>, i: nat, pid: nat)
    requires IsRun(shard, run, actions) && i < |run| && At(run[i], pid, Done)
    requires Deferred(run[i].dispatches[pid]) && run[i].dispatches[pid].event.timestamp <= MAX_TIMESTAMP
    ensures var d := run[i].dispatches[pid];
            MovedCursor(run[i], pid, d.event.bot, Cursor(d.event.npub, d.event.timestamp)) <==> d.exit == Some(ByTimeout)
  {
    RunsKeepInv(shard, run, actions, i);
    var d := run[i].dispatches[pid];
    assert DispatchOk(d);
    match d.exit.value
    case ByCount => ByCountEveryoneAnswered(shard, run, actions, i, pid);
    case ByTimeout =>
    case ByDefer =>
  }

  // ----- Where the code promises less -----

  lemma OneMoreStep(shard: string -> nat, run: seq<State>, actions: seq<Action>, a: Action)
    requires IsRun(shard, run, actions) && Enabled(shard, run[|actions|], a)
    ensures IsRun(shard, run + [Do(shard, run[|actions|], a)], actions + [a])
  {
    var run', actions' := run + [Do(shard, run[|actions|], a)], actions + [a];
    forall i | 0 <= i < |actions'|
      ensures Enabled(shard, run'[i], actions'[i]) && run'[i + 1] == Do(shard, run'[i], actions'[i])
    {
      assert i < |actions| ==> run'[i] == run[i] && run'[i + 1] == run[i + 1] && actions'[i] == actions[i];
    }
  }

  /** A call for an event sent to one handler that has not answered in time. */
  lemma NoAnswerInTime(shard: string -> nat, event: Event, handler: string) returns (run: seq<State>, actions: seq<Action>)
    ensures IsRun(shard, run, actions)
    ensures run[|actions|] == State(map[0 := Dispatch(event, [handler], Left, [], [], false, [], Some(ByTimeout))],
                                    map[shard(event.id) := 0], map[event.id := NewTracker(0, [handler])], map[], map[], [])
  {
    var s0 := State(map[], map[], map[], map[], map[], []);
    var s1 := Do(shard, s0, Spawn(0, event, [handler]));
    var s2 := LockDone(shard, s1, 0);
    var s3 := InsertDone(s2, 0);
    var s4 := LeaveDone(s3, 0, ByTimeout);
    run, actions := [s0], [];
    OneMoreStep(shard, run, actions, Spawn(0, event, [handler]));
    run, actions := run + [s1], actions + [Spawn(0, event, [handler])];
    OneMoreStep(shard, run, actions, Lock(0));
    run, actions := run + [s2], actions + [Lock(0)];
    OneMoreStep(shard, run, actions, Insert(0));
    run, actions := run + [s3], actions + [Insert(0)];
    OneMoreStep(shard, run, actions, LeaveByTimeout(0));
    run, actions := run + [s4], actions + [LeaveByTimeout(0)];
  }

  /** A handler's `Defer` is accepted now, and the tracker goes. */
  lemma DeferComesLate(shard: string -> nat, event: Event, handler: string) returns (run: seq<State>, actions: seq<Action>)
    ensures IsRun(shard, run, actions)
    ensures run[|actions|] == State(map[0 := Dispatch(event, [handler], Removed, [Answer(handler, Defer)], [], false, [], Some(ByTimeout))],
                                    map[shard(event.id) := 0], map[], map[], map[], [])
  {
    run, actions := NoAnswerInTime(shard, event, handler);
    assert handler in NewTracker(0, [handler]).handlerIds by {
      assert handler == [handler][0];
    }
    var s5 := RespondDone(run[|actions|], handler, event.id, Defer);
    var s6 := RemoveDone(s5, 0);
    OneMoreStep(shard, run, actions, Respond(Some(handler), event.id, Defer));
    run, actions := run + [s5], actions + [Respond(Some(handler), event.id, Defer)];
    OneMoreStep(shard, run, actions, Remove(0));
    run, actions := run + [s6], actions + [Remove(0)];
    assert s6.pending == map[] && s6.dispatches[0].channel == [] + [Answer(handler, Defer)] == [Answer(handler, Defer)];
    assert s6.dispatches == map[0 := Dispatch(event, [handler], Removed, [Answer(handler, Defer)], [], false, [], Some(ByTimeout))];
  }

  /** A `Defer` accepted before the tracker is gone but not read by the deadline is never read: the handler is
      told that all went well, and the cursor moves past the event it wanted to keep. */
  lemma LateDeferIsLost(shard: string -> nat, event: Event, handler: string) returns (run: seq<State>, actions: seq<Action>)
    requires event.timestamp <= MAX_TIMESTAMP
    ensures IsRun(shard, run, actions)
    ensures var s := run[|actions|];
            && 0 in s.dispatches && s.dispatches[0].event == event && Deferred(s.dispatches[0])
            && event.bot in s.persisted && s.persisted[event.bot] == Cursor(event.npub, event.timestamp)
  {
    run, actions := DeferComesLate(shard, event, handler);
    var s7 := SetCursorDone(shard, run[|actions|], 0);
    var s8 := SaveCursorDone(shard, s7, 0, true);
    OneMoreStep(shard, run, actions, SetCursor(0));
    run, actions := run + [s7], actions + [SetCursor(0)];
    OneMoreStep(shard, run, actions, SaveCursor(0, true));
    run, actions := run + [s8], actions + [SaveCursor(0, true)];
    assert Accepted(s8.dispatches[0])[0] == Answer(handler, Defer);
  }
}

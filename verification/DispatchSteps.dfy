/** Every step of dispatches and answers keeps what they rely on. */
module DispatchSteps {
  import opened Wrappers
  import opened Dispatching
  import opened DispatchProtocol

  // ----- Calls, locks and trackers -----

  lemma SameAnswers(d: Dispatch, d': Dispatch)
    requires d'.read == d.read && d'.channel == d.channel
    ensures Accepted(d') == Accepted(d) && forall h :: Answered(d', h) <==> Answered(d, h)
  {
    forall h
      ensures Answered(d', h) <==> Answered(d, h)
    {
      assert Accepted(d') == Accepted(d);
    }
  }

  lemma GoingOnKeepsTrackers(s: State, s': State, pid: nat)
    requires TrackersOk(s) && GoesOn(s, s', pid)
    ensures TrackersOk(s')
  {
    var d, d' := s.dispatches[pid], s'.dispatches[pid];
    SameAnswers(d, d');
    if Tracked(d.phase) {
      assert TracksFor(s.pending[d.event.id], pid, d);
      assert TracksFor(s.pending[d.event.id], pid, d');
    }
  }

  lemma GoingOnKeeps(shard: string -> nat, s: State, s': State, pid: nat)
    requires CallsOk(shard, s) && GoesOn(s, s', pid) && LocksHeld(shard, s') && DispatchOk(s'.dispatches[pid])
    ensures CallsOk(shard, s')
  {
    GoingOnKeepsTrackers(s, s', pid);
  }

  lemma LocksStay(shard: string -> nat, s: State, s': State, pid: nat)
    requires LocksHeld(shard, s) && pid in s.dispatches && pid in s'.dispatches && s'.locks == s.locks
    requires s'.dispatches == s.dispatches[pid := s'.dispatches[pid]]
    requires s'.dispatches[pid].event == s.dispatches[pid].event
    requires HoldsLock(s'.dispatches[pid].phase) ==> HoldsLock(s.dispatches[pid].phase)
    ensures LocksHeld(shard, s')
  {
  }

  lemma LockGiven(shard: string -> nat, s: State, s': State, pid: nat)
    requires LocksHeld(shard, s) && pid in s.dispatches && HoldsLock(s.dispatches[pid].phase)
    requires pid in s'.dispatches && s'.dispatches == s.dispatches[pid := s'.dispatches[pid]]
    requires s'.locks == s.locks - {shard(s.dispatches[pid].event.id)} && !HoldsLock(s'.dispatches[pid].phase)
    ensures LocksHeld(shard, s')
  {
  }

  lemma SpawnKeeps(shard: string -> nat, s: State, pid: nat, event: Event, handlers: seq<string>)
    requires CallsOk(shard, s) && pid !in s.dispatches && Distinct(handlers)
    ensures CallsOk(shard, Moved(s, pid, Dispatch(event, handlers, Waiting, [], [], false, [], None)))
  {
    var d := Dispatch(event, handlers, Waiting, [], [], false, [], None);
    assert Accepted(d) == [];
    assert DispatchOk(d);
  }

  lemma LockKeeps(shard: string -> nat, s: State, pid: nat)
    requires CallsOk(shard, s) && At(s, pid, Waiting) && shard(s.dispatches[pid].event.id) !in s.locks
    ensures CallsOk(shard, LockDone(shard, s, pid))
  {
    var s' := LockDone(shard, s, pid);
    assert DispatchOk(s.dispatches[pid]);
    assert LocksHeld(shard, s');
    GoingOnKeeps(shard, s, s', pid);
  }

  lemma LeaveKeeps(shard: string -> nat, s: State, pid: nat, exit: Exit)
    requires CallsOk(shard, s) && At(s, pid, Collecting) && !exit.ByDefer?
    requires exit.ByCount? <==> |s.dispatches[pid].responses| >= |s.dispatches[pid].handlers|
    ensures CallsOk(shard, LeaveDone(s, pid, exit))
  {
    var s' := LeaveDone(s, pid, exit);
    assert DispatchOk(s.dispatches[pid]);
    SameAnswers(s.dispatches[pid], s'.dispatches[pid]);
    LocksStay(shard, s, s', pid);
    GoingOnKeeps(shard, s, s', pid);
  }

  /** The end of a call that moves no cursor. */
  lemma EndKeeps(shard: string -> nat, s: State, pid: nat)
    requires CallsOk(shard, s) && At(s, pid, Removed)
    requires var d := s.dispatches[pid]; d.anyDefer || d.event.timestamp > MAX_TIMESTAMP
    ensures CallsOk(shard, SetCursorDone(shard, s, pid))
  {
    var s' := SetCursorDone(shard, s, pid);
    assert DispatchOk(s.dispatches[pid]);
    SameAnswers(s.dispatches[pid], s'.dispatches[pid]);
    LockGiven(shard, s, s', pid);
    GoingOnKeeps(shard, s, s', pid);
  }

  lemma SetCursorKeeps(shard: string -> nat, s: State, pid: nat)
    requires CallsOk(shard, s) && At(s, pid, Removed)
    requires var d := s.dispatches[pid]; !d.anyDefer && d.event.timestamp <= MAX_TIMESTAMP
    ensures CallsOk(shard, SetCursorDone(shard, s, pid))
  {
    var s' := SetCursorDone(shard, s, pid);
    assert DispatchOk(s.dispatches[pid]);
    SameAnswers(s.dispatches[pid], s'.dispatches[pid]);
    LocksStay(shard, s, s', pid);
    GoingOnKeeps(shard, s, s', pid);
  }

  lemma SaveCursorKeeps(shard: string -> nat, s: State, pid: nat, saves: bool)
    requires CallsOk(shard, s) && At(s, pid, CursorSet)
    ensures CallsOk(shard, SaveCursorDone(shard, s, pid, saves))
  {
    var s' := SaveCursorDone(shard, s, pid, saves);
    assert DispatchOk(s.dispatches[pid]);
    SameAnswers(s.dispatches[pid], s'.dispatches[pid]);
    LockGiven(shard, s, s', pid);
    GoingOnKeeps(shard, s, s', pid);
  }

  /** Two calls for one event id are never both past the lock. */
  lemma OneHolder(shard: string -> nat, s: State, p: nat, q: nat)
    requires LocksHeld(shard, s) && p in s.dispatches && q in s.dispatches
    requires HoldsLock(s.dispatches[p].phase) && HoldsLock(s.dispatches[q].phase)
    requires s.dispatches[p].event.id == s.dispatches[q].event.id
    ensures p == q
  {
  }

  lemma NoTrackerBeforeInsert(shard: string -> nat, s: State, pid: nat)
    requires LocksHeld(shard, s) && TrackersOk(s) && At(s, pid, Locked)
    ensures s.dispatches[pid].event.id !in s.pending
  {
    var id := s.dispatches[pid].event.id;
    if id in s.pending {
      OneHolder(shard, s, pid, s.pending[id].owner);
      assert false;
    }
  }

  lemma InsertKeeps(shard: string -> nat, s: State, pid: nat)
    requires CallsOk(shard, s) && At(s, pid, Locked)
    ensures CallsOk(shard, InsertDone(s, pid))
  {
    var s', d := InsertDone(s, pid), s.dispatches[pid];
    NoTrackerBeforeInsert(shard, s, pid);
    assert DispatchOk(d);
    assert Accepted(s'.dispatches[pid]) == Accepted(d) == [];
    LocksStay(shard, s, s', pid);
  }

  lemma RemoveKeepsTrackers(shard: string -> nat, s: State, pid: nat)
    requires LocksHeld(shard, s) && TrackersOk(s) && At(s, pid, Left)
    ensures TrackersOk(RemoveDone(s, pid))
  {
    var s', id := RemoveDone(s, pid), s.dispatches[pid].event.id;
    forall q | q in s'.dispatches && Tracked(s'.dispatches[q].phase)
      ensures s'.dispatches[q].event.id in s'.pending
      ensures TracksFor(s'.pending[s'.dispatches[q].event.id], q, s'.dispatches[q])
    {
      assert TracksFor(s.pending[s.dispatches[q].event.id], q, s.dispatches[q]);
      if s.dispatches[q].event.id == id {
        OneHolder(shard, s, pid, q);
      }
    }
    assert TracksFor(s.pending[id], pid, s.dispatches[pid]);
  }

  lemma RemoveKeeps(shard: string -> nat, s: State, pid: nat)
    requires CallsOk(shard, s) && At(s, pid, Left)
    ensures CallsOk(shard, RemoveDone(s, pid))
  {
    var s', d := RemoveDone(s, pid), s.dispatches[pid];
    RemoveKeepsTrackers(shard, s, pid);
    assert DispatchOk(d);
    SameAnswers(d, s'.dispatches[pid]);
    LocksStay(shard, s, s', pid);
  }

  /** An accepted answer goes to the one call whose tracker it is. */
  lemma AcceptedFor(s: State, handler: string, id: string, action: HandlerAction)
    requires TrackersOk(s) && DispatchesOk(s) && Accepts(s.pending, handler, id)
    ensures var pid, s' := s.pending[id].owner, RespondDone(s, handler, id, action);
            && pid in s.dispatches && var d := s.dispatches[pid];
            && Tracked(d.phase) && d.event.id == id && handler in d.handlers && !Answered(d, handler)
            && s' == Moved(s, pid, d.(channel := d.channel + [Answer(handler, action)]))
                     .(pending := WithResponse(s.pending, handler, id))
  {
    var t := s.pending[id];
    assert TracksFor(t, t.owner, s.dispatches[t.owner]);
    assert Count(t, handler) == if Answered(s.dispatches[t.owner], handler) then 1 else 0;
  }

  lemma OneMoreAnswer(d: Dispatch, answer: Answer)
    ensures var d' := d.(channel := d.channel + [answer]);
            && Accepted(d') == Accepted(d) + [answer]
            && forall h :: Answered(d', h) <==> Answered(d, h) || h == answer.handler
  {
    var d' := d.(channel := d.channel + [answer]);
    assert Accepted(d') == Accepted(d) + [answer];
    forall h
      ensures Answered(d', h) <==> Answered(d, h) || h == answer.handler
    {
      if h == answer.handler {
        assert Accepted(d')[|Accepted(d)|].handler == h;
      }
      if Answered(d, h) {
        var i :| 0 <= i < |Accepted(d)| && Accepted(d)[i].handler == h;
        assert Accepted(d')[i].handler == h;
      }
    }
  }

  lemma OneMoreIsDistinct(d: Dispatch, answer: Answer)
    requires FromDistinctHandlers(Accepted(d), d.handlers) && answer.handler in d.handlers && !Answered(d, answer.handler)
    ensures FromDistinctHandlers(Accepted(d) + [answer], d.handlers)
  {
  }

  lemma OneMoreCounted(pending: map<string, Tracker>, pid: nat, d: Dispatch, answer: Answer)
    requires d.event.id in pending && TracksFor(pending[d.event.id], pid, d) && !Answered(d, answer.handler)
    ensures TracksFor(WithResponse(pending, answer.handler, d.event.id)[d.event.id], pid,
                      d.(channel := d.channel + [answer]))
  {
    OneMoreAnswer(d, answer);
    var t, t' := pending[d.event.id], WithResponse(pending, answer.handler, d.event.id)[d.event.id];
    assert forall h :: Count(t', h) == if h == answer.handler then Count(t, h) + 1 else Count(t, h);
  }

  lemma RespondKeeps(shard: string -> nat, s: State, handler: string, id: string, action: HandlerAction)
    requires CallsOk(shard, s)
    ensures CallsOk(shard, RespondDone(s, handler, id, action))
  {
    if Accepts(s.pending, handler, id) {
      var s', pid := RespondDone(s, handler, id, action), s.pending[id].owner;
      var d, answer := s.dispatches[pid], Answer(handler, action);
      AcceptedFor(s, handler, id, action);
      assert TracksFor(s.pending[id], pid, d) && DispatchOk(d);
      OneMoreAnswer(d, answer);
      OneMoreIsDistinct(d, answer);
      OneMoreCounted(s.pending, pid, d, answer);
      LocksStay(shard, s, s', pid);
      assert DispatchOk(s'.dispatches[pid]);
      TrackerMoves(s, s', pid);
    }
  }

  /** The tracker of one call and its answers change together. */
  lemma TrackerMoves(s: State, s': State, pid: nat)
    requires TrackersOk(s) && pid in s.dispatches && pid in s'.dispatches
    requires s'.dispatches == s.dispatches[pid := s'.dispatches[pid]]
    requires var d, d' := s.dispatches[pid], s'.dispatches[pid];
             && Tracked(d.phase) && Tracked(d'.phase) && d'.event == d.event
             && d.event.id in s'.pending && s'.pending == s.pending[d.event.id := s'.pending[d.event.id]]
             && TracksFor(s'.pending[d.event.id], pid, d')
    ensures TrackersOk(s')
  {
    assert s.pending[s.dispatches[pid].event.id].owner == pid;
    forall q | q in s.dispatches && q != pid && Tracked(s.dispatches[q].phase)
      ensures s.dispatches[q].event.id != s.dispatches[pid].event.id
    {
      assert TracksFor(s.pending[s.dispatches[q].event.id], q, s.dispatches[q]);
    }
  }

  /** What one more answer taken from the channel makes of a call. */
  lemma ReceivedIsOk(d: Dispatch, d': Dispatch)
    requires DispatchOk(d) && d.phase == Collecting && |d.responses| < |d.handlers| && d.channel != []
    requires var answer := d.channel[0];
             var read := d.(channel := d.channel[1..], read := d.read + [answer]);
             d' == if answer.action.Defer? then read.(anyDefer := true, phase := Left, exit := Some(ByDefer))
                   else read.(responses := d.responses + [answer])
    ensures DispatchOk(d') && Accepted(d') == Accepted(d)
  {
    assert Accepted(d') == Accepted(d);
    assert d.responses == d.read;
  }

  lemma ReceiveKeeps(shard: string -> nat, s: State, pid: nat)
    requires CallsOk(shard, s) && At(s, pid, Collecting)
    requires |s.dispatches[pid].responses| < |s.dispatches[pid].handlers| && s.dispatches[pid].channel != []
    ensures CallsOk(shard, ReceiveDone(s, pid))
  {
    var s', d := ReceiveDone(s, pid), s.dispatches[pid];
    var d' := s'.dispatches[pid];
    assert DispatchOk(d) && TracksFor(s.pending[d.event.id], pid, d);
    ReceivedIsOk(d, d');
    assert forall h :: Answered(d', h) <==> Answered(d, h);
    LocksStay(shard, s, s', pid);
    TrackerMoves(s, s', pid);
  }

  lemma CursorStepKeepsCalls(shard: string -> nat, s: State, a: Action)
    requires CallsOk(shard, s) && Enabled(shard, s, a) && WritesCursors(a)
    ensures CallsOk(shard, Do(shard, s, a))
  {
    match a
    case SetCursor(pid) =>
      var d := s.dispatches[pid];
      if d.anyDefer || d.event.timestamp > MAX_TIMESTAMP {
        EndKeeps(shard, s, pid);
      } else {
        SetCursorKeeps(shard, s, pid);
      }
    case SaveCursor(pid, saves) => SaveCursorKeeps(shard, s, pid, saves);
    case StartFlush(_) =>
    case FlushOne(_) =>
  }

  lemma StepKeepsCalls(shard: string -> nat, s: State, a: Action)
    requires CallsOk(shard, s) && Enabled(shard, s, a)
    ensures CallsOk(shard, Do(shard, s, a))
  {
    match a
    case Spawn(pid, event, handlers) => SpawnKeeps(shard, s, pid, event, handlers);
    case Lock(pid) => LockKeeps(shard, s, pid);
    case Insert(pid) => InsertKeeps(shard, s, pid);
    case Respond(handlerId, id, action) => RespondKeeps(shard, s, Sender(handlerId), id, action);
    case Receive(pid) => ReceiveKeeps(shard, s, pid);
    case LeaveByCount(pid) => LeaveKeeps(shard, s, pid, ByCount);
    case LeaveByTimeout(pid) => LeaveKeeps(shard, s, pid, ByTimeout);
    case Remove(pid) => RemoveKeeps(shard, s, pid);
    case _ => CursorStepKeepsCalls(shard, s, a);
  }

  // ----- Cursors -----

  lemma OthersLeaveCursors(shard: string -> nat, s: State, a: Action)
    requires Enabled(shard, s, a) && !WritesCursors(a)
    ensures var s' := Do(shard, s, a);
            s'.lastCursor == s.lastCursor && s'.persisted == s.persisted && s'.flush == s.flush
  {
  }

  lemma RespondLeavesPast(s: State, handler: string, id: string, action: HandlerAction, pid: nat)
    requires TrackersOk(s) && Past(s, pid)
    ensures var s' := RespondDone(s, handler, id, action); pid in s'.dispatches && s'.dispatches[pid] == s.dispatches[pid]
  {
  }

  lemma CallsLeavePast(shard: string -> nat, s: State, a: Action, pid: nat)
    requires Enabled(shard, s, a) && !WritesCursors(a) && !a.Respond? && Past(s, pid)
    ensures var s' := Do(shard, s, a); pid in s'.dispatches && s'.dispatches[pid] == s.dispatches[pid]
  {
  }

  lemma OthersLeavePast(shard: string -> nat, s: State, a: Action, pid: nat)
    requires TrackersOk(s) && Enabled(shard, s, a) && !WritesCursors(a) && Past(s, pid)
    ensures var s' := Do(shard, s, a); pid in s'.dispatches && s'.dispatches[pid] == s.dispatches[pid]
  {
    if a.Respond? {
      RespondLeavesPast(s, Sender(a.handlerId), a.id, a.action, pid);
    } else {
      CallsLeavePast(shard, s, a, pid);
    }
  }

  lemma SetShape(shard: string -> nat, s: State, p: nat)
    requires At(s, p, Removed)
    ensures var s', d := Do(shard, s, SetCursor(p)), s.dispatches[p];
            var writes := !d.anyDefer && d.event.timestamp <= MAX_TIMESTAMP;
            && s'.dispatches == s.dispatches[p := d.(phase := if writes then CursorSet else Done)]
            && s'.lastCursor == (if writes then s.lastCursor[d.event.bot := CursorOf(d)] else s.lastCursor)
            && s'.persisted == s.persisted && s'.flush == s.flush
  {
  }

  lemma SaveShape(shard: string -> nat, s: State, p: nat, saves: bool)
    requires At(s, p, CursorSet)
    ensures var s', d := Do(shard, s, SaveCursor(p, saves)), s.dispatches[p];
            && s'.dispatches == s.dispatches[p := d.(phase := Done)]
            && s'.persisted == (if saves then s.persisted[d.event.bot := CursorOf(d)] else s.persisted)
            && s'.lastCursor == s.lastCursor && s'.flush == s.flush
  {
  }

  /** A step that writes cursors changes no call but its own, and of that only the phase. */
  lemma CursorStepRecords(shard: string -> nat, s: State, a: Action, q: nat)
    requires Enabled(shard, s, a) && WritesCursors(a) && q in s.dispatches
    ensures var s' := Do(shard, s, a);
            && q in s'.dispatches && s'.dispatches[q] == s.dispatches[q].(phase := s'.dispatches[q].phase)
            && (s.dispatches[q].phase == CursorSet ==> s'.dispatches[q].phase == CursorSet || s'.dispatches[q].phase == Done)
            && (s.dispatches[q].phase == Done ==> s'.dispatches[q].phase == Done)
  {
    match a
    case SetCursor(pid) => SetShape(shard, s, pid);
    case SaveCursor(pid, saves) => SaveShape(shard, s, pid, saves);
    case StartFlush(_) =>
    case FlushOne(_) =>
  }

  lemma MovedStays(shard: string -> nat, s: State, a: Action, pid: nat, bot: string, c: Cursor)
    requires TrackersOk(s) && Enabled(shard, s, a) && MovedCursor(s, pid, bot, c)
    ensures MovedCursor(Do(shard, s, a), pid, bot, c)
  {
    if WritesCursors(a) {
      CursorStepRecords(shard, s, a, pid);
    } else {
      OthersLeavePast(shard, s, a, pid);
    }
  }

  lemma EarnedStays(shard: string -> nat, s: State, a: Action, bot: string, c: Cursor)
    requires TrackersOk(s) && Enabled(shard, s, a) && Earned(s, bot, c)
    ensures Earned(Do(shard, s, a), bot, c)
  {
    var pid :| MovedCursor(s, pid, bot, c);
    MovedStays(shard, s, a, pid, bot, c);
  }

  /** What a step writes as a last cursor. */
  lemma LastCursorWritten(shard: string -> nat, s: State, a: Action, b: string)
    requires DispatchesOk(s) && Enabled(shard, s, a)
    ensures var s' := Do(shard, s, a);
            b in s'.lastCursor ==> (b in s.lastCursor && s'.lastCursor[b] == s.lastCursor[b])
                                   || (a.SetCursor? && MovedCursor(s', a.pid, b, s'.lastCursor[b]))
  {
    if a.SetCursor? {
      assert DispatchOk(s.dispatches[a.pid]);
    } else if !WritesCursors(a) {
      OthersLeaveCursors(shard, s, a);
    }
  }

  /** What a step writes to the database. */
  lemma PersistedWritten(shard: string -> nat, s: State, a: Action, b: string)
    requires DispatchesOk(s) && Enabled(shard, s, a)
    ensures var s' := Do(shard, s, a);
            b in s'.persisted ==> (b in s.persisted && s'.persisted[b] == s.persisted[b])
                                  || (a.SaveCursor? && MovedCursor(s, a.pid, b, s'.persisted[b]))
                                  || (a.FlushOne? && FlushItem(b, s'.persisted[b]) == s.flush[0])
  {
    if a.SaveCursor? {
      assert DispatchOk(s.dispatches[a.pid]);
    } else if !WritesCursors(a) {
      OthersLeaveCursors(shard, s, a);
    }
  }

  lemma FlushTaken(shard: string -> nat, s: State, a: Action, i: nat)
    requires Enabled(shard, s, a) && i < |Do(shard, s, a).flush|
    ensures var item := Do(shard, s, a).flush[i];
            item in s.flush || (item.bot in s.lastCursor && item.cursor == s.lastCursor[item.bot])
  {
    if !WritesCursors(a) {
      OthersLeaveCursors(shard, s, a);
    }
  }

  /** Whatever a step writes as a cursor belongs to a call that has moved it. */
  lemma CursorsKeep(shard: string -> nat, s0: State, s: State, a: Action)
    requires TrackersOk(s) && DispatchesOk(s) && CursorsOk(s0, s) && Enabled(shard, s, a)
    ensures CursorsOk(s0, Do(shard, s, a))
  {
    var s' := Do(shard, s, a);
    forall b | b in s'.lastCursor
      ensures Earned(s', b, s'.lastCursor[b])
    {
      LastCursorWritten(shard, s, a, b);
      if b in s.lastCursor && s'.lastCursor[b] == s.lastCursor[b] {
        EarnedStays(shard, s, a, b, s.lastCursor[b]);
      }
    }
    forall i | 0 <= i < |s'.flush|
      ensures Earned(s', s'.flush[i].bot, s'.flush[i].cursor)
    {
      FlushTaken(shard, s, a, i);
      EarnedStays(shard, s, a, s'.flush[i].bot, s'.flush[i].cursor);
    }
    forall b | b in s'.persisted && !(b in s0.persisted && s'.persisted[b] == s0.persisted[b])
      ensures Earned(s', b, s'.persisted[b])
    {
      PersistedWritten(shard, s, a, b);
      assert Earned(s, b, s'.persisted[b]);
      EarnedStays(shard, s, a, b, s'.persisted[b]);
    }
  }
}

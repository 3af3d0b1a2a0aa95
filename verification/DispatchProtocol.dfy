/** Dispatching events to handlers, as concurrent calls sharing the map of pending dispatches.

    Each call of `dispatch_event` takes the lock that its event id hashes to, inserts a tracker, collects
    answers through its own channel until enough have come, one defers or the time is up, removes the
    tracker and moves the bot's cursor. Handlers may answer at any time, for any event id. Every such
    operation is one step, and steps of different calls interleave freely. */
module DispatchProtocol {
  import opened Wrappers
  import opened Dispatching

  datatype Event = Event(id: string, bot: string, npub: string, timestamp: nat)

  datatype Phase = Waiting | Locked | Collecting | Left | Removed | CursorSet | Done

  datatype Exit = ByCount | ByDefer | ByTimeout

  datatype Dispatch = Dispatch(
    event: Event,
    handlers: seq<string>,
    phase: Phase,
    channel: seq<Answer>,
    responses: seq<Answer>,
    anyDefer: bool,
    // History: what came out of the channel, and how the loop was left.
    read: seq<Answer>,
    exit: Option<Exit>)

  /** The cursor an event stands for. */
  function CursorOf(d: Dispatch): Cursor {
    Cursor(d.event.npub, d.event.timestamp)
  }

  datatype FlushItem = FlushItem(bot: string, cursor: Cursor)

  datatype State = State(
    dispatches: map<nat, Dispatch>,
    locks: map<nat, nat>,
    pending: map<string, Tracker>,
    lastCursor: map<string, Cursor>,
    persisted: map<string, Cursor>,
    flush: seq<FlushItem>)

  predicate HoldsLock(p: Phase) {
    p.Locked? || p.Collecting? || p.Left? || p.Removed? || p.CursorSet?
  }

  /** Between the insert and the removal of the tracker. */
  predicate Tracked(p: Phase) {
    p.Collecting? || p.Left?
  }

  ghost predicate Distinct<T(!new)>(s: seq<T>) {
    forall i, j :: 0 <= i < j < |s| ==> s[i] != s[j]
  }

  ghost predicate At(s: State, pid: nat, p: Phase) {
    pid in s.dispatches && s.dispatches[pid].phase == p
  }

  // ----- The steps -----

  datatype Action =
    | Spawn(pid: nat, event: Event, handlers: seq<string>)
    | Lock(pid: nat)
    | Insert(pid: nat)
    | Respond(handlerId: Option<string>, id: string, action: HandlerAction)
    | Receive(pid: nat)
    | LeaveByCount(pid: nat)
    | LeaveByTimeout(pid: nat)
    | Remove(pid: nat)
    | SetCursor(pid: nat)
    | SaveCursor(pid: nat, saves: bool)
    | StartFlush(items: seq<FlushItem>)
    | FlushOne(saves: bool)

  predicate WritesCursors(a: Action) {
    a.SetCursor? || a.SaveCursor? || a.StartFlush? || a.FlushOne?
  }

  /** Every last cursor once, in any order. */
  ghost predicate Lists(items: seq<FlushItem>, last: map<string, Cursor>) {
    && (forall i :: 0 <= i < |items| ==> items[i].bot in last && last[items[i].bot] == items[i].cursor)
    && (forall i, j :: 0 <= i < j < |items| ==> items[i].bot != items[j].bot)
    && (forall b :: b in last ==> exists i :: 0 <= i < |items| && items[i].bot == b)
  }

  ghost predicate Enabled(shard: string -> nat, s: State, a: Action) {
    match a
    case Spawn(pid, event, handlers) => pid !in s.dispatches && Distinct(handlers)
    case Lock(pid) => At(s, pid, Waiting) && shard(s.dispatches[pid].event.id) !in s.locks
    case Insert(pid) => At(s, pid, Locked)
    case Respond(_, _, _) => true
    case Receive(pid) =>
      && At(s, pid, Collecting) && |s.dispatches[pid].responses| < |s.dispatches[pid].handlers|
      && s.dispatches[pid].channel != []
    case LeaveByCount(pid) => At(s, pid, Collecting) && |s.dispatches[pid].responses| >= |s.dispatches[pid].handlers|
    case LeaveByTimeout(pid) => At(s, pid, Collecting) && |s.dispatches[pid].responses| < |s.dispatches[pid].handlers|
    case Remove(pid) => At(s, pid, Left)
    case SetCursor(pid) => At(s, pid, Removed)
    case SaveCursor(pid, saves) => At(s, pid, CursorSet)
    case StartFlush(items) => s.flush == [] && Lists(items, s.lastCursor)
    case FlushOne(saves) => s.flush != []
  }

  ghost function Moved(s: State, pid: nat, d: Dispatch): State {
    s.(dispatches := s.dispatches[pid := d])
  }

  ghost function Released(shard: string -> nat, s: State, d: Dispatch): State {
    s.(locks := s.locks - {shard(d.event.id)})
  }

  ghost function LockDone(shard: string -> nat, s: State, pid: nat): State
    requires At(s, pid, Waiting)
  {
    var d := s.dispatches[pid];
    Moved(s, pid, d.(phase := Locked)).(locks := s.locks[shard(d.event.id) := pid])
  }

  ghost function InsertDone(s: State, pid: nat): State
    requires At(s, pid, Locked)
  {
    var d := s.dispatches[pid];
    Moved(s, pid, d.(phase := Collecting)).(pending := s.pending[d.event.id := NewTracker(pid, d.handlers)])
  }

  ghost function LeaveDone(s: State, pid: nat, exit: Exit): State
    requires At(s, pid, Collecting)
  {
    Moved(s, pid, s.dispatches[pid].(phase := Left, exit := Some(exit)))
  }

  ghost function RemoveDone(s: State, pid: nat): State
    requires At(s, pid, Left)
  {
    var d := s.dispatches[pid];
    Moved(s, pid, d.(phase := Removed)).(pending := s.pending - {d.event.id})
  }

  ghost function RespondDone(s: State, handler: string, id: string, action: HandlerAction): State {
    if Accepts(s.pending, handler, id) && s.pending[id].owner in s.dispatches then
      var owner := s.pending[id].owner;
      var d := s.dispatches[owner];
      Moved(s, owner, d.(channel := d.channel + [Answer(handler, action)]))
      .(pending := WithResponse(s.pending, handler, id))
    else if Accepts(s.pending, handler, id) then s.(pending := WithResponse(s.pending, handler, id))
    else s
  }

  ghost function ReceiveDone(s: State, pid: nat): State
    requires At(s, pid, Collecting) && s.dispatches[pid].channel != []
  {
    var d := s.dispatches[pid];
    var answer := d.channel[0];
    var d' := d.(channel := d.channel[1..], read := d.read + [answer]);
    Moved(s, pid, if answer.action.Defer? then d'.(anyDefer := true, phase := Left, exit := Some(ByDefer))
                  else d'.(responses := d.responses + [answer]))
  }

  /** A deferred event, or one whose timestamp does not fit, ends here. */
  ghost function SetCursorDone(shard: string -> nat, s: State, pid: nat): State
    requires At(s, pid, Removed)
  {
    var d := s.dispatches[pid];
    if d.anyDefer || d.event.timestamp > MAX_TIMESTAMP then Released(shard, Moved(s, pid, d.(phase := Done)), d)
    else
      Moved(s, pid, d.(phase := CursorSet))
      .(lastCursor := s.lastCursor[d.event.bot := Cursor(d.event.npub, d.event.timestamp)])
  }

  ghost function SaveCursorDone(shard: string -> nat, s: State, pid: nat, saves: bool): State
    requires At(s, pid, CursorSet)
  {
    var d := s.dispatches[pid];
    var s1 := Released(shard, Moved(s, pid, d.(phase := Done)), d);
    if saves then s1.(persisted := s.persisted[d.event.bot := Cursor(d.event.npub, d.event.timestamp)]) else s1
  }

  ghost function FlushOneDone(s: State, saves: bool): State
    requires s.flush != []
  {
    if saves then s.(persisted := s.persisted[s.flush[0].bot := s.flush[0].cursor], flush := s.flush[1..])
    else s.(flush := [])
  }

  ghost function Do(shard: string -> nat, s: State, a: Action): State
    requires Enabled(shard, s, a)
  {
    match a
    case Spawn(pid, event, handlers) => Moved(s, pid, Dispatch(event, handlers, Waiting, [], [], false, [], None))
    case Lock(pid) => LockDone(shard, s, pid)
    case Insert(pid) => InsertDone(s, pid)
    case Respond(handlerId, id, action) => RespondDone(s, Sender(handlerId), id, action)
    case Receive(pid) => ReceiveDone(s, pid)
    case LeaveByCount(pid) => LeaveDone(s, pid, ByCount)
    case LeaveByTimeout(pid) => LeaveDone(s, pid, ByTimeout)
    case Remove(pid) => RemoveDone(s, pid)
    case SetCursor(pid) => SetCursorDone(shard, s, pid)
    case SaveCursor(pid, saves) => SaveCursorDone(shard, s, pid, saves)
    case StartFlush(items) => s.(flush := items)
    case FlushOne(saves) => FlushOneDone(s, saves)
  }

  // ----- What every step keeps -----

  ghost predicate LocksHeld(shard: string -> nat, s: State) {
    forall pid :: pid in s.dispatches && HoldsLock(s.dispatches[pid].phase) ==>
      shard(s.dispatches[pid].event.id) in s.locks && s.locks[shard(s.dispatches[pid].event.id)] == pid
  }

  /** The tracker of one dispatch: it belongs to it, and has counted exactly the answers that it accepted. */
  ghost predicate TracksFor(t: Tracker, pid: nat, d: Dispatch) {
    && t.owner == pid && t.handlerIds == Range(d.handlers) && t.maxResponses == 1
    && forall h :: Count(t, h) == if Answered(d, h) then 1 else 0
  }

  /** Everything that was accepted for a dispatch, in order. */
  ghost function Accepted(d: Dispatch): seq<Answer> {
    d.read + d.channel
  }

  ghost predicate Answered(d: Dispatch, h: string) {
    exists i :: 0 <= i < |Accepted(d)| && Accepted(d)[i].handler == h
  }

  ghost predicate TrackersOk(s: State) {
    && (forall pid :: pid in s.dispatches && Tracked(s.dispatches[pid].phase) ==>
          s.dispatches[pid].event.id in s.pending
          && TracksFor(s.pending[s.dispatches[pid].event.id], pid, s.dispatches[pid]))
    && (forall id :: id in s.pending ==>
          && s.pending[id].owner in s.dispatches && Tracked(s.dispatches[s.pending[id].owner].phase)
          && s.dispatches[s.pending[id].owner].event.id == id)
  }

  /** At most one answer each, and only from handlers the event was sent to. */
  ghost predicate FromDistinctHandlers(answers: seq<Answer>, handlers: seq<string>) {
    && (forall i :: 0 <= i < |answers| ==> answers[i].handler in handlers)
    && (forall i, j :: 0 <= i < j < |answers| ==> answers[i].handler != answers[j].handler)
  }

  ghost predicate ExitOk(d: Dispatch) {
    && (d.exit.None? <==> d.phase.Waiting? || d.phase.Locked? || d.phase.Collecting?)
    && (d.anyDefer <==> d.exit == Some(ByDefer))
    && (d.exit == Some(ByCount) ==> |d.responses| == |d.handlers|)
    && (d.exit == Some(ByTimeout) ==> |d.responses| < |d.handlers|)
    && (d.phase.CursorSet? ==> !d.anyDefer && d.event.timestamp <= MAX_TIMESTAMP)
  }

  ghost predicate DispatchOk(d: Dispatch) {
    && Distinct(d.handlers) && FromDistinctHandlers(Accepted(d), d.handlers)
    && CollectedFrom(|d.handlers|, d.read, d.responses, d.anyDefer)
    && |d.read| == |d.responses| + (if d.anyDefer then 1 else 0)
    && (d.phase.Waiting? || d.phase.Locked? ==> Accepted(d) == [])
    && ExitOk(d)
  }

  ghost predicate DispatchesOk(s: State) {
    forall pid :: pid in s.dispatches ==> DispatchOk(s.dispatches[pid])
  }

  /** The dispatch has moved its bot's cursor here. */
  ghost predicate MovedCursor(s: State, pid: nat, bot: string, c: Cursor) {
    && pid in s.dispatches && var d := s.dispatches[pid];
    && (d.phase.CursorSet? || d.phase.Done?) && d.exit.Some? && d.exit != Some(ByDefer) && !d.anyDefer
    && d.event.bot == bot && d.event.timestamp <= MAX_TIMESTAMP && c == Cursor(d.event.npub, d.event.timestamp)
  }

  ghost predicate Earned(s: State, bot: string, c: Cursor) {
    exists pid :: MovedCursor(s, pid, bot, c)
  }

  ghost predicate CursorsOk(s0: State, s: State) {
    && (forall b :: b in s.lastCursor ==> Earned(s, b, s.lastCursor[b]))
    && (forall i :: 0 <= i < |s.flush| ==> Earned(s, s.flush[i].bot, s.flush[i].cursor))
    && (forall b :: b in s.persisted ==>
          (b in s0.persisted && s.persisted[b] == s0.persisted[b]) || Earned(s, b, s.persisted[b]))
  }

  ghost predicate CallsOk(shard: string -> nat, s: State) {
    LocksHeld(shard, s) && TrackersOk(s) && DispatchesOk(s)
  }

  ghost predicate Inv(shard: string -> nat, s0: State, s: State) {
    CallsOk(shard, s) && CursorsOk(s0, s)
  }

  ghost predicate Init(s: State) {
    s.dispatches == map[] && s.locks == map[] && s.pending == map[] && s.lastCursor == map[] && s.flush == []
  }

  // ----- Between two states -----

  /** A call that goes on without touching trackers or answers. */
  ghost predicate GoesOn(s: State, s': State, pid: nat) {
    && pid in s.dispatches && pid in s'.dispatches && s'.pending == s.pending
    && s'.dispatches == s.dispatches[pid := s'.dispatches[pid]]
    && var d, d' := s.dispatches[pid], s'.dispatches[pid];
    && d'.event == d.event && d'.handlers == d.handlers && d'.read == d.read && d'.channel == d.channel
    && Tracked(d'.phase) == Tracked(d.phase)
  }

  /** Past the removal of its tracker. */
  ghost predicate Past(s: State, pid: nat) {
    At(s, pid, Removed) || At(s, pid, CursorSet) || At(s, pid, Done)
  }

  // ----- Runs -----

  ghost predicate IsRun(shard: string -> nat, run: seq<State>, actions: seq<Action>) {
    && |run| == |actions| + 1 && Init(run[0])
    && forall i :: 0 <= i < |actions| ==> Enabled(shard, run[i], actions[i]) && run[i + 1] == Do(shard, run[i], actions[i])
  }

  /** The call is for this event id, between its insert and its removal. */
  ghost predicate Owns(s: State, pid: nat, id: string) {
    pid in s.dispatches && Tracked(s.dispatches[pid].phase) && s.dispatches[pid].event.id == id
  }

  /** The call to which an answer to this event from this handler would go. */
  ghost predicate Expects(s: State, pid: nat, handler: string, id: string) {
    Owns(s, pid, id) && handler in s.dispatches[pid].handlers && !Answered(s.dispatches[pid], handler)
  }

  ghost predicate Deferred(d: Dispatch) {
    exists k :: 0 <= k < |Accepted(d)| && Accepted(d)[k].action.Defer?
  }

  // ----- Pending cursor writes -----

  /** Past its removal, this call still has a cursor of the bot to set or to save. */
  ghost predicate Writer(s: State, pid: nat, b: string) {
    && (At(s, pid, Removed) || At(s, pid, CursorSet)) && s.dispatches[pid].event.bot == b
    && !s.dispatches[pid].anyDefer && s.dispatches[pid].event.timestamp <= MAX_TIMESTAMP
  }

  ghost predicate NoWriter(s: State, b: string) {
    forall pid :: !Writer(s, pid, b)
  }

  /** Two calls of one bot with different cursors are about to write at once. */
  ghost predicate Clash(s: State, p: nat, q: nat, b: string) {
    Writer(s, p, b) && Writer(s, q, b) && CursorOf(s.dispatches[p]) != CursorOf(s.dispatches[q])
  }

  ghost predicate Overlap(s: State, b: string) {
    exists p, q :: Clash(s, p, q, b)
  }

  ghost predicate Agree(s: State, b: string) {
    b in s.lastCursor ==> b in s.persisted && s.persisted[b] == s.lastCursor[b]
  }

  predicate IsWrite(a: Action) {
    a.SetCursor? || (a.SaveCursor? && a.saves)
  }

  /** Every save succeeds and no flush interferes. */
  ghost predicate Smooth(actions: seq<Action>) {
    forall i :: 0 <= i < |actions| ==> (actions[i].SaveCursor? ==> actions[i].saves) && !actions[i].StartFlush?
  }

  /** A run that goes on from state `i` of another with nothing but pending writes. */
  ghost predicate WritesFrom(shard: string -> nat, run: seq<State>, actions: seq<Action>, i: nat,
                             run': seq<State>, actions': seq<Action>) {
    && IsRun(shard, run', actions') && i < |run| <= |actions| + 1 && i <= |actions'|
    && run'[..i + 1] == run[..i + 1] && actions'[..i] == actions[..i]
    && forall k :: i <= k < |actions'| ==> IsWrite(actions'[k])
  }

  ghost predicate NeverOverlaps(run: seq<State>, b: string) {
    forall i :: 0 <= i < |run| ==> !Overlap(run[i], b)
  }

  /** Whatever state of the run the pending writes are carried out from, and in whatever order: once the bot has
      none left, what is persisted is the last cursor. */
  ghost predicate EveryScheduleAgrees(shard: string -> nat, run: seq<State>, actions: seq<Action>, b: string) {
    forall i, run', actions' | WritesFrom(shard, run, actions, i, run', actions') && NoWriter(run'[|actions'|], b) ::
      Agree(run'[|actions'|], b)
  }

  /** Whoever has set the bot's cursor and not yet saved it has set the one that is there; if no one has, the two agree. */
  ghost predicate Tidy(s: State, b: string) {
    && s.flush == []
    && (forall pid :: Writer(s, pid, b) && At(s, pid, CursorSet) ==>
          b in s.lastCursor && s.lastCursor[b] == CursorOf(s.dispatches[pid]))
    && ((exists pid :: Writer(s, pid, b) && At(s, pid, CursorSet)) || Agree(s, b))
  }

  ghost predicate Setter(s: State, pid: nat, b: string) {
    Writer(s, pid, b) && At(s, pid, CursorSet)
  }

  /** The bot's cursors and its calls between setting and saving are as they were. */
  ghost predicate SameFor(s: State, s': State, b: string) {
    && s'.flush == s.flush
    && (b in s'.lastCursor <==> b in s.lastCursor) && (b in s.lastCursor ==> s'.lastCursor[b] == s.lastCursor[b])
    && (b in s'.persisted <==> b in s.persisted) && (b in s.persisted ==> s'.persisted[b] == s.persisted[b])
    && (forall pid :: Setter(s', pid, b) ==> Setter(s, pid, b) && s'.dispatches[pid] == s.dispatches[pid])
    && (forall pid :: Setter(s, pid, b) ==> Setter(s', pid, b))
  }

  ghost function Others(s: State, p: nat, q: nat, b: string): set<nat> {
    set r | r in s.dispatches && Writer(s, r, b) && r != p && r != q
  }

  /** A call for an event without handlers. */
  function Fresh(event: Event, phase: Phase): Dispatch {
    Dispatch(event, [], phase, [], [], false, [], if phase.Left? || phase.Removed? then Some(ByCount) else None)
  }

  /** A flush of the last cursors of `s0`, its first `n` items written. */
  ghost predicate Flushing(s0: State, s: State, items: seq<FlushItem>, n: nat) {
    && n <= |items| && s.flush == items[n..] && s.lastCursor == s0.lastCursor
    && (forall k :: 0 <= k < n ==>
          items[k].bot in s.persisted && s.persisted[items[k].bot] == items[k].cursor)
    && (forall b :: b !in s0.lastCursor ==>
          (b in s.persisted <==> b in s0.persisted) && (b in s0.persisted ==> s.persisted[b] == s0.persisted[b]))
  }

  // ----- A call that nothing gets in the way of -----

  /** Since `s` nothing has happened but this call, which holds its lock. */
  ghost predicate OnlyCall(shard: string -> nat, s: State, x: State, pid: nat, d: Dispatch) {
    && x.dispatches == s.dispatches[pid := d] && x.locks == s.locks[shard(d.event.id) := pid]
    && x.pending - {d.event.id} == s.pending
    && x.lastCursor == s.lastCursor && x.persisted == s.persisted && x.flush == s.flush
  }

  /** A call that collects, with so much read and so much waiting. */
  function Collects(event: Event, handlers: seq<string>, read: seq<Answer>, channel: seq<Answer>): Dispatch {
    Dispatch(event, handlers, Collecting, channel, read, false, read, None)
  }

  /** How the loop ends with these responses. */
  function ExitOf(expected: nat, responses: seq<Answer>, anyDefer: bool): Exit {
    if anyDefer then ByDefer else if |responses| >= expected then ByCount else ByTimeout
  }

  /** Since `s` nothing has happened but a call for this event, now done. It has collected what the loop collects from these
      answers, and has moved the bot's cursor unless a `Defer` was among that or the timestamp does not fit; `saves`
      says whether the database took the write. */
  ghost predicate CallDone(s: State, x: State, pid: nat, event: Event, handlers: seq<string>, answers: seq<Answer>, saves: bool) {
    && pid in x.dispatches && x.dispatches == s.dispatches[pid := x.dispatches[pid]]
    && x.locks == s.locks && x.pending == s.pending && x.flush == s.flush
    && var d := x.dispatches[pid];
    && d.phase == Done && d.event == event && d.handlers == handlers
    && CollectedFrom(|handlers|, answers, d.responses, d.anyDefer)
    && d.exit == Some(ExitOf(|handlers|, d.responses, d.anyDefer))
    && var moves := !d.anyDefer && event.timestamp < 0x8000_0000_0000_0000;
    var cursor := Cursor(event.npub, event.timestamp);
    && x.lastCursor == (if moves then s.lastCursor[event.bot := cursor] else s.lastCursor)
    && x.persisted == (if moves && saves then s.persisted[event.bot := cursor] else s.persisted)
  }
}

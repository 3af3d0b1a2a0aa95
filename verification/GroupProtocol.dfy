/** Creating groups and inviting members, as concurrent requests against one database and the bots' MLS engines.

    Every database call, every command an engine's worker runs and every lock operation is one
    step, and steps of different requests interleave freely. A request checks under a lock, works
    without it, and comes back to the lock to save or to roll back. A request that times out
    leaves behind what it has already handed over: a command still queued at the worker, or an
    insert still running in the database. */
module GroupProtocol {
  import opened Wrappers
  import opened GroupTables

  /** How the worker answered an `AddMember` command. */
  datatype Outcome = Added | RestorationIncomplete | Failed

  /** Where a request is. `CChecking`, `CSaving`, `ILocked`, `ILoaded`, `IFree` and `IUndoing` hold the lock. */
  datatype Phase =
    | CStart | CChecking | CChecked | CCreated(wire: string) | CSaving(wire: string) | CDone(created: Option<string>)
    | IStart | ILocked | ILoaded(wire: string) | IFree(wire: string)
    | IInserted(wire: string) | ISent(wire: string) | IAnswered(wire: string, outcome: Outcome)
    | IFailed(wire: string) | IUndoing(wire: string) | IDone(ok: bool)

  datatype Request = Request(group: GroupKey, npub: string, phase: Phase)

  /** An `AddMember` command waiting at a bot's worker. */
  datatype Command = Command(pid: nat, bot: string, wire: string, npub: string)

  /** An insert whose request has timed out. */
  datatype LateSave = LateSave(pid: nat, group: GroupKey, npub: string, wire: string)

  datatype EngineKey = EngineKey(bot: string, wire: string)

  datatype State = State(
    requests: map<nat, Request>,
    locks: map<nat, nat>,
    tables: Tables,
    engine: map<EngineKey, set<string>>,
    queue: seq<Command>,
    lateSaves: set<LateSave>,
    // History, not read by any step: which request put a row there.
    groupBy: map<GroupKey, nat>,
    memberBy: map<MemberKey, nat>,
    // Member rows from before the run that the engine did not back then.
    leftover: set<MemberKey>)

  predicate HoldsLock(p: Phase) {
    p.CChecking? || p.CSaving? || p.ILocked? || p.ILoaded? || p.IFree? || p.IUndoing?
  }

  /** Between the insert of the member row and the outcome. */
  predicate InFlight(p: Phase) {
    p.IInserted? || p.ISent? || p.IAnswered? || p.IFailed? || p.IUndoing?
  }

  function RowOf(r: Request): MemberKey {
    MemberKey(r.group.bot, r.group.name, r.npub)
  }

  function NewRow(wire: string): GroupRow {
    GroupRow(wire, "", "", None)
  }

  ghost predicate Targets(c: Command, bot: string, wire: string, npub: string) {
    c.bot == bot && c.wire == wire && c.npub == npub
  }

  // ----- The steps -----

  datatype Action =
    | Spawn(pid: nat, request: Request)
    | Acquire(pid: nat)
    | CheckGroup(pid: nat)
    | EngineCreate(pid: nat, wire: string, members: set<string>)
    | LateEngineCreate(bot: string, wire: string, members: set<string>)
    | GiveUp(pid: nat)
    | Save(pid: nat)
    | SaveTimesOut(pid: nat)
    | RunLateSave(job: LateSave)
    | Load(pid: nat)
    | CheckInvited(pid: nat)
    | InsertRow(pid: nat)
    | Send(pid: nat)
    | Work(index: nat, outcome: Outcome, members: set<string>)
    | Settle(pid: nat, ok: bool)
    | TimeOut(pid: nat)
    | Undo(pid: nat)

  ghost predicate At(s: State, pid: nat) {
    pid in s.requests
  }

  ghost function PhaseOf(s: State, pid: nat): Phase
    requires At(s, pid)
  {
    s.requests[pid].phase
  }

  /** What the engine may do with one `AddMember` command. Only the recipient's membership can change;
      `Added` leaves the recipient a member, an incomplete restoration started from one. */
  ghost predicate EngineMay(s: State, c: Command, outcome: Outcome, members: set<string>) {
    var g := EngineKey(c.bot, c.wire);
    if g !in s.engine then outcome == Failed
    else
      && members - {c.npub} == s.engine[g] - {c.npub}
      && (outcome == Added ==> c.npub in members)
      && (outcome == RestorationIncomplete ==> c.npub in s.engine[g])
  }

  ghost predicate Enabled(shard: GroupKey -> nat, s: State, a: Action) {
    match a
    case Spawn(pid, r) => pid !in s.requests && (r.phase == CStart || r.phase == IStart)
    case Acquire(pid) =>
      && At(s, pid) && shard(s.requests[pid].group) !in s.locks
      && var p := PhaseOf(s, pid); (p.CStart? || p.CCreated? || p.IStart? || p.IFailed?)
    case CheckGroup(pid) => At(s, pid) && PhaseOf(s, pid).CChecking?
    case EngineCreate(pid, wire, members) =>
      && At(s, pid) && PhaseOf(s, pid).CChecked?
      && EngineKey(s.requests[pid].group.bot, wire) !in s.engine && s.requests[pid].npub in members
    case LateEngineCreate(bot, wire, members) => EngineKey(bot, wire) !in s.engine
    case GiveUp(pid) => At(s, pid) && (PhaseOf(s, pid).CChecked? || PhaseOf(s, pid).CCreated?)
    case Save(pid) => At(s, pid) && PhaseOf(s, pid).CSaving?
    case SaveTimesOut(pid) => At(s, pid) && PhaseOf(s, pid).CSaving?
    case RunLateSave(job) => job in s.lateSaves
    case Load(pid) => At(s, pid) && PhaseOf(s, pid).ILocked?
    case CheckInvited(pid) => At(s, pid) && PhaseOf(s, pid).ILoaded?
    case InsertRow(pid) => At(s, pid) && PhaseOf(s, pid).IFree?
    case Send(pid) => At(s, pid) && PhaseOf(s, pid).IInserted?
    case Work(i, outcome, members) =>
      && i < |s.queue| && EngineMay(s, s.queue[i], outcome, members)
      && forall j :: 0 <= j < i ==> s.queue[j].bot != s.queue[i].bot
    case Settle(pid, ok) => At(s, pid) && PhaseOf(s, pid).IAnswered?
    case TimeOut(pid) => At(s, pid) && (PhaseOf(s, pid).IInserted? || PhaseOf(s, pid).ISent? || PhaseOf(s, pid).IAnswered?)
    case Undo(pid) => At(s, pid) && PhaseOf(s, pid).IUndoing?
  }

  ghost function Moved(s: State, pid: nat, p: Phase): State
    requires At(s, pid)
  {
    s.(requests := s.requests[pid := s.requests[pid].(phase := p)])
  }

  ghost function Released(shard: GroupKey -> nat, s: State, pid: nat): State
    requires At(s, pid)
  {
    s.(locks := s.locks - {shard(s.requests[pid].group)})
  }

  /** The insert of a created group, by its request or after it; says whether it took effect. */
  ghost function Saved(s: State, pid: nat, group: GroupKey, npub: string, wire: string): (State, bool) {
    var (t, r) := Inserted(s.tables, group, NewRow(wire), [npub]);
    if r.Ok? then
      (s.(tables := t, groupBy := s.groupBy[group := pid],
          memberBy := s.memberBy[MemberKey(group.bot, group.name, npub) := pid]), true)
    else (s, false)
  }

  /** Where a request that waited for the lock goes on. */
  ghost function Locked(p: Phase): Phase
    requires p.CStart? || p.CCreated? || p.IStart? || p.IFailed?
  {
    match p
    case CStart => CChecking
    case CCreated(wire) => CSaving(wire)
    case IStart => ILocked
    case IFailed(wire) => IUndoing(wire)
  }

  ghost function AcquireDone(shard: GroupKey -> nat, s: State, pid: nat): State
    requires At(s, pid)
    requires var p := PhaseOf(s, pid); p.CStart? || p.CCreated? || p.IStart? || p.IFailed?
  {
    Moved(s, pid, Locked(PhaseOf(s, pid))).(locks := s.locks[shard(s.requests[pid].group) := pid])
  }

  ghost function CheckGroupDone(shard: GroupKey -> nat, s: State, pid: nat): State
    requires At(s, pid)
  {
    var taken := s.requests[pid].group in s.tables.groups;
    Moved(Released(shard, s, pid), pid, if taken then CDone(None) else CChecked)
  }

  ghost function EngineCreateDone(s: State, pid: nat, wire: string, members: set<string>): State
    requires At(s, pid)
  {
    Moved(s, pid, CCreated(wire)).(engine := s.engine[EngineKey(s.requests[pid].group.bot, wire) := members])
  }

  ghost function SaveDone(shard: GroupKey -> nat, s: State, pid: nat): State
    requires At(s, pid) && PhaseOf(s, pid).CSaving?
  {
    var r := s.requests[pid];
    var (s1, ok) := Saved(s, pid, r.group, r.npub, r.phase.wire);
    Moved(Released(shard, s1, pid), pid, CDone(if ok then Some(r.phase.wire) else None))
  }

  ghost function SaveTimesOutDone(shard: GroupKey -> nat, s: State, pid: nat): State
    requires At(s, pid) && PhaseOf(s, pid).CSaving?
  {
    var r := s.requests[pid];
    Moved(Released(shard, s, pid), pid, CDone(None))
    .(lateSaves := s.lateSaves + {LateSave(pid, r.group, r.npub, r.phase.wire)})
  }

  ghost function LateSaveDone(s: State, job: LateSave): State {
    Saved(s, job.pid, job.group, job.npub, job.wire).0.(lateSaves := s.lateSaves - {job})
  }

  ghost function LoadDone(shard: GroupKey -> nat, s: State, pid: nat): State
    requires At(s, pid)
  {
    var group := s.requests[pid].group;
    if group in s.tables.groups then Moved(s, pid, ILoaded(s.tables.groups[group].wire))
    else Moved(Released(shard, s, pid), pid, IDone(false))
  }

  ghost function CheckInvitedDone(shard: GroupKey -> nat, s: State, pid: nat): State
    requires At(s, pid) && PhaseOf(s, pid).ILoaded?
  {
    var r := s.requests[pid];
    if RowOf(r) in s.tables.members then Moved(Released(shard, s, pid), pid, IDone(true))
    else Moved(s, pid, IFree(r.phase.wire))
  }

  ghost function InsertRowDone(shard: GroupKey -> nat, s: State, pid: nat): State
    requires At(s, pid) && PhaseOf(s, pid).IFree?
  {
    var r := s.requests[pid];
    var (t, existed) := Invited(s.tables, r.group, r.npub);
    if existed then
      Moved(Released(shard, s, pid), pid, IInserted(r.phase.wire))
      .(tables := t, memberBy := s.memberBy[RowOf(r) := pid])
    else Moved(Released(shard, s, pid), pid, IDone(false))
  }

  ghost function SendDone(s: State, pid: nat): State
    requires At(s, pid) && PhaseOf(s, pid).IInserted?
  {
    var r := s.requests[pid];
    Moved(s, pid, ISent(r.phase.wire))
    .(queue := s.queue + [Command(pid, r.group.bot, r.phase.wire, r.npub)])
  }

  /** The request a command came from gets its answer, if it still waits for it. */
  ghost function WithAnswer(requests: map<nat, Request>, c: Command, outcome: Outcome): map<nat, Request> {
    if c.pid in requests && requests[c.pid].phase.ISent?
    then requests[c.pid := requests[c.pid].(phase := IAnswered(c.wire, outcome))] else requests
  }

  ghost function WorkDone(s: State, i: nat, outcome: Outcome, members: set<string>): State
    requires i < |s.queue|
  {
    var c := s.queue[i];
    var g := EngineKey(c.bot, c.wire);
    s.(queue := s.queue[..i] + s.queue[i + 1..],
       engine := if g in s.engine then s.engine[g := members] else s.engine,
       requests := WithAnswer(s.requests, c, outcome))
  }

  /** After an error, membership found in the engine counts as success; an incomplete restoration never does. */
  ghost function SettleDone(s: State, pid: nat, ok: bool): State
    requires At(s, pid) && PhaseOf(s, pid).IAnswered?
  {
    var r := s.requests[pid];
    var g := EngineKey(r.group.bot, r.phase.wire);
    var success := ok && (r.phase.outcome == Added
                          || (r.phase.outcome == Failed && g in s.engine && r.npub in s.engine[g]));
    Moved(s, pid, if success then IDone(true) else IFailed(r.phase.wire))
  }

  ghost function UndoDone(shard: GroupKey -> nat, s: State, pid: nat): State
    requires At(s, pid)
  {
    var r := s.requests[pid];
    Moved(Released(shard, s, pid), pid, IDone(false)).(tables := MemberDeleted(s.tables, r.group, r.npub).0)
  }

  ghost function Do(shard: GroupKey -> nat, s: State, a: Action): State
    requires Enabled(shard, s, a)
  {
    match a
    case Spawn(pid, r) => s.(requests := s.requests[pid := r])
    case Acquire(pid) => AcquireDone(shard, s, pid)
    case CheckGroup(pid) => CheckGroupDone(shard, s, pid)
    case EngineCreate(pid, wire, members) => EngineCreateDone(s, pid, wire, members)
    case LateEngineCreate(bot, wire, members) => s.(engine := s.engine[EngineKey(bot, wire) := members])
    case GiveUp(pid) => Moved(s, pid, CDone(None))
    case Save(pid) => SaveDone(shard, s, pid)
    case SaveTimesOut(pid) => SaveTimesOutDone(shard, s, pid)
    case RunLateSave(job) => LateSaveDone(s, job)
    case Load(pid) => LoadDone(shard, s, pid)
    case CheckInvited(pid) => CheckInvitedDone(shard, s, pid)
    case InsertRow(pid) => InsertRowDone(shard, s, pid)
    case Send(pid) => SendDone(s, pid)
    case Work(i, outcome, members) => WorkDone(s, i, outcome, members)
    case Settle(pid, ok) => SettleDone(s, pid, ok)
    case TimeOut(pid) => Moved(s, pid, IFailed(PhaseOf(s, pid).wire))
    case Undo(pid) => UndoDone(shard, s, pid)
  }

  // ----- What every step keeps -----

  ghost predicate GroupKnown(s: State, group: GroupKey, wire: string) {
    group in s.tables.groups && s.tables.groups[group].wire == wire
  }

  ghost predicate NoCommandFor(s: State, bot: string, wire: string, npub: string) {
    forall i :: 0 <= i < |s.queue| ==> !Targets(s.queue[i], bot, wire, npub)
  }

  ghost predicate EngineHolds(s: State, bot: string, wire: string, npub: string) {
    EngineKey(bot, wire) in s.engine && npub in s.engine[EngineKey(bot, wire)]
  }

  /** Only one request at a time is inside the critical section of a group. */
  ghost predicate LocksHeld(shard: GroupKey -> nat, s: State) {
    forall pid :: pid in s.requests && HoldsLock(s.requests[pid].phase) ==>
      shard(s.requests[pid].group) in s.locks && s.locks[shard(s.requests[pid].group)] == pid
  }

  /** What an invite may rely on in each phase. */
  ghost predicate InviteOk(s: State, pid: nat, r: Request) {
    && (r.phase.ILoaded? || r.phase.IFree? || InFlight(r.phase) ==> GroupKnown(s, r.group, r.phase.wire))
    && (r.phase.IFree? ==> RowOf(r) !in s.tables.members)
    && (InFlight(r.phase) ==> RowOf(r) in s.tables.members && RowOf(r) in s.memberBy && s.memberBy[RowOf(r)] == pid)
    && (r.phase.IAnswered? ==> NoCommandFor(s, r.group.bot, r.phase.wire, r.npub))
    && (r.phase.IAnswered? && r.phase.outcome == Added ==> EngineHolds(s, r.group.bot, r.phase.wire, r.npub))
  }

  /** The command a request waits for is queued, and no later one is for the same member of the same group. */
  ghost predicate SentAt(s: State, pid: nat, i: nat)
    requires pid in s.requests && s.requests[pid].phase.ISent?
  {
    var r := s.requests[pid];
    && i < |s.queue| && s.queue[i] == Command(pid, r.group.bot, r.phase.wire, r.npub)
    && forall j :: i < j < |s.queue| ==> !Targets(s.queue[j], r.group.bot, r.phase.wire, r.npub)
  }

  ghost predicate CommandOk(s: State, c: Command) {
    && c.pid in s.requests
    && var r := s.requests[c.pid];
       && (r.phase == ISent(c.wire) || r.phase.IFailed? || r.phase.IUndoing? || r.phase.IDone?)
       && c.bot == r.group.bot && c.npub == r.npub && GroupKnown(s, r.group, c.wire)
  }

  ghost predicate QueueOk(s: State) {
    && (forall i :: 0 <= i < |s.queue| ==> CommandOk(s, s.queue[i]))
    && (forall i, j :: 0 <= i < j < |s.queue| ==> s.queue[i].pid != s.queue[j].pid)
    && (forall pid :: pid in s.requests && s.requests[pid].phase.ISent? ==> exists i :: SentAt(s, pid, i))
  }

  /** A member row is some request's that is still in flight, or the engine holds the member and nothing queued
      touches it, unless it was unbacked before the run began. */
  ghost predicate RowOk(s: State, m: MemberKey)
    requires GroupKey(m.bot, m.name) in s.tables.groups
  {
    var wire := s.tables.groups[GroupKey(m.bot, m.name)].wire;
    || m in s.leftover
    || (m in s.memberBy && s.memberBy[m] in s.requests
        && InFlight(s.requests[s.memberBy[m]].phase) && RowOf(s.requests[s.memberBy[m]]) == m)
    || (EngineHolds(s, m.bot, wire, m.npub) && NoCommandFor(s, m.bot, wire, m.npub))
  }

  ghost predicate RowsOk(s: State)
    requires NoOrphans(s.tables)
  {
    forall m :: m in s.tables.members ==> RowOk(s, m)
  }

  /** A group made in the engine but not saved has its recipient, unless a row for its wire id turned up meanwhile. */
  ghost predicate Unsaved(s: State, bot: string, wire: string, npub: string) {
    EngineKey(bot, wire) in s.engine && (npub in s.engine[EngineKey(bot, wire)] || HasWire(s.tables.groups, bot, wire))
  }

  /** What a create may rely on in each phase. */
  ghost predicate CreateOk(s: State, pid: nat, r: Request) {
    && (r.phase.CCreated? || r.phase.CSaving? ==> Unsaved(s, r.group.bot, r.phase.wire, r.npub))
    && (r.phase.CDone? && r.phase.created.Some? ==>
          GroupKnown(s, r.group, r.phase.created.value) && r.group in s.groupBy && s.groupBy[r.group] == pid)
  }

  ghost predicate RequestsOk(s: State) {
    forall pid :: pid in s.requests ==> InviteOk(s, pid, s.requests[pid]) && CreateOk(s, pid, s.requests[pid])
  }

  ghost predicate LateSavesOk(s: State) {
    forall job :: job in s.lateSaves ==> Unsaved(s, job.group.bot, job.wire, job.npub)
  }

  ghost predicate Inv(shard: GroupKey -> nat, s: State) {
    WellFormed(s.tables) && LocksHeld(shard, s) && RequestsOk(s) && LateSavesOk(s) && QueueOk(s) && RowsOk(s)
  }

  /** Before any request: any well-formed tables and engines. A crash may have left member rows that no engine backs. */
  ghost predicate Init(s: State) {
    && s.requests == map[] && s.locks == map[] && s.queue == [] && s.lateSaves == {}
    && s.groupBy == map[] && s.memberBy == map[]
    && WellFormed(s.tables)
    && forall m :: m in s.leftover <==>
         m in s.tables.members && !EngineHolds(s, m.bot, s.tables.groups[GroupKey(m.bot, m.name)].wire, m.npub)
  }

  // ----- Between two states -----

  /** Rows, queue, engine and history as they were; one request may have moved, locks and late saves may differ. */
  ghost predicate Quiet(s: State, s': State, pid: nat) {
    && s'.tables == s.tables && s'.engine == s.engine && s'.queue == s.queue
    && s'.groupBy == s.groupBy && s'.memberBy == s.memberBy && s'.leftover == s.leftover
    && s'.requests.Keys == s.requests.Keys && pid in s.requests
    && (forall q :: q in s.requests && q != pid ==> s'.requests[q] == s.requests[q])
    && s'.requests[pid] == s.requests[pid].(phase := s'.requests[pid].phase)
  }

  /** The queue and the groups as they were, and no request that has a command queued moved back. */
  ghost predicate QueueUntouched(s: State, s': State) {
    && s'.queue == s.queue && s'.tables.groups == s.tables.groups
    && (forall q :: q in s.requests ==>
          && q in s'.requests && s'.requests[q] == s.requests[q].(phase := s'.requests[q].phase)
          && CommandMayOutlive(s.requests[q].phase, s'.requests[q].phase))
    && (forall q :: q in s'.requests && s'.requests[q].phase.ISent? ==> q in s.requests && s'.requests[q] == s.requests[q])
  }

  ghost predicate CommandMayOutlive(p: Phase, p': Phase) {
    p' == p || p'.IFailed? || p'.IUndoing? || p'.IDone? || !(p.ISent? || p.IFailed? || p.IUndoing? || p.IDone?)
  }

  ghost predicate MayRun(s: State, i: nat, outcome: Outcome, members: set<string>) {
    && i < |s.queue| && EngineMay(s, s.queue[i], outcome, members)
    && forall j :: 0 <= j < i ==> s.queue[j].bot != s.queue[i].bot
  }

  // ----- Runs -----

  ghost predicate IsRun(shard: GroupKey -> nat, run: seq<State>, actions: seq<Action>) {
    && |run| == |actions| + 1 && Init(run[0])
    && forall i :: 0 <= i < |actions| ==> Enabled(shard, run[i], actions[i]) && run[i + 1] == Do(shard, run[i], actions[i])
  }

  ghost predicate FlyingAt(s: State, pid: nat) {
    At(s, pid) && InFlight(PhaseOf(s, pid))
  }

  /** A request keeps its group and recipient, and one that is done stays as it is. */
  ghost predicate GoesOn(r: Request, r': Request) {
    r' == r.(phase := r'.phase) && (r.phase.CDone? || r.phase.IDone? ==> r' == r)
  }

  /** What any step does to one request: it keeps its group and recipient, comes in flight only by inserting its row,
      and while in flight ends well only by settling. */
  ghost predicate RequestFrame(s: State, s': State, a: Action, q: nat) {
    && (At(s, q) ==> At(s', q) && GoesOn(s.requests[q], s'.requests[q]))
    && (FlyingAt(s', q) && !FlyingAt(s, q) ==>
          a == InsertRow(q) && At(s, q) && PhaseOf(s, q).IFree? && RowOf(s.requests[q]) in s'.tables.members)
    && (FlyingAt(s, q) && At(s', q) && PhaseOf(s', q) == IDone(true) ==> a.Settle? && s' == Moved(s, q, IDone(true)))
  }

  /** What any step does to one group and one member row: groups stay, and only an undo removes a row. */
  ghost predicate TableFrame(s: State, s': State, a: Action, k: GroupKey, m: MemberKey) {
    && s'.leftover == s.leftover
    && (k in s.tables.groups ==> k in s'.tables.groups && s'.tables.groups[k] == s.tables.groups[k])
    && (k in s.tables.groups && k !in s.groupBy ==> k !in s'.groupBy)
    && (m in s.tables.members && m !in s'.tables.members ==> a.Undo? && FlyingAt(s, a.pid) && m == RowOf(s.requests[a.pid]))
  }

  /** An invite in flight inserted its row itself, found it absent, and has been in flight with the row present ever since. */
  ghost predicate FlyingSince(run: seq<State>, actions: seq<Action>, j: nat, i: nat, pid: nat) {
    && j < i < |run| && j < |actions| && actions[j] == InsertRow(pid)
    && FlyingAt(run[i], pid) && var m := RowOf(run[i].requests[pid]);
    && m !in run[j].tables.members
    && forall k :: j < k <= i ==> FlyingAt(run[k], pid) && RowOf(run[k].requests[pid]) == m && m in run[k].tables.members
  }

  /** No invite in flight has this row. */
  ghost predicate Settled(s: State, m: MemberKey) {
    m in s.tables.members && forall q :: FlyingAt(s, q) ==> RowOf(s.requests[q]) != m
  }

  /** Why a request ends, and with what answer. */
  ghost predicate EndsWith(s: State, a: Action, pid: nat, p: Phase)
    requires At(s, pid)
  {
    var r := s.requests[pid];
    var stored := r.group in s.tables.groups;
    match p
    case CDone(None) =>
      || (a == CheckGroup(pid) && stored)
      || a == GiveUp(pid)
      || a == SaveTimesOut(pid)
      || (a == Save(pid) && r.phase.CSaving? && (stored || HasWire(s.tables.groups, r.group.bot, r.phase.wire)))
    case CDone(Some(wire)) =>
      a == Save(pid) && r.phase == CSaving(wire) && !stored && !HasWire(s.tables.groups, r.group.bot, wire)
    case IDone(true) =>
      || (a == CheckInvited(pid) && RowOf(r) in s.tables.members)
      || (a.Settle? && a.pid == pid && r.phase.IAnswered?
          && Succeeds(r.phase.outcome, a.ok, EngineHolds(s, r.group.bot, r.phase.wire, r.npub)))
    case IDone(false) =>
      (a == Load(pid) && !stored) || (a == InsertRow(pid) && !stored) || a == Undo(pid)
    case _ => false
  }

  ghost predicate DoneWell(s: State, pid: nat) {
    At(s, pid) && PhaseOf(s, pid) == IDone(true)
  }

  ghost predicate Done(p: Phase) {
    p.CDone? || p.IDone?
  }

  ghost predicate CreatedAt(s: State, pid: nat, k: GroupKey, wire: string) {
    At(s, pid) && s.requests[pid].group == k && PhaseOf(s, pid) == CDone(Some(wire))
  }

  // ----- Invites that find their row -----

  /** The request answers success because it finds the member row there. */
  ghost predicate AnswersAlreadyInvited(run: seq<State>, actions: seq<Action>, i: nat, pid: nat) {
    && i < |actions| && i + 1 < |run| && actions[i] == CheckInvited(pid) && At(run[i], pid)
    && RowOf(run[i].requests[pid]) in run[i].tables.members
  }

  /** The row stays from state `i` through state `j`. */
  ghost predicate RowStays(run: seq<State>, i: nat, j: nat, m: MemberKey)
    requires j < |run|
  {
    forall k :: i <= k <= j ==> m in run[k].tables.members
  }

  /** Step `k` is the rollback of an invite that had the row in flight at state `i`. */
  ghost predicate RollsBack(run: seq<State>, actions: seq<Action>, i: nat, k: nat, m: MemberKey) {
    && i <= k < |actions| && k < |run| && actions[k].Undo? && FlyingAt(run[i], actions[k].pid)
    && RowOf(run[i].requests[actions[k].pid]) == m
  }

  ghost predicate RolledBack(run: seq<State>, actions: seq<Action>, i: nat, j: nat, m: MemberKey) {
    exists k :: i <= k < j && RollsBack(run, actions, i, k, m)
  }

  // ----- Rows that a crash left -----

  /** The group a step makes in an engine, if it makes one. */
  ghost function EngineMade(s: State, a: Action): (g: Option<EngineKey>) {
    match a
    case EngineCreate(pid, wire, _) => if At(s, pid) then Some(EngineKey(s.requests[pid].group.bot, wire)) else None
    case LateEngineCreate(bot, wire, _) => Some(EngineKey(bot, wire))
    case _ => None
  }

  ghost function MembersMade(a: Action): set<string> {
    match a
    case EngineCreate(_, _, members) => members
    case LateEngineCreate(_, _, members) => members
    case _ => {}
  }

  /** What a step that neither sends nor runs a command does to queue and engines. */
  ghost predicate EngineFrame(s: State, s': State, a: Action) {
    && s'.queue == s.queue
    && s'.engine == match EngineMade(s, a) case Some(g) => s.engine[g := MembersMade(a)] case None => s.engine
  }

  /** The step makes an engine group for this wire id that has this member. */
  ghost predicate Makes(s: State, a: Action, bot: string, wire: string, npub: string) {
    EngineMade(s, a) == Some(EngineKey(bot, wire)) && npub in MembersMade(a)
  }

  /** Some step before state `i` made an engine group for this wire id that has this member. */
  ghost predicate MadeBefore(run: seq<State>, actions: seq<Action>, i: nat, bot: string, wire: string, npub: string) {
    exists k :: 0 <= k < i && k < |run| && k < |actions| && Makes(run[k], actions[k], bot, wire, npub)
  }

  /** A stored row for this wire id that no request has anything to do with any more. */
  ghost predicate Idle(s: State, m: MemberKey, wire: string) {
    && Settled(s, m) && GroupKnown(s, GroupKey(m.bot, m.name), wire) && NoCommandFor(s, m.bot, wire, m.npub)
  }

  /** What a crash leaves: the tables and the engines' own stores. */
  ghost function Restarted(s: State): State {
    State(map[], map[], s.tables, s.engine, [], {}, map[], map[],
          set m | m in s.tables.members && !RowHeld(s, m))
  }

  /** The engine holds the member of this row. */
  ghost predicate RowHeld(s: State, m: MemberKey) {
    var k := GroupKey(m.bot, m.name);
    k in s.tables.groups && EngineHolds(s, m.bot, s.tables.groups[k].wire, m.npub)
  }

  /** A row left over from before the run, and no create has made its engine group with the member in it. */
  ghost predicate StillUnbacked(run: seq<State>, actions: seq<Action>, i: nat, m: MemberKey)
    requires 0 < |run|
  {
    && m in run[0].leftover
    && forall wire :: GroupKnown(run[0], GroupKey(m.bot, m.name), wire) ==> !MadeBefore(run, actions, i, m.bot, wire, m.npub)
  }

  /** The engine has the group of this row. */
  ghost predicate EngineHasGroupOf(s: State, m: MemberKey) {
    var k := GroupKey(m.bot, m.name);
    k in s.tables.groups && EngineKey(m.bot, s.tables.groups[k].wire) in s.engine
  }

  /** A success answered at state `i` has proved right by state `j`: the row has stayed, no invite in flight can still
      take it back, and the engine holds the member. */
  ghost predicate ProvedRight(run: seq<State>, i: nat, j: nat, m: MemberKey)
    requires j < |run|
  {
    RowStays(run, i, j, m) && Settled(run[j], m) && RowHeld(run[j], m)
  }

  /** A run and the step before which the daemon crashed. */
  datatype Life = Life(run: seq<State>, actions: seq<Action>, crash: nat)

  /** Lives of the daemon, each but the first begun with what the crash before it left. */
  ghost predicate AreLives(shard: GroupKey -> nat, lives: seq<Life>) {
    && (forall n :: 0 <= n < |lives| ==> IsRun(shard, lives[n].run, lives[n].actions) && lives[n].crash < |lives[n].run|)
    && (forall n :: 0 <= n < |lives| - 1 ==> lives[n + 1].run[0] == Restarted(lives[n].run[lives[n].crash]))
  }

  /** Life `n` crashed while an invite for this row was in flight. */
  ghost predicate CrashedInFlight(life: Life, m: MemberKey) {
    && life.crash < |life.run|
    && exists q :: FlyingAt(life.run[life.crash], q) && RowOf(life.run[life.crash].requests[q]) == m
  }

  /** The save of this create has run out of time before state `i`. */
  ghost predicate SaveTimedOut(run: seq<State>, actions: seq<Action>, i: nat, pid: nat) {
    exists j :: 0 <= j < i && j < |actions| && actions[j] == SaveTimesOut(pid)
  }

  /** Who may have put a group row there in one step: a create that saves, or a job that outlived its create. */
  ghost predicate SavesFrame(s: State, s': State, a: Action) {
    && (forall job :: job in s'.lateSaves ==> job in s.lateSaves || a == SaveTimesOut(job.pid))
    && (forall k :: k in s'.groupBy ==>
          || (k in s.groupBy && s'.groupBy[k] == s.groupBy[k])
          || (a == Save(s'.groupBy[k]) && At(s', s'.groupBy[k]) && PhaseOf(s', s'.groupBy[k]).CDone?
              && PhaseOf(s', s'.groupBy[k]).created.Some?)
          || (exists job :: job in s.lateSaves && job.pid == s'.groupBy[k]))
  }

  // ----- Particular runs -----

  /** The same state with a request in this phase, and these locks. */
  ghost function WithRequest(s: State, pid: nat, k: GroupKey, npub: string, p: Phase, locks: map<nat, nat>): State {
    s.(requests := s.requests[pid := Request(k, npub, p)], locks := locks)
  }

  ghost function WithEngine(s: State, g: EngineKey, members: set<string>): State {
    s.(engine := s.engine[g := members])
  }

  ghost function WithMember(s: State, m: MemberKey, pid: nat): State {
    s.(tables := s.tables.(members := s.tables.members + {m}), memberBy := s.memberBy[m := pid])
  }

  ghost function WithGroup(s: State, k: GroupKey, wire: string, pid: nat): State {
    s.(tables := s.tables.(groups := s.tables.groups[k := GroupRow(wire, "", "", None)]), groupBy := s.groupBy[k := pid])
  }

  /** A new request for `k` may start and find the lock of its group free. */
  ghost predicate MayStart(shard: GroupKey -> nat, s: State, pid: nat, k: GroupKey) {
    pid !in s.requests && shard(k) !in s.locks
  }

  /** The engines once the worker has run a command to this outcome. */
  ghost function Worked(s: State, g: EngineKey, members: set<string>): State {
    if g in s.engine then WithEngine(s, g, members) else s
  }

  ghost predicate NothingQueuedFor(s: State, bot: string) {
    forall i :: 0 <= i < |s.queue| ==> s.queue[i].bot != bot
  }

  /** An invite that was answered so by the worker, and then by the relays, has succeeded. */
  ghost predicate Succeeds(outcome: Outcome, published: bool, held: bool) {
    published && (outcome == Added || (outcome == Failed && held))
  }

  /** One stored group without members, and a number of requests. */
  ghost function With(k: GroupKey, wire: string, requests: map<nat, Request>, locks: map<nat, nat>,
                      members: set<MemberKey>, memberBy: map<MemberKey, nat>): State {
    State(requests, locks, Tables(map[k := NewRow(wire)], members, map[]), map[EngineKey(k.bot, wire) := {}],
          [], {}, map[], memberBy, {})
  }

  /** Both requests, the second answered. */
  ghost function Both(shard: GroupKey -> nat, k: GroupKey, npub: string, wire: string, first: Phase): State {
    var m := MemberKey(k.bot, k.name, npub);
    With(k, wire, map[0 := Request(k, npub, first), 1 := Request(k, npub, IDone(true))],
         if first.IUndoing? then map[shard(k) := 0] else map[], if first.IDone? then {} else {m}, map[m := 0])
  }
}

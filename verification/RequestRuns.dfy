/** What becomes of a create or an invite that nothing gets in the way of, from any state of any run; and why requests end. */
module RequestRuns {
  import opened Wrappers
  import opened GroupTables
  import opened GroupProtocol
  import opened GroupSteps
  import opened GroupRuns

  lemma OneMoreStep(shard: GroupKey -> nat, run: seq<State>, actions: seq<Action>, a: Action, s: State)
    requires IsRun(shard, run, actions) && Enabled(shard, run[|actions|], a) && Do(shard, run[|actions|], a) == s
    ensures IsRun(shard, run + [s], actions + [a])
  {
    var run', actions' := run + [s], actions + [a];
    forall i | 0 <= i < |actions'|
      ensures Enabled(shard, run'[i], actions'[i]) && run'[i + 1] == Do(shard, run'[i], actions'[i])
    {
      assert i < |actions| ==> run'[i] == run[i] && run'[i + 1] == run[i + 1] && actions'[i] == actions[i];
    }
  }

  /** Any request that waits for a free lock gets it. */
  lemma RequestLocks(shard: GroupKey -> nat, s: State, pid: nat, k: GroupKey, npub: string, p: Phase)
    requires shard(k) !in s.locks && (p.CStart? || p.CCreated? || p.IStart? || p.IFailed?)
    ensures var s1 := WithRequest(s, pid, k, npub, p, s.locks);
            && Enabled(shard, s1, Acquire(pid))
            && Do(shard, s1, Acquire(pid)) == WithRequest(s, pid, k, npub, Locked(p), s.locks[shard(k) := pid])
  {
    var s1, s2 := WithRequest(s, pid, k, npub, p, s.locks), WithRequest(s, pid, k, npub, Locked(p), s.locks[shard(k) := pid]);
    assert AcquireDone(shard, s1, pid).requests == s2.requests;
  }

  lemma RequestStarts(shard: GroupKey -> nat, s: State, pid: nat, k: GroupKey, npub: string, p: Phase)
    requires pid !in s.requests && (p == CStart || p == IStart)
    ensures var a := Spawn(pid, Request(k, npub, p));
            Enabled(shard, s, a) && Do(shard, s, a) == WithRequest(s, pid, k, npub, p, s.locks)
  {
  }

  /** Whoever has the lock and leaves the locks as they were has given it back. */
  lemma LockReturned(shard: GroupKey -> nat, s: State, pid: nat, k: GroupKey)
    requires shard(k) !in s.locks
    ensures s.locks[shard(k) := pid] - {shard(k)} == s.locks
  {
  }

  // ----- Creates -----

  lemma CreateFindsNameFree(shard: GroupKey -> nat, s: State, pid: nat, k: GroupKey, npub: string)
    requires shard(k) !in s.locks && k !in s.tables.groups
    ensures var s2 := WithRequest(s, pid, k, npub, CChecking, s.locks[shard(k) := pid]);
            && Enabled(shard, s2, CheckGroup(pid))
            && Do(shard, s2, CheckGroup(pid)) == WithRequest(s, pid, k, npub, CChecked, s.locks)
  {
    var s2 := WithRequest(s, pid, k, npub, CChecking, s.locks[shard(k) := pid]);
    LockReturned(shard, s, pid, k);
    assert CheckGroupDone(shard, s2, pid).requests == s2.requests[pid := Request(k, npub, CChecked)];
    assert s2.requests[pid := Request(k, npub, CChecked)] == s.requests[pid := Request(k, npub, CChecked)];
  }

  lemma EngineMakesGroup(shard: GroupKey -> nat, s: State, pid: nat, k: GroupKey, npub: string, wire: string, members: set<string>)
    requires EngineKey(k.bot, wire) !in s.engine && npub in members
    ensures var s3, a := WithRequest(s, pid, k, npub, CChecked, s.locks), EngineCreate(pid, wire, members);
            && Enabled(shard, s3, a)
            && Do(shard, s3, a) == WithRequest(WithEngine(s, EngineKey(k.bot, wire), members), pid, k, npub, CCreated(wire), s.locks)
  {
    var s3 := WithRequest(s, pid, k, npub, CChecked, s.locks);
    assert EngineCreateDone(s3, pid, wire, members).requests == s.requests[pid := Request(k, npub, CCreated(wire))];
  }

  /** The group row and the recipient's member row go in together. */
  lemma CreateSaves(shard: GroupKey -> nat, s: State, pid: nat, k: GroupKey, npub: string, wire: string)
    requires shard(k) !in s.locks && k !in s.tables.groups && !HasWire(s.tables.groups, k.bot, wire)
    ensures var s5 := WithRequest(s, pid, k, npub, CSaving(wire), s.locks[shard(k) := pid]);
            && Enabled(shard, s5, Save(pid))
            && Do(shard, s5, Save(pid))
               == WithRequest(WithGroup(WithMember(s, MemberKey(k.bot, k.name, npub), pid), k, wire, pid), pid, k, npub,
                              CDone(Some(wire)), s.locks)
  {
    var s5 := WithRequest(s, pid, k, npub, CSaving(wire), s.locks[shard(k) := pid]);
    LockReturned(shard, s, pid, k);
    assert MemberKeys(k.bot, k.name, [npub]) == {MemberKey(k.bot, k.name, npub)} by {
      assert [npub][0] == npub;
    }
    assert SaveDone(shard, s5, pid).requests == s.requests[pid := Request(k, npub, CDone(Some(wire)))];
  }

  lemma CreateGetsThrough(shard: GroupKey -> nat, run: seq<State>, actions: seq<Action>, pid: nat, k: GroupKey, npub: string)
    returns (run': seq<State>, actions': seq<Action>)
    requires IsRun(shard, run, actions) && MayStart(shard, run[|actions|], pid, k) && k !in run[|actions|].tables.groups
    ensures IsRun(shard, run', actions')
    ensures actions' == actions + [Spawn(pid, Request(k, npub, CStart)), Acquire(pid), CheckGroup(pid)]
    ensures run'[|actions'|] == WithRequest(run[|actions|], pid, k, npub, CChecked, run[|actions|].locks)
  {
    var s := run[|actions|];
    var s1, s2 := WithRequest(s, pid, k, npub, CStart, s.locks), WithRequest(s, pid, k, npub, CChecking, s.locks[shard(k) := pid]);
    var s3 := WithRequest(s, pid, k, npub, CChecked, s.locks);
    RequestStarts(shard, s, pid, k, npub, CStart);
    OneMoreStep(shard, run, actions, Spawn(pid, Request(k, npub, CStart)), s1);
    run', actions' := run + [s1], actions + [Spawn(pid, Request(k, npub, CStart))];
    RequestLocks(shard, s, pid, k, npub, CStart);
    OneMoreStep(shard, run', actions', Acquire(pid), s2);
    run', actions' := run' + [s2], actions' + [Acquire(pid)];
    CreateFindsNameFree(shard, s, pid, k, npub);
    OneMoreStep(shard, run', actions', CheckGroup(pid), s3);
    run', actions' := run' + [s3], actions' + [CheckGroup(pid)];
  }

  lemma CreateGetsMade(shard: GroupKey -> nat, run: seq<State>, actions: seq<Action>, pid: nat, k: GroupKey, npub: string,
                       wire: string, members: set<string>)
    returns (run': seq<State>, actions': seq<Action>)
    requires IsRun(shard, run, actions) && MayStart(shard, run[|actions|], pid, k) && k !in run[|actions|].tables.groups
    requires EngineKey(k.bot, wire) !in run[|actions|].engine && npub in members
    ensures IsRun(shard, run', actions')
    ensures actions' == actions + [Spawn(pid, Request(k, npub, CStart)), Acquire(pid), CheckGroup(pid),
                                   EngineCreate(pid, wire, members)]
    ensures var s := WithEngine(run[|actions|], EngineKey(k.bot, wire), members);
            run'[|actions'|] == WithRequest(s, pid, k, npub, CCreated(wire), s.locks)
  {
    var s := run[|actions|];
    run', actions' := CreateGetsThrough(shard, run, actions, pid, k, npub);
    EngineMakesGroup(shard, s, pid, k, npub, wire, members);
    var s4 := WithRequest(WithEngine(s, EngineKey(k.bot, wire), members), pid, k, npub, CCreated(wire), s.locks);
    OneMoreStep(shard, run', actions', EngineCreate(pid, wire, members), s4);
    run', actions' := run' + [s4], actions' + [EngineCreate(pid, wire, members)];
  }

  /** From any state of any run: if the name is not stored, its lock is free and the engine comes up with a wire id that is
      nowhere yet, a new create succeeds, and the group and the recipient's membership are stored and held. */
  lemma FreeNameIsCreated(shard: GroupKey -> nat, run: seq<State>, actions: seq<Action>, pid: nat, k: GroupKey, npub: string,
                          wire: string, members: set<string>)
    returns (run': seq<State>, actions': seq<Action>)
    requires IsRun(shard, run, actions) && MayStart(shard, run[|actions|], pid, k)
    requires k !in run[|actions|].tables.groups && !HasWire(run[|actions|].tables.groups, k.bot, wire)
    requires EngineKey(k.bot, wire) !in run[|actions|].engine && npub in members
    ensures IsRun(shard, run', actions')
    ensures actions' == actions + [Spawn(pid, Request(k, npub, CStart)), Acquire(pid), CheckGroup(pid),
                                   EngineCreate(pid, wire, members), Acquire(pid), Save(pid)]
    ensures var s := WithMember(WithEngine(run[|actions|], EngineKey(k.bot, wire), members), MemberKey(k.bot, k.name, npub), pid);
            run'[|actions'|] == WithRequest(WithGroup(s, k, wire, pid), pid, k, npub, CDone(Some(wire)), s.locks)
  {
    run', actions' := CreateGetsMade(shard, run, actions, pid, k, npub, wire, members);
    var s := WithEngine(run[|actions|], EngineKey(k.bot, wire), members);
    run', actions' := CreateComesBack(shard, run', actions', s, pid, k, npub, wire);
  }

  /** A create back from the engine takes the lock again and saves. */
  lemma CreateComesBack(shard: GroupKey -> nat, run: seq<State>, actions: seq<Action>, s: State, pid: nat, k: GroupKey,
                        npub: string, wire: string)
    returns (run': seq<State>, actions': seq<Action>)
    requires IsRun(shard, run, actions) && run[|actions|] == WithRequest(s, pid, k, npub, CCreated(wire), s.locks)
    requires shard(k) !in s.locks && k !in s.tables.groups && !HasWire(s.tables.groups, k.bot, wire)
    ensures IsRun(shard, run', actions') && actions' == actions + [Acquire(pid), Save(pid)]
    ensures run'[|actions'|] == WithRequest(WithGroup(WithMember(s, MemberKey(k.bot, k.name, npub), pid), k, wire, pid), pid, k,
                                            npub, CDone(Some(wire)), s.locks)
  {
    var s5 := WithRequest(s, pid, k, npub, CSaving(wire), s.locks[shard(k) := pid]);
    var s6 := WithRequest(WithGroup(WithMember(s, MemberKey(k.bot, k.name, npub), pid), k, wire, pid), pid, k, npub,
                          CDone(Some(wire)), s.locks);
    RequestLocks(shard, s, pid, k, npub, CCreated(wire));
    OneMoreStep(shard, run, actions, Acquire(pid), s5);
    run', actions' := run + [s5], actions + [Acquire(pid)];
    CreateSaves(shard, s, pid, k, npub, wire);
    OneMoreStep(shard, run', actions', Save(pid), s6);
    run', actions' := run' + [s6], actions' + [Save(pid)];
  }

  lemma SaveRunsLate(shard: GroupKey -> nat, s: State, pid: nat, k: GroupKey, npub: string, wire: string)
    requires shard(k) !in s.locks && k !in s.tables.groups && !HasWire(s.tables.groups, k.bot, wire)
    ensures var s5 := WithRequest(s, pid, k, npub, CSaving(wire), s.locks[shard(k) := pid]);
            var job := LateSave(pid, k, npub, wire);
            var s6 := WithRequest(s.(lateSaves := s.lateSaves + {job}), pid, k, npub, CDone(None), s.locks);
            && Enabled(shard, s5, SaveTimesOut(pid)) && Do(shard, s5, SaveTimesOut(pid)) == s6
            && Enabled(shard, s6, RunLateSave(job))
            && Do(shard, s6, RunLateSave(job))
               == WithRequest(WithGroup(WithMember(s, MemberKey(k.bot, k.name, npub), pid), k, wire, pid)
                              .(lateSaves := s.lateSaves + {job} - {job}), pid, k, npub, CDone(None), s.locks)
  {
    var s5 := WithRequest(s, pid, k, npub, CSaving(wire), s.locks[shard(k) := pid]);
    LockReturned(shard, s, pid, k);
    assert MemberKeys(k.bot, k.name, [npub]) == {MemberKey(k.bot, k.name, npub)} by {
      assert [npub][0] == npub;
    }
    assert SaveTimesOutDone(shard, s5, pid).requests == s.requests[pid := Request(k, npub, CDone(None))];
  }

  /** A create whose insert outlasts its time answers failure, and its group may be stored all the same. */
  lemma TimedOutCreateMayBeStored(shard: GroupKey -> nat, run: seq<State>, actions: seq<Action>, pid: nat, k: GroupKey,
                                  npub: string, wire: string, members: set<string>)
    returns (run': seq<State>, actions': seq<Action>)
    requires IsRun(shard, run, actions) && MayStart(shard, run[|actions|], pid, k)
    requires k !in run[|actions|].tables.groups && !HasWire(run[|actions|].tables.groups, k.bot, wire)
    requires EngineKey(k.bot, wire) !in run[|actions|].engine && npub in members
    ensures IsRun(shard, run', actions')
    ensures At(run'[|actions'|], pid) && PhaseOf(run'[|actions'|], pid) == CDone(None)
    ensures GroupKnown(run'[|actions'|], k, wire) && MemberKey(k.bot, k.name, npub) in run'[|actions'|].tables.members
  {
    var s := WithEngine(run[|actions|], EngineKey(k.bot, wire), members);
    var job := LateSave(pid, k, npub, wire);
    run', actions' := CreateGetsMade(shard, run, actions, pid, k, npub, wire, members);
    var s5 := WithRequest(s, pid, k, npub, CSaving(wire), s.locks[shard(k) := pid]);
    var s6 := WithRequest(s.(lateSaves := s.lateSaves + {job}), pid, k, npub, CDone(None), s.locks);
    RequestLocks(shard, s, pid, k, npub, CCreated(wire));
    OneMoreStep(shard, run', actions', Acquire(pid), s5);
    run', actions' := run' + [s5], actions' + [Acquire(pid)];
    SaveRunsLate(shard, s, pid, k, npub, wire);
    OneMoreStep(shard, run', actions', SaveTimesOut(pid), s6);
    run', actions' := run' + [s6], actions' + [SaveTimesOut(pid)];
    var s7 := Do(shard, s6, RunLateSave(job));
    OneMoreStep(shard, run', actions', RunLateSave(job), s7);
    run', actions' := run' + [s7], actions' + [RunLateSave(job)];
  }

  // ----- Invites -----

  lemma InviteLoads(shard: GroupKey -> nat, s: State, pid: nat, k: GroupKey, npub: string, locks: map<nat, nat>)
    requires k in s.tables.groups
    ensures var s2 := WithRequest(s, pid, k, npub, ILocked, locks);
            && Enabled(shard, s2, Load(pid))
            && Do(shard, s2, Load(pid)) == WithRequest(s, pid, k, npub, ILoaded(s.tables.groups[k].wire), locks)
  {
    var s2, s3 := WithRequest(s, pid, k, npub, ILocked, locks),
                  WithRequest(s, pid, k, npub, ILoaded(s.tables.groups[k].wire), locks);
    assert LoadDone(shard, s2, pid).requests == s3.requests;
  }

  lemma InviteFindsRow(shard: GroupKey -> nat, s: State, pid: nat, k: GroupKey, npub: string, wire: string)
    requires MemberKey(k.bot, k.name, npub) in s.tables.members && shard(k) !in s.locks
    ensures var s3 := WithRequest(s, pid, k, npub, ILoaded(wire), s.locks[shard(k) := pid]);
            && Enabled(shard, s3, CheckInvited(pid))
            && Do(shard, s3, CheckInvited(pid)) == WithRequest(s, pid, k, npub, IDone(true), s.locks)
  {
    var s3, s4 := WithRequest(s, pid, k, npub, ILoaded(wire), s.locks[shard(k) := pid]),
                  WithRequest(s, pid, k, npub, IDone(true), s.locks);
    assert CheckInvitedDone(shard, s3, pid).requests == s4.requests;
    assert CheckInvitedDone(shard, s3, pid).locks == s4.locks;
  }

  lemma InviteFindsNoRow(shard: GroupKey -> nat, s: State, pid: nat, k: GroupKey, npub: string, wire: string,
                         locks: map<nat, nat>)
    requires MemberKey(k.bot, k.name, npub) !in s.tables.members
    ensures var s3 := WithRequest(s, pid, k, npub, ILoaded(wire), locks);
            && Enabled(shard, s3, CheckInvited(pid))
            && Do(shard, s3, CheckInvited(pid)) == WithRequest(s, pid, k, npub, IFree(wire), locks)
  {
    var s3, s4 := WithRequest(s, pid, k, npub, ILoaded(wire), locks), WithRequest(s, pid, k, npub, IFree(wire), locks);
    assert CheckInvitedDone(shard, s3, pid).requests == s4.requests;
  }

  /** From any state of any run, a new invite for a stored group whose lock is free takes the lock and loads the group. */
  lemma InviteGetsIn(shard: GroupKey -> nat, run: seq<State>, actions: seq<Action>, pid: nat, k: GroupKey, npub: string)
    returns (run': seq<State>, actions': seq<Action>)
    requires IsRun(shard, run, actions)
    requires MayStart(shard, run[|actions|], pid, k) && k in run[|actions|].tables.groups
    ensures IsRun(shard, run', actions') && run'[0] == run[0]
    ensures actions' == actions + [Spawn(pid, Request(k, npub, IStart)), Acquire(pid), Load(pid)]
    ensures var s := run[|actions|];
            run'[|actions'|] == WithRequest(s, pid, k, npub, ILoaded(s.tables.groups[k].wire), s.locks[shard(k) := pid])
  {
    var s := run[|actions|];
    var locks := s.locks[shard(k) := pid];
    var s1, s2 := WithRequest(s, pid, k, npub, IStart, s.locks), WithRequest(s, pid, k, npub, ILocked, locks);
    var s3 := WithRequest(s, pid, k, npub, ILoaded(s.tables.groups[k].wire), locks);
    RequestStarts(shard, s, pid, k, npub, IStart);
    OneMoreStep(shard, run, actions, Spawn(pid, Request(k, npub, IStart)), s1);
    run', actions' := run + [s1], actions + [Spawn(pid, Request(k, npub, IStart))];
    RequestLocks(shard, s, pid, k, npub, IStart);
    OneMoreStep(shard, run', actions', Acquire(pid), s2);
    run', actions' := run' + [s2], actions' + [Acquire(pid)];
    InviteLoads(shard, s, pid, k, npub, locks);
    OneMoreStep(shard, run', actions', Load(pid), s3);
    run', actions' := run' + [s3], actions' + [Load(pid)];
  }

  lemma InviteInserts(shard: GroupKey -> nat, s: State, pid: nat, k: GroupKey, npub: string, wire: string)
    requires shard(k) !in s.locks && k in s.tables.groups
    ensures var s4, m := WithRequest(s, pid, k, npub, IFree(wire), s.locks[shard(k) := pid]), MemberKey(k.bot, k.name, npub);
            && Enabled(shard, s4, InsertRow(pid))
            && Do(shard, s4, InsertRow(pid)) == WithRequest(WithMember(s, m, pid), pid, k, npub, IInserted(wire), s.locks)
  {
    var s4 := WithRequest(s, pid, k, npub, IFree(wire), s.locks[shard(k) := pid]);
    LockReturned(shard, s, pid, k);
    assert InsertRowDone(shard, s4, pid).requests == s.requests[pid := Request(k, npub, IInserted(wire))];
  }

  /** From any state of any run, a new invite for a stored group and an absent member inserts the member's row. */
  lemma InviteGoesOut(shard: GroupKey -> nat, run: seq<State>, actions: seq<Action>, pid: nat, k: GroupKey, npub: string)
    returns (run': seq<State>, actions': seq<Action>)
    requires IsRun(shard, run, actions) && MayStart(shard, run[|actions|], pid, k)
    requires k in run[|actions|].tables.groups && MemberKey(k.bot, k.name, npub) !in run[|actions|].tables.members
    ensures IsRun(shard, run', actions') && run'[0] == run[0]
    ensures actions' == actions + [Spawn(pid, Request(k, npub, IStart)), Acquire(pid), Load(pid), CheckInvited(pid), InsertRow(pid)]
    ensures var s := run[|actions|];
            run'[|actions'|] == WithRequest(WithMember(s, MemberKey(k.bot, k.name, npub), pid), pid, k, npub,
                                            IInserted(s.tables.groups[k].wire), s.locks)
  {
    var s := run[|actions|];
    var wire, locks := s.tables.groups[k].wire, s.locks[shard(k) := pid];
    run', actions' := InviteGetsIn(shard, run, actions, pid, k, npub);
    InviteFindsNoRow(shard, s, pid, k, npub, wire, locks);
    var s4 := WithRequest(s, pid, k, npub, IFree(wire), locks);
    OneMoreStep(shard, run', actions', CheckInvited(pid), s4);
    run', actions' := run' + [s4], actions' + [CheckInvited(pid)];
    InviteInserts(shard, s, pid, k, npub, wire);
    var s5 := WithRequest(WithMember(s, MemberKey(k.bot, k.name, npub), pid), pid, k, npub, IInserted(wire), s.locks);
    OneMoreStep(shard, run', actions', InsertRow(pid), s5);
    run', actions' := run' + [s5], actions' + [InsertRow(pid)];
  }

  // ----- What comes of an invite -----

  lemma InviteIsSent(shard: GroupKey -> nat, s: State, pid: nat, k: GroupKey, npub: string, wire: string)
    ensures var s5, c := WithRequest(s, pid, k, npub, IInserted(wire), s.locks), Command(pid, k.bot, wire, npub);
            && Enabled(shard, s5, Send(pid))
            && Do(shard, s5, Send(pid)) == WithRequest(s.(queue := s.queue + [c]), pid, k, npub, ISent(wire), s.locks)
  {
    var s5 := WithRequest(s, pid, k, npub, IInserted(wire), s.locks);
    assert SendDone(s5, pid).requests == s.requests[pid := Request(k, npub, ISent(wire))];
  }

  lemma WorkerAnswers(shard: GroupKey -> nat, s: State, pid: nat, k: GroupKey, npub: string, wire: string, outcome: Outcome,
                      members: set<string>)
    requires NothingQueuedFor(s, k.bot) && EngineMay(s, Command(pid, k.bot, wire, npub), outcome, members)
    ensures var c, a := Command(pid, k.bot, wire, npub), Work(|s.queue|, outcome, members);
            var s6 := WithRequest(s.(queue := s.queue + [c]), pid, k, npub, ISent(wire), s.locks);
            && Enabled(shard, s6, a)
            && Do(shard, s6, a)
               == WithRequest(Worked(s, EngineKey(k.bot, wire), members), pid, k, npub, IAnswered(wire, outcome), s.locks)
  {
    var c := Command(pid, k.bot, wire, npub);
    var s6 := WithRequest(s.(queue := s.queue + [c]), pid, k, npub, ISent(wire), s.locks);
    var q, n := s6.queue, |s.queue|;
    assert q[n] == c && forall j :: 0 <= j < n ==> q[j] == s.queue[j];
    assert q[..n] + q[n + 1..] == s.queue;
    assert WorkDone(s6, n, outcome, members).requests == s.requests[pid := Request(k, npub, IAnswered(wire, outcome))];
  }

  lemma InviteSettles(shard: GroupKey -> nat, s: State, pid: nat, k: GroupKey, npub: string, wire: string, outcome: Outcome,
                      published: bool)
    ensures var s7, a := WithRequest(s, pid, k, npub, IAnswered(wire, outcome), s.locks), Settle(pid, published);
            && Enabled(shard, s7, a)
            && Do(shard, s7, a)
               == WithRequest(s, pid, k, npub, if Succeeds(outcome, published, EngineHolds(s, k.bot, wire, npub)) then IDone(true)
                                               else IFailed(wire), s.locks)
  {
    var s7 := WithRequest(s, pid, k, npub, IAnswered(wire, outcome), s.locks);
    var p := if Succeeds(outcome, published, EngineHolds(s, k.bot, wire, npub)) then IDone(true) else IFailed(wire);
    assert SettleDone(s7, pid, published).requests == s.requests[pid := Request(k, npub, p)];
  }

  lemma InviteUndoes(shard: GroupKey -> nat, s: State, pid: nat, k: GroupKey, npub: string, wire: string)
    requires shard(k) !in s.locks
    ensures var s9, m := WithRequest(s, pid, k, npub, IUndoing(wire), s.locks[shard(k) := pid]), MemberKey(k.bot, k.name, npub);
            && Enabled(shard, s9, Undo(pid))
            && Do(shard, s9, Undo(pid))
               == WithRequest(s.(tables := s.tables.(members := s.tables.members - {m})), pid, k, npub, IDone(false), s.locks)
  {
    var s9 := WithRequest(s, pid, k, npub, IUndoing(wire), s.locks[shard(k) := pid]);
    LockReturned(shard, s, pid, k);
    assert UndoDone(shard, s9, pid).requests == s.requests[pid := Request(k, npub, IDone(false))];
  }

  /** The worker runs the invite's command, the only one for its bot, and the invite hears of it. */
  lemma InviteIsWorked(shard: GroupKey -> nat, run: seq<State>, actions: seq<Action>, s: State, pid: nat, k: GroupKey,
                       npub: string, wire: string, outcome: Outcome, members: set<string>, published: bool)
    returns (run': seq<State>, actions': seq<Action>)
    requires IsRun(shard, run, actions) && run[|actions|] == WithRequest(s, pid, k, npub, IInserted(wire), s.locks)
    requires NothingQueuedFor(s, k.bot) && EngineMay(s, Command(pid, k.bot, wire, npub), outcome, members)
    ensures IsRun(shard, run', actions')
    ensures actions' == actions + [Send(pid), Work(|s.queue|, outcome, members), Settle(pid, published)]
    ensures var s' := Worked(s, EngineKey(k.bot, wire), members);
            run'[|actions'|]
            == WithRequest(s', pid, k, npub, if Succeeds(outcome, published, EngineHolds(s', k.bot, wire, npub)) then IDone(true)
                                             else IFailed(wire), s.locks)
  {
    var s' := Worked(s, EngineKey(k.bot, wire), members);
    var s6 := WithRequest(s.(queue := s.queue + [Command(pid, k.bot, wire, npub)]), pid, k, npub, ISent(wire), s.locks);
    var s7 := WithRequest(s', pid, k, npub, IAnswered(wire, outcome), s.locks);
    InviteIsSent(shard, s, pid, k, npub, wire);
    OneMoreStep(shard, run, actions, Send(pid), s6);
    run', actions' := run + [s6], actions + [Send(pid)];
    WorkerAnswers(shard, s, pid, k, npub, wire, outcome, members);
    OneMoreStep(shard, run', actions', Work(|s.queue|, outcome, members), s7);
    run', actions' := run' + [s7], actions' + [Work(|s.queue|, outcome, members)];
    InviteSettles(shard, s', pid, k, npub, wire, outcome, published);
    var s8 := Do(shard, s7, Settle(pid, published));
    OneMoreStep(shard, run', actions', Settle(pid, published), s8);
    run', actions' := run' + [s8], actions' + [Settle(pid, published)];
  }

  /** An invite that failed takes the lock again and its row back. */
  lemma InviteRollsBack(shard: GroupKey -> nat, run: seq<State>, actions: seq<Action>, s: State, pid: nat, k: GroupKey,
                        npub: string, wire: string)
    returns (run': seq<State>, actions': seq<Action>)
    requires IsRun(shard, run, actions) && run[|actions|] == WithRequest(s, pid, k, npub, IFailed(wire), s.locks)
    requires shard(k) !in s.locks
    ensures IsRun(shard, run', actions') && actions' == actions + [Acquire(pid), Undo(pid)]
    ensures var m := MemberKey(k.bot, k.name, npub);
            run'[|actions'|]
            == WithRequest(s.(tables := s.tables.(members := s.tables.members - {m})), pid, k, npub, IDone(false), s.locks)
  {
    var s9 := WithRequest(s, pid, k, npub, IUndoing(wire), s.locks[shard(k) := pid]);
    RequestLocks(shard, s, pid, k, npub, IFailed(wire));
    OneMoreStep(shard, run, actions, Acquire(pid), s9);
    run', actions' := run + [s9], actions + [Acquire(pid)];
    InviteUndoes(shard, s, pid, k, npub, wire);
    var s10 := Do(shard, s9, Undo(pid));
    OneMoreStep(shard, run', actions', Undo(pid), s10);
    run', actions' := run' + [s10], actions' + [Undo(pid)];
  }

  /** The steps of an invite up to its outcome. */
  ghost function Course(s: State, pid: nat, k: GroupKey, npub: string, outcome: Outcome, members: set<string>, published: bool)
    : seq<Action>
  {
    [Spawn(pid, Request(k, npub, IStart)), Acquire(pid), Load(pid), CheckInvited(pid), InsertRow(pid)]
    + [Send(pid), Work(|s.queue|, outcome, members), Settle(pid, published)]
  }

  /** The engine may answer a new invite so, and nothing gets in the invite's way. */
  ghost predicate MayRunItsCourse(shard: GroupKey -> nat, s: State, pid: nat, k: GroupKey, npub: string, outcome: Outcome,
                                  members: set<string>)
  {
    && MayStart(shard, s, pid, k) && NothingQueuedFor(s, k.bot)
    && k in s.tables.groups && MemberKey(k.bot, k.name, npub) !in s.tables.members
    && EngineMay(s, Command(pid, k.bot, s.tables.groups[k].wire, npub), outcome, members)
  }

  lemma InviteRunsItsCourse(shard: GroupKey -> nat, run: seq<State>, actions: seq<Action>, pid: nat, k: GroupKey, npub: string,
                            outcome: Outcome, members: set<string>, published: bool)
    returns (run': seq<State>, actions': seq<Action>)
    requires IsRun(shard, run, actions) && MayRunItsCourse(shard, run[|actions|], pid, k, npub, outcome, members)
    ensures IsRun(shard, run', actions')
    ensures actions' == actions + Course(run[|actions|], pid, k, npub, outcome, members, published)
    ensures var s := run[|actions|];
            var wire := s.tables.groups[k].wire;
            var s' := WithMember(Worked(s, EngineKey(k.bot, wire), members), MemberKey(k.bot, k.name, npub), pid);
            run'[|actions'|]
            == WithRequest(s', pid, k, npub, if Succeeds(outcome, published, EngineHolds(s', k.bot, wire, npub)) then IDone(true)
                                             else IFailed(wire), s.locks)
  {
    var s, m := run[|actions|], MemberKey(k.bot, k.name, npub);
    var wire := s.tables.groups[k].wire;
    var inserted := WithMember(s, m, pid);
    run', actions' := InviteGoesOut(shard, run, actions, pid, k, npub);
    run', actions' := InviteIsWorked(shard, run', actions', inserted, pid, k, npub, wire, outcome, members, published);
    assert Worked(inserted, EngineKey(k.bot, wire), members) == WithMember(Worked(s, EngineKey(k.bot, wire), members), m, pid);
  }

  /** From any state of any run, an invite nothing gets in the way of succeeds if it is published and the member was added
      or, failing that, is there all the same. Its row is then stored, and the engine holds the member. */
  lemma InviteSucceeds(shard: GroupKey -> nat, run: seq<State>, actions: seq<Action>, pid: nat, k: GroupKey, npub: string,
                       outcome: Outcome, members: set<string>, published: bool)
    returns (run': seq<State>, actions': seq<Action>)
    requires IsRun(shard, run, actions) && MayRunItsCourse(shard, run[|actions|], pid, k, npub, outcome, members)
    requires var wire := run[|actions|].tables.groups[k].wire;
             Succeeds(outcome, published, EngineHolds(Worked(run[|actions|], EngineKey(k.bot, wire), members), k.bot, wire, npub))
    ensures IsRun(shard, run', actions')
    ensures actions' == actions + Course(run[|actions|], pid, k, npub, outcome, members, published)
    ensures var s := run[|actions|];
            var wire := s.tables.groups[k].wire;
            var s' := WithMember(Worked(s, EngineKey(k.bot, wire), members), MemberKey(k.bot, k.name, npub), pid);
            run'[|actions'|] == WithRequest(s', pid, k, npub, IDone(true), s.locks) && EngineHolds(s', k.bot, wire, npub)
  {
    run', actions' := InviteRunsItsCourse(shard, run, actions, pid, k, npub, outcome, members, published);
  }

  /** Otherwise it fails, and its row is gone. */
  lemma InviteFails(shard: GroupKey -> nat, run: seq<State>, actions: seq<Action>, pid: nat, k: GroupKey, npub: string,
                    outcome: Outcome, members: set<string>, published: bool)
    returns (run': seq<State>, actions': seq<Action>)
    requires IsRun(shard, run, actions) && MayRunItsCourse(shard, run[|actions|], pid, k, npub, outcome, members)
    requires var wire := run[|actions|].tables.groups[k].wire;
             !Succeeds(outcome, published, EngineHolds(Worked(run[|actions|], EngineKey(k.bot, wire), members), k.bot, wire, npub))
    ensures IsRun(shard, run', actions')
    ensures actions' == actions + Course(run[|actions|], pid, k, npub, outcome, members, published) + [Acquire(pid), Undo(pid)]
    ensures var s, m := run[|actions|], MemberKey(k.bot, k.name, npub);
            var s' := Worked(s, EngineKey(k.bot, s.tables.groups[k].wire), members).(memberBy := s.memberBy[m := pid]);
            run'[|actions'|] == WithRequest(s', pid, k, npub, IDone(false), s.locks)
  {
    var s, m := run[|actions|], MemberKey(k.bot, k.name, npub);
    var wire := s.tables.groups[k].wire;
    var s' := WithMember(Worked(s, EngineKey(k.bot, wire), members), m, pid);
    run', actions' := InviteRunsItsCourse(shard, run, actions, pid, k, npub, outcome, members, published);
    run', actions' := InviteRollsBack(shard, run', actions', s', pid, k, npub, wire);
    assert s.tables.members + {m} - {m} == s.tables.members;
  }

  /** A welcome that the relays do not take costs the row of a member the engine has added. */
  lemma UnpublishedIsRolledBack(shard: GroupKey -> nat, run: seq<State>, actions: seq<Action>, pid: nat, k: GroupKey,
                                npub: string, members: set<string>)
    returns (run': seq<State>, actions': seq<Action>)
    requires IsRun(shard, run, actions) && MayRunItsCourse(shard, run[|actions|], pid, k, npub, Added, members)
    ensures IsRun(shard, run', actions')
    ensures At(run'[|actions'|], pid) && PhaseOf(run'[|actions'|], pid) == IDone(false)
    ensures MemberKey(k.bot, k.name, npub) !in run'[|actions'|].tables.members
    ensures EngineHolds(run'[|actions'|], k.bot, run[|actions|].tables.groups[k].wire, npub)
  {
    run', actions' := InviteFails(shard, run, actions, pid, k, npub, Added, members, false);
  }

  /** When an invite fails although the worker could do or undo its command as a whole, the engine holds the member all the
      same exactly if it was not published and the member is there. */
  lemma RollbackIsWrongExactlyWhenUnpublished(shard: GroupKey -> nat, run: seq<State>, actions: seq<Action>, pid: nat,
                                              k: GroupKey, npub: string, outcome: Outcome, members: set<string>, published: bool)
    returns (run': seq<State>, actions': seq<Action>)
    requires IsRun(shard, run, actions) && MayRunItsCourse(shard, run[|actions|], pid, k, npub, outcome, members)
    requires outcome != RestorationIncomplete
    requires var wire := run[|actions|].tables.groups[k].wire;
             !Succeeds(outcome, published, EngineHolds(Worked(run[|actions|], EngineKey(k.bot, wire), members), k.bot, wire, npub))
    ensures IsRun(shard, run', actions') && MemberKey(k.bot, k.name, npub) !in run'[|actions'|].tables.members
    ensures var wire := run[|actions|].tables.groups[k].wire;
            EngineHolds(run'[|actions'|], k.bot, wire, npub) <==>
              !published && (outcome == Added || (EngineKey(k.bot, wire) in run[|actions|].engine && npub in members))
  {
    run', actions' := InviteFails(shard, run, actions, pid, k, npub, outcome, members, published);
  }

  lemma SameRequest(s: State, pid: nat)
    requires At(s, pid)
    ensures var r := s.requests[pid]; s == WithRequest(s, pid, r.group, r.npub, r.phase, s.locks)
  {
    assert s.requests[pid := s.requests[pid]] == s.requests;
  }

  /** An invite whose outcome is still open. */
  ghost predicate Open(p: Phase) {
    p.IInserted? || p.ISent? || p.IAnswered?
  }

  /** An invite may run out of time at any point between its insert and its outcome. Its row is then taken back, whatever the
      worker has done, or does yet, with its command. */
  lemma TimedOutIsRolledBack(shard: GroupKey -> nat, run: seq<State>, actions: seq<Action>, pid: nat)
    returns (run': seq<State>, actions': seq<Action>)
    requires IsRun(shard, run, actions) && At(run[|actions|], pid) && Open(PhaseOf(run[|actions|], pid))
    requires shard(run[|actions|].requests[pid].group) !in run[|actions|].locks
    ensures IsRun(shard, run', actions') && actions' == actions + [TimeOut(pid), Acquire(pid), Undo(pid)]
    ensures var s := run[|actions|];
            var r := s.requests[pid];
            run'[|actions'|] == WithRequest(s.(tables := s.tables.(members := s.tables.members - {RowOf(r)})), pid, r.group, r.npub,
                                            IDone(false), s.locks)
  {
    var s := run[|actions|];
    var r := s.requests[pid];
    SameRequest(s, pid);
    var failed := WithRequest(s, pid, r.group, r.npub, IFailed(r.phase.wire), s.locks);
    OneMoreStep(shard, run, actions, TimeOut(pid), failed);
    run', actions' := run + [failed], actions + [TimeOut(pid)];
    run', actions' := InviteRollsBack(shard, run', actions', s, pid, r.group, r.npub, r.phase.wire);
  }

  /** A create may give up before or after the engine has made its group, which is then left there. */
  lemma CreateMayGiveUp(shard: GroupKey -> nat, run: seq<State>, actions: seq<Action>, pid: nat)
    requires IsRun(shard, run, actions) && At(run[|actions|], pid)
    requires PhaseOf(run[|actions|], pid).CChecked? || PhaseOf(run[|actions|], pid).CCreated?
    ensures var s := run[|actions|];
            var r := s.requests[pid];
            IsRun(shard, run + [WithRequest(s, pid, r.group, r.npub, CDone(None), s.locks)], actions + [GiveUp(pid)])
  {
    var s := run[|actions|];
    var r := s.requests[pid];
    SameRequest(s, pid);
    OneMoreStep(shard, run, actions, GiveUp(pid), WithRequest(s, pid, r.group, r.npub, CDone(None), s.locks));
  }

  // ----- Why requests end -----

  ghost predicate EndsExactlySo(shard: GroupKey -> nat, s: State, s': State, a: Action, pid: nat) {
    At(s, pid) && At(s', pid) && (!Done(PhaseOf(s, pid)) ==>
      forall p :: Done(p) ==> (PhaseOf(s', pid) == p <==> EndsWith(s, a, pid, p)))
  }

  lemma SaveEnds(shard: GroupKey -> nat, s: State, q: nat, pid: nat)
    requires At(s, q) && PhaseOf(s, q).CSaving? && At(s, pid)
    ensures EndsExactlySo(shard, s, SaveDone(shard, s, q), Save(q), pid)
  {
  }

  lemma LateSaveEnds(shard: GroupKey -> nat, s: State, job: LateSave, pid: nat)
    requires At(s, pid)
    ensures EndsExactlySo(shard, s, LateSaveDone(s, job), RunLateSave(job), pid)
  {
  }

  lemma SettleEnds(shard: GroupKey -> nat, s: State, q: nat, ok: bool, pid: nat)
    requires At(s, q) && PhaseOf(s, q).IAnswered? && At(s, pid)
    ensures EndsExactlySo(shard, s, SettleDone(s, q, ok), Settle(q, ok), pid)
  {
  }

  lemma WorkEnds(shard: GroupKey -> nat, s: State, i: nat, outcome: Outcome, members: set<string>, pid: nat)
    requires i < |s.queue| && At(s, pid)
    ensures EndsExactlySo(shard, s, WorkDone(s, i, outcome, members), Work(i, outcome, members), pid)
  {
  }

  lemma AcquireEnds(shard: GroupKey -> nat, s: State, q: nat, pid: nat)
    requires At(s, q) && At(s, pid)
    requires var p := PhaseOf(s, q); p.CStart? || p.CCreated? || p.IStart? || p.IFailed?
    ensures EndsExactlySo(shard, s, AcquireDone(shard, s, q), Acquire(q), pid)
  {
  }

  lemma LoadEnds(shard: GroupKey -> nat, s: State, q: nat, pid: nat)
    requires At(s, q) && At(s, pid) && PhaseOf(s, q).ILocked?
    ensures EndsExactlySo(shard, s, LoadDone(shard, s, q), Load(q), pid)
  {
  }

  lemma CheckInvitedEnds(shard: GroupKey -> nat, s: State, q: nat, pid: nat)
    requires At(s, q) && At(s, pid) && PhaseOf(s, q).ILoaded?
    ensures EndsExactlySo(shard, s, CheckInvitedDone(shard, s, q), CheckInvited(q), pid)
  {
  }

  lemma InsertRowEnds(shard: GroupKey -> nat, s: State, q: nat, pid: nat)
    requires At(s, q) && At(s, pid) && PhaseOf(s, q).IFree?
    ensures EndsExactlySo(shard, s, InsertRowDone(shard, s, q), InsertRow(q), pid)
  {
  }

  lemma UndoEnds(shard: GroupKey -> nat, s: State, q: nat, pid: nat)
    requires At(s, q) && At(s, pid) && PhaseOf(s, q).IUndoing?
    ensures EndsExactlySo(shard, s, UndoDone(shard, s, q), Undo(q), pid)
  {
  }

  lemma CreateStepsEnd(shard: GroupKey -> nat, s: State, q: nat, pid: nat)
    requires At(s, q) && At(s, pid)
    ensures PhaseOf(s, q).CChecking? ==> EndsExactlySo(shard, s, CheckGroupDone(shard, s, q), CheckGroup(q), pid)
    ensures PhaseOf(s, q).CSaving? ==> EndsExactlySo(shard, s, SaveTimesOutDone(shard, s, q), SaveTimesOut(q), pid)
  {
  }

  lemma OtherEnds(shard: GroupKey -> nat, s: State, a: Action, pid: nat)
    requires Enabled(shard, s, a) && At(s, pid)
    requires a.Spawn? || a.EngineCreate? || a.LateEngineCreate? || a.GiveUp? || a.Send? || a.TimeOut?
    ensures EndsExactlySo(shard, s, Do(shard, s, a), a, pid)
  {
  }

  lemma StepEnds(shard: GroupKey -> nat, s: State, a: Action, pid: nat)
    requires Enabled(shard, s, a) && At(s, pid)
    ensures EndsExactlySo(shard, s, Do(shard, s, a), a, pid)
  {
    match a
    case Save(q) => SaveEnds(shard, s, q, pid);
    case RunLateSave(job) => LateSaveEnds(shard, s, job, pid);
    case Settle(q, ok) => SettleEnds(shard, s, q, ok, pid);
    case Work(i, outcome, members) => WorkEnds(shard, s, i, outcome, members, pid);
    case Acquire(q) => AcquireEnds(shard, s, q, pid);
    case Load(q) => LoadEnds(shard, s, q, pid);
    case CheckInvited(q) => CheckInvitedEnds(shard, s, q, pid);
    case InsertRow(q) => InsertRowEnds(shard, s, q, pid);
    case CheckGroup(q) => CreateStepsEnd(shard, s, q, pid);
    case SaveTimesOut(q) => CreateStepsEnd(shard, s, q, pid);
    case Undo(q) => UndoEnds(shard, s, q, pid);
    case _ => OtherEnds(shard, s, a, pid);
  }

  ghost predicate DoneAt(s: State, pid: nat) {
    At(s, pid) && Done(PhaseOf(s, pid))
  }

  /** The request was still going on before step `j`, which ended it. */
  ghost predicate EndedBy(run: seq<State>, actions: seq<Action>, j: nat, pid: nat, p: Phase) {
    && j < |actions| && j < |run| && At(run[j], pid) && !Done(PhaseOf(run[j], pid))
    && EndsWith(run[j], actions[j], pid, p)
  }

  lemma {:induction false} FirstDone(run: seq<State>, i: nat, pid: nat) returns (j: nat)
    requires i < |run| && !DoneAt(run[0], pid) && DoneAt(run[i], pid)
    ensures j < i && !DoneAt(run[j], pid) && DoneAt(run[j + 1], pid)
  {
    if DoneAt(run[i - 1], pid) {
      j := FirstDone(run, i - 1, pid);
    } else {
      j := i - 1;
    }
  }

  lemma NewRequestIsNotDone(shard: GroupKey -> nat, s: State, a: Action, pid: nat)
    requires Enabled(shard, s, a) && !At(s, pid)
    ensures !DoneAt(Do(shard, s, a), pid)
  {
  }

  lemma EndedAtStep(shard: GroupKey -> nat, run: seq<State>, actions: seq<Action>, j: nat, pid: nat)
    requires IsRun(shard, run, actions) && j < |actions| && !DoneAt(run[j], pid) && DoneAt(run[j + 1], pid)
    ensures EndedBy(run, actions, j, pid, PhaseOf(run[j + 1], pid))
  {
    if At(run[j], pid) {
      StepEnds(shard, run[j], actions[j], pid);
    } else {
      NewRequestIsNotDone(shard, run[j], actions[j], pid);
    }
  }

  lemma EndedForGood(shard: GroupKey -> nat, run: seq<State>, actions: seq<Action>, i: nat, j: nat, pid: nat, p: Phase)
    requires IsRun(shard, run, actions) && j < i < |run| && Done(p) && EndedBy(run, actions, j, pid, p)
    ensures At(run[i], pid) && PhaseOf(run[i], pid) == p
  {
    StepEnds(shard, run[j], actions[j], pid);
    RequestsGoOn(shard, run, actions, j + 1, i, pid);
  }

  /** A request has ended with some answer exactly when one of the reasons for that answer came up while it was going on. */
  lemma RequestsEndForAReason(shard: GroupKey -> nat, run: seq<State>, actions: seq<Action>, i: nat, pid: nat, p: Phase)
    requires IsRun(shard, run, actions) && i < |run| && Done(p)
    ensures At(run[i], pid) && PhaseOf(run[i], pid) == p <==> exists j :: 0 <= j < i && EndedBy(run, actions, j, pid, p)
  {
    if DoneAt(run[i], pid) && PhaseOf(run[i], pid) == p {
      var j := FirstDone(run, i, pid);
      EndedAtStep(shard, run, actions, j, pid);
      RequestsGoOn(shard, run, actions, j + 1, i, pid);
    }
    if j :| 0 <= j < i && EndedBy(run, actions, j, pid, p) {
      EndedForGood(shard, run, actions, i, j, pid, p);
    }
  }

  // ----- Groups of creates that answered failure -----

  lemma SaveFrames(shard: GroupKey -> nat, s: State, pid: nat)
    requires At(s, pid) && PhaseOf(s, pid).CSaving?
    ensures SavesFrame(s, SaveDone(shard, s, pid), Save(pid))
    ensures SavesFrame(s, SaveTimesOutDone(shard, s, pid), SaveTimesOut(pid))
  {
  }

  lemma LateSaveFrames(s: State, job: LateSave)
    requires job in s.lateSaves
    ensures SavesFrame(s, LateSaveDone(s, job), RunLateSave(job))
  {
  }

  lemma StepFrames(shard: GroupKey -> nat, s: State, a: Action)
    requires Enabled(shard, s, a)
    ensures SavesFrame(s, Do(shard, s, a), a)
  {
    match a
    case Save(pid) => SaveFrames(shard, s, pid);
    case SaveTimesOut(pid) => SaveFrames(shard, s, pid);
    case RunLateSave(job) => LateSaveFrames(s, job);
    case _ =>
  }

  /** The jobs under way are those of saves that timed out; the rows made are those of successful creates and of such jobs. */
  ghost predicate SavesTold(run: seq<State>, actions: seq<Action>, i: nat)
    requires i < |run|
  {
    var s := run[i];
    && (forall job :: job in s.lateSaves ==> SaveTimedOut(run, actions, i, job.pid))
    && (forall k :: k in s.groupBy ==>
          || (At(s, s.groupBy[k]) && PhaseOf(s, s.groupBy[k]).CDone? && PhaseOf(s, s.groupBy[k]).created.Some?)
          || SaveTimedOut(run, actions, i, s.groupBy[k]))
  }

  lemma SavesToldOneMore(shard: GroupKey -> nat, run: seq<State>, actions: seq<Action>, i: nat)
    requires IsRun(shard, run, actions) && i < |actions| && SavesTold(run, actions, i)
    ensures SavesTold(run, actions, i + 1)
  {
    var s, s' := run[i], run[i + 1];
    StepFrames(shard, s, actions[i]);
    forall k | k in s'.groupBy
      ensures || (At(s', s'.groupBy[k]) && PhaseOf(s', s'.groupBy[k]).CDone? && PhaseOf(s', s'.groupBy[k]).created.Some?)
              || SaveTimedOut(run, actions, i + 1, s'.groupBy[k])
    {
      StepRequest(shard, s, actions[i], s'.groupBy[k]);
    }
  }

  lemma {:induction false} RunsTellSaves(shard: GroupKey -> nat, run: seq<State>, actions: seq<Action>, i: nat)
    requires IsRun(shard, run, actions) && i < |run|
    ensures SavesTold(run, actions, i)
  {
    if i > 0 {
      RunsTellSaves(shard, run, actions, i - 1);
      SavesToldOneMore(shard, run, actions, i - 1);
    }
  }

  /** A create that answered failure has stored its group only if its save ran out of time. */
  lemma FailedCreateStoresOnlyLate(shard: GroupKey -> nat, run: seq<State>, actions: seq<Action>, i: nat, pid: nat, k: GroupKey)
    requires IsRun(shard, run, actions) && i < |run| && At(run[i], pid) && PhaseOf(run[i], pid) == CDone(None)
    requires k in run[i].groupBy && run[i].groupBy[k] == pid
    ensures SaveTimedOut(run, actions, i, pid)
  {
    RunsTellSaves(shard, run, actions, i);
  }
}

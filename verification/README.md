# Verification of the daemon's runtime bookkeeping

The daemon connects chat bots to their handlers. Between the network on one side and the handlers on the
other it keeps a good deal of state that many tasks change at once: pending dispatches, rate limits,
recently seen events, the tables of MLS groups, counters. This project models that state in Dafny and proves
what it can be relied on for, over whole runs rather than for one call.

Classes stand for the structures the daemon updates in place; each of their methods is proved equal to a
function of the old state, and the lemmas speak about that function. The two concurrent parts are state
machines whose steps are the daemon's lock, database, channel and engine operations; every interleaving of any
number of calls is a run.

| file | what it covers |
|---|---|
| `TokenBucket.dfy`, `BucketMap.dfy`, `ForwardClock.dfy`, `LimitChanges.dfy`, `RateLimiter.dfy` | token buckets; the map that forgets stale ones, alone and among other events; times that come in any order; limits that change; the two-level limiter |
| `DedupCache.dfy`, `Eviction.dfy`, `Clock.dfy` | the cache of accepted event ids; dropping the oldest entries; time differences |
| `BotDirectory.dfy`, `GroupIntake.dfy` | bot ids, lookups and mentions; which group messages reach the handlers |
| `Dispatching.dfy`, `DispatchProtocol.dfy`, `DispatchSteps.dfy`, `DispatchRuns.dfy`, `DispatchCourse.dfy`, `CursorWrites.dfy` | the shared state of dispatches; dispatches and answers under every interleaving; what becomes of one that nothing gets in the way of; when persisted and last cursors agree |
| `GroupTables.dfy`, `TablesByWire.dfy`, `Reconciliation.dfy`, `RenameOrders.dfy`, `StateLost.dfy` | the MLS tables, and what they come to by wire id; their startup reconciliation, and which engines some order of it can cope with; groups lost to a store reset |
| `GroupProtocol.dfy`, `GroupSteps.dfy`, `GroupRuns.dfy`, `RequestRuns.dfy`, `LeftoverRows.dfy`, `InviteAnswers.dfy` | creating groups and inviting members under every interleaving; how requests end, and why; rows that a crash leaves; when an "already invited" answer is right |
| `RecentBuckets.dfy` | the ring of minute counters against the full log |
| `EnvExpansion.dfy`, `BunkerUri.dfy`, `Texts.dfy`, `Versions.dfy` | placeholder expansion, redaction, version numbers |

Time is a `real` number of seconds, and `Instant` differences saturate at zero as they do in the code. Floating
point is `real`. Maps whose iteration order is unspecified are iterated in any order, and ties between equally
old entries are broken in any way.

## Findings

Each of these is something the code or its comments suggest and that does not hold. For each there is an input or a
whole run that shows it, and the exact condition under which it does hold.

- The doc comment at `src/dispatch.rs:341` says that a repeated id extends the deduplication window. The code
  at 351-357 leaves the timestamp of a duplicate alone, and the model follows the code. `DedupCaches.RepeatsDoNotExtend`
  is a run that shows it. With windows that do not grow and without eviction, an id is a duplicate if and only if it was
  accepted less than a window ago, whatever repeats came in between (`DedupCaches.ExactWithoutEviction`).
- A `Defer` that is accepted before the tracker is removed, but not read by the deadline, is never read, so the
  cursor moves past the event (`DispatchRuns.LateDeferIsLost`). A call with an accepted `Defer` moves the cursor
  if and only if it left the loop because the time was up (`DispatchRuns.DeferLostExactlyAtTimeout`).
- Two dispatches of one bot for events in different shards may persist their cursors in the opposite order to the one
  in which they set the last cursor (`CursorWrites.CursorWritesMayCross`). In a run whose saves succeed and without a
  flush, every schedule of the pending writes leaves the last cursor persisted if and only if no two calls of the bot with
  different cursors are ever past their removal at once (`CursorWrites.CursorsAgreeExactlyWithoutOverlap`). A flush
  repairs it (`CursorWrites.FlushRepairs`).
- A token bucket whose clock runs backwards pays for the same time twice. For every history with a step back there are
  limits and a later call that break the bound (`TokenBucket.RewindBreaksTheBound`), so the bound holds for all limits
  if and only if the times never decrease (`TokenBucket.BoundedExactlyWhenNonDecreasing`). Callers read the clock before
  they wait for the bots' lock (`src/dispatch.rs:2342-2343`), and `RateLimiter::check` gives that up before it takes the
  handlers', so two requests may reach either map in the opposite order to their times. Each map's bound on time windows asks
  that they do not (`RateLimiters.BotWindowsHold`, `RateLimiters.HandlerWindowsHold`). In any order, what a map lets pass
  is bounded by the burst and what the steps forwards of the times earn (`RateLimiters.AnyOrderIsBounded`), which in order
  is the time elapsed (`ForwardClock.InOrderForwardIsElapsed`).
- The doc comment of `set_group_limits` (`src/dispatch.rs:257-261`) says that every existing bucket refills at the new rate
  from then on. A bucket keeps the limits it was made with (`src/dispatch.rs:304-315`), and `LimitChanges.ExistingBucketKeepsItsRate`
  is a run that shows it. A call under new limits is answered, and leaves the map, as under the old ones if and only if its
  key has a bucket that the sweep spares (`LimitChanges.SameExactlyWhenSpared`); so the old limits hold until the bucket
  is swept (`LimitChanges.OldLimitsUntilSwept`, `LimitChanges.NewLimitsOnceSwept`).
- A caller with a short deduplication window makes the shared cache forget what a caller with a longer window
  still needs (`DedupCaches.ShortWindowForgets`). Without eviction, a recently accepted id is answered wrongly if and
  only if some clean-up since found it expired for its own caller's window (`DedupCaches.WrongExactlyWhenDropped`).
- Reconciliation succeeds for exactly the orders `Reconciliation.SafeOrder` describes
  (`Reconciliation.SucceedsExactlyInSafeOrder`). A chain of renames taken from the wrong end fails
  (`RenameOrders.ChainFromTheWrongEndFails`), and an engine in which two groups swapped names fails in every order
  (`RenameOrders.SwappedNamesAlwaysFail`). Some order succeeds if and only if the engine's names are distinct, no row whose
  wire id the engine lacks holds one of them, and the renames contain no ring
  (`RenameOrders.SomeOrderSucceedsExactlyWithoutRing`).
- An invite that finds the member row answers success at once, and may be wrong: the invite that inserted the row may
  still roll back (`InviteAnswers.AlreadyInvitedMayBeWrong`), and the row may be one that a crash left, with nothing in
  flight and nothing rolled back (`InviteAnswers.LeftoverIsAnsweredWrongly`). Once no invite for the row is in flight any
  more, the answer has proved right if and only if none that was in flight at the time has rolled the row back and the row
  is not one left over whose member the engine still lacks; where the engine had the group from the start, that is any row
  left over (`InviteAnswers.AlreadyInvitedIsRightExactly`).
- The comment on the rollback of an invite (`src/dispatch.rs:2163-2164`) says that the engine's operation did not succeed and
  the member is not there. When the worker added the member and the relays then do not take the welcome, the row is
  rolled back although the engine holds the member (`RequestRuns.UnpublishedIsRolledBack`). Short of an incomplete
  restoration, a failed invite leaves the engine with the member if and only if the member is there and was not published
  (`RequestRuns.RollbackIsWrongExactlyWhenUnpublished`). An invite that nothing gets in the way of succeeds if and only if it is published and the member was added or, failing that, is there all the same
  (`RequestRuns.InviteSucceeds`, `RequestRuns.InviteFails`).
- A create that runs out of time while its insert is under way answers failure, and the group may be stored all the
  same (`RequestRuns.TimedOutCreateMayBeStored`); a create that answered failure stores its group in no other way
  (`RequestRuns.FailedCreateStoresOnlyLate`). A create has ended without success if and only if its name was stored when it
  checked, it gave up, its save met a stored name or wire id, or its save ran out of time
  (`RequestRuns.RequestsEndForAReason`).
- A crash between the insert of a member row and the engine's command leaves the row without its member
  (`InviteAnswers.ACrashLeavesARow`), and no create or invite leads to such a row in any other way
  (`LeftoverRows.LeftoverComesFromACrash`). It stays, and the engine comes to hold the member if and only if a create makes,
  in an engine that lacks it, a group with the stored wire id and that member (`LeftoverRows.LeftoverIsHeldExactlyWhenMade`,
  `LeftoverRows.ALateCreateRepairs`); wire ids come from the MLS library, which is not part of this model. Where the engine has
  the group the row is never repaired, in no state of any later life of the daemon (`LeftoverRows.LeftoverIsNeverRepaired`,
  `LeftoverRows.NoLifeRepairs`).
- A bot whose key a later bot shares is no longer found under its own id; lookups are right for all bots if and
  only if keys are distinct (`BotDirectories.AllFoundExactlyWithDistinctKeys`).
- The doc comment at `src/config.rs:707-709` says that a default is used if the variable is unset. It is also used if
  the variable is set but empty, and in no other case (`EnvExpansion.DefaultExpands`).
- In a placeholder every `:-` after the first is dropped. A default nested as a shell would nest it comes out mangled
  (`EnvExpansion.NestedDefaultIsMangled`); a default in use is kept as it stands if and only if it holds no `:-`
  (`EnvExpansion.DefaultIsVerbatim`), and an unterminated placeholder if and only if it holds at most one
  (`EnvExpansion.UnterminatedIsVerbatim`).

## Model

| member | source | states |
|---|---|---|
| GroupSteps.StepKeeps | src/dispatch.rs:1970-2180 | Every step of every create and invite keeps: one holder per lock, at most one invite in flight per member row, no row without a backing invite or engine member, no stored group that another create claims, well-formed tables |
| GroupRuns.RunsKeepInv | src/dispatch.rs:1970-2180 | The same over every run of any number of interleaved requests, time-outs, late inserts and late engine commands included |
| GroupRuns.OneInviteInFlight | src/dispatch.rs:2078-2101 | At most one invite per bot, group and recipient is between insert and outcome, and its row is present |
| GroupRuns.InFlightOwnsItsRow | src/dispatch.rs:2089-2175 | An invite in flight found its row absent, inserted it itself, and the row has been there ever since |
| GroupRuns.RollbackUndoesItsOwnInsert | src/dispatch.rs:2160-2179 | Whenever a member row disappears, it is the rollback of the very invite that inserted it |
| GroupRuns.RowsAreBacked | src/dispatch.rs:2074-2180 | From any well-formed tables, every member row is an invite's still in flight, or the engine holds the member for that wire id and no queued command can change that, or the row was already unbacked before the run |
| LeftoverRows.LeftoverIsHeldExactlyWhenMade | src/dispatch.rs:2084-2175 | A row a crash left unbacked stays in every state, and the engine holds its member if and only if a create has since made an engine group with the stored wire id and that member, which takes an engine that lacked the group |
| LeftoverRows.LeftoverIsNeverRepaired | src/dispatch.rs:2084-2175 | Where the engine has the group, the row is there and the member is not in every state of every run |
| LeftoverRows.ALateCreateRepairs | src/mls.rs:660-701 | Where the engine lacks the group, one late create for the stored wire id backs the row |
| LeftoverRows.CrashLeavesInit | src/dispatch.rs:2084-2105 | What a crash leaves in any state of any run is a state to begin with, and its leftover rows were in flight at the crash or left over before |
| LeftoverRows.LeftoverComesFromACrash | src/dispatch.rs:2084-2105 | Over any number of lives, a leftover row that was not there at first was in flight when an earlier life crashed |
| LeftoverRows.NoLifeRepairs | src/dispatch.rs:2084-2175 | A row left over in a group the engine has is there, and its member is not, in every state of every later life |
| GroupRuns.SuccessfulInviteSettles | src/dispatch.rs:2107-2152 | An invite whose outcome is success leaves a row no invite in flight has any claim to, and not one left over from before |
| InviteAnswers.AlreadyInvitedIsRightExactly | src/dispatch.rs:2086-2094 | Success answered because the row was there has proved right, once no invite for the row is in flight, if and only if none in flight at the time has rolled it back and it is not a row left over whose member the engine still lacks; with the group in the engine from the start, not a row left over at all |
| InviteAnswers.InviteIsAnswered | src/dispatch.rs:2078-2094 | From any state of any run, a new invite for a stored row whose lock is free is answered success, whatever the engine holds |
| InviteAnswers.LeftoverIsAnsweredWrongly | src/dispatch.rs:2086-2094 | For every leftover row of every initial state, a four-step run that answers success with nothing in flight, nothing rolled back and no member in the engine |
| InviteAnswers.ACrashLeavesARow | src/dispatch.rs:2084-2105 | Two lives: the first begins without leftover rows and crashes with an invite in flight, the second answers the next invite for the row wrongly |
| InviteAnswers.StaysExactlyWithoutRollback | src/dispatch.rs:2160-2179 | A row present at one state stays through another if and only if no invite that had it in flight rolls back in between |
| InviteAnswers.AlreadyInvitedMayBeWrong | src/dispatch.rs:2086-2094 | A whole run in which such an answer ends with neither row nor member |
| GroupRuns.SettledForGood | src/dispatch.rs:2074-2180 | A row no invite in flight has any claim to is never removed, and unless it was left over the engine holds its member in every later state |
| GroupRuns.OneCreateSucceeds | src/dispatch.rs:1970-2040 | At most one create per bot and group name ever returns success, and the stored wire id is then and for ever the winner's |
| GroupRuns.ExistingGroupIsNotCreated | src/dispatch.rs:1971-1981 | No create of a group that was stored before the run succeeds |
| GroupRuns.GroupsStay | src/dispatch.rs:1970-2180 | Creates and invites never change or remove a stored group |
| RequestRuns.FreeNameIsCreated | src/dispatch.rs:1970-2040 | From any state of any run, a new create of a name that is not stored, with its lock free and a wire id that is nowhere yet, runs through and succeeds: group row and recipient's member row stored, the engine's group made, nothing else changed |
| RequestRuns.InviteSucceeds | src/dispatch.rs:2074-2180 | From any state of any run, a new invite of an absent member that nothing gets in the way of succeeds if it is published and the member was added or is there all the same; the row is then stored and the engine holds the member |
| RequestRuns.InviteFails | src/dispatch.rs:2074-2180 | In every other outcome it ends without success and without the row |
| RequestRuns.RequestsEndForAReason | src/dispatch.rs:1970-2180 | A create or an invite has ended with some answer if and only if one of the reasons for that answer, and no other, came up while it was going on |
| RequestRuns.UnpublishedIsRolledBack | src/dispatch.rs:2115-2171 | A run in which the row of a member the engine has added is rolled back |
| RequestRuns.RollbackIsWrongExactlyWhenUnpublished | src/dispatch.rs:2107-2171 | Short of an incomplete restoration, after a failed invite the engine holds the member if and only if the member is there and was not published |
| RequestRuns.FailedCreateStoresOnlyLate | src/dispatch.rs:1983-2045 | In every run, a group that a create stored though it answered failure is one whose save ran out of time |
| RequestRuns.TimedOutIsRolledBack | src/dispatch.rs:2172-2180 | An invite may run out of time at any point between insert and outcome, and its row is then taken back |
| RequestRuns.CreateMayGiveUp | src/dispatch.rs:1983-2045 | A create may give up before or after the engine has made its group |
| RequestRuns.TimedOutCreateMayBeStored | src/dispatch.rs:2014-2041 | A run in which a create answers failure and its group is stored |
| GroupSteps.WorkKeeps | src/mls.rs:702-780 | One engine command, run by the serial worker, touches one member of one group and breaks nothing another request relies on |
| GroupSteps.UndoKeeps | src/dispatch.rs:2160-2179 | A rollback deletes only its own row and leaves every other request what it relies on |
| DispatchSteps.StepKeepsCalls | src/dispatch.rs:628-702 | Every step keeps: one holder per lock shard, each tracker belongs to the call between insert and removal and has counted exactly the answers accepted for it |
| DispatchRuns.TrackerExactlyWhileOwned | src/dispatch.rs:628-702 | In every run a tracker for an event id exists exactly while one call of that id is between insert and removal, and it is that call's |
| DispatchRuns.InsertNeverOverwrites | src/dispatch.rs:640-702 | No insert overwrites a live tracker; a removal takes the call's own |
| DispatchRuns.AnswersGoToTheirCall | src/dispatch.rs:1541-1572 | An answer is accepted if and only if a call for that event was sent to that handler and has no answer from it; it goes to that call's channel and nowhere else, and otherwise nothing changes |
| DispatchRuns.AnswersArriveInOrder | src/dispatch.rs:1567-1572 | Accepted answers are never lost, reordered or repeated on their way to the call |
| DispatchRuns.ResponsesAreDistinct | src/dispatch.rs:672-699 | What a call collects comes from pairwise distinct handlers it was sent to, none of it `Defer`, and equals what the sequential loop collects |
| DispatchRuns.ByCountEveryoneAnswered | src/dispatch.rs:672-699 | Leaving the loop by count means that every dispatched handler answered once, none deferred and nothing is left unread |
| DispatchRuns.CursorMeansNoDefer | src/dispatch.rs:798-808 | Every cursor, in memory or persisted, was there before the run or belongs to an event whose call received no `Defer`; one that was accepted anyway was still unread when the time was up |
| DispatchRuns.MovedCursorDidMove | src/dispatch.rs:798-804 | A call whose record says that it moved the cursor set exactly that cursor at an earlier step |
| DispatchRuns.DeferLostExactlyAtTimeout | src/dispatch.rs:676-702 | A finished call with an accepted `Defer` has moved the cursor if and only if it left the loop at the deadline |
| DispatchRuns.LateDeferIsLost | src/dispatch.rs:672-702 | A run in which an accepted `Defer` does not hold the cursor back |
| DispatchCourse.CallRunsItsCourse | src/dispatch.rs:628-808 | From any state of any run, a new dispatch whose lock is free and whose handlers answer so in time runs to its end: it collects what the loop collects from those answers, leaves by count, `Defer` or deadline accordingly, moves the bot's cursor in memory and database unless something deferred or the timestamp does not fit, and changes nothing else |
| CursorWrites.CursorWritesMayCross | src/dispatch.rs:798-808 | For any two events of one bot in different shards with different cursors, a whole run that persists the one and remembers the other |
| CursorWrites.CursorsAgreeExactlyWithoutOverlap | src/dispatch.rs:798-808 | In a run whose saves succeed and without flushes, every schedule of the pending writes leaves the last cursor persisted if and only if no two calls of the bot with different cursors are ever about to write at once |
| CursorWrites.OverlapNeedsTwoShards | src/dispatch.rs:628-629 | Calls for events in one lock shard never overlap |
| DispatchCourse.FlushRunsItsCourse | src/dispatch.rs:949-961 | From any state of any run with no flush under way, a flush runs through, and leaves every last cursor persisted and all else as it was |
| CursorWrites.FlushRepairs | src/dispatch.rs:949-961 | In every run, a flush that no cursor write and no failure interferes with leaves every last cursor persisted, whatever had crossed before, and touches nothing else |
| CursorWrites.FailureEndsFlush | src/dispatch.rs:949-961 | A write that fails writes nothing and ends its flush |
| Dispatching.CollectResponses | src/dispatch.rs:672-699 | The loop takes the answers up to the first `Defer`, and no more than the number of handlers |
| Dispatching.CollectedOnce | src/dispatch.rs:672-699 | That description determines what is collected |
| Dispatching.Dispatcher.HandleResponse | src/dispatch.rs:1541-1580 | Which of the outcomes an answer has; only an accepted one changes anything, and what it changes |
| Dispatching.Dispatcher.RecordCursor | src/dispatch.rs:798-808 | A `Defer` or a timestamp beyond 63 bits writes nothing; a failing database leaves the cursor in memory only |
| Dispatching.Dispatcher.FlushCursors | src/dispatch.rs:949-961 | A complete flush leaves every bot's last cursor persisted and all others alone; a failing one has written some of the last cursors and nothing else |
| TokenBucket.Bucket.Check | src/dispatch.rs:165-175 | One call on the mutable bucket is one step of the bucket function |
| TokenBucket.AdmitsExactlyWhatFits | src/dispatch.rs:165-175 | A call is admitted if and only if every window ending at it still holds at most burst + rate × length admissions |
| TokenBucket.TokensInRange | src/dispatch.rs:165-175 | Tokens stay between zero and the burst |
| TokenBucket.EveryWindowIsBounded | src/dispatch.rs:165-175 | No window of any history holds more than its allowance |
| TokenBucket.AnswersAreSafe | src/dispatch.rs:165-175 | The bucket's own answers respect every window |
| TokenBucket.NoSafePolicyAdmitsMore | src/dispatch.rs:165-175 | At no point of any history has a policy that respects every window admitted more calls than the bucket |
| TokenBucket.RewindBreaksTheBound | src/dispatch.rs:166-168 | For every history with a step back there are limits and a later call that put two admissions into a window for less than two |
| TokenBucket.BoundedExactlyWhenNonDecreasing | src/dispatch.rs:165-175 | Every window stays within its allowance, for all limits and any later call, if and only if the times never decrease |
| BucketMaps.BucketMap.Sweep | src/dispatch.rs:198-217 | A sweep keeps exactly the live buckets, or of too many live ones the most recent |
| BucketMaps.UseKeepsTheSizeBound | src/dispatch.rs:193-217 | A map never holds more than `max_buckets + 1` buckets |
| BucketMaps.SweepingIsInvisible | src/dispatch.rs:193-217 | If a stale bucket is a full one and none is evicted for want of room, every answer of every run is that of a map that never forgets |
| RateLimiters.RateLimiter.CheckBot | src/dispatch.rs:276-288 | The half under the bots' lock: one use of the bot's bucket |
| RateLimiters.RateLimiter.CheckHandler | src/dispatch.rs:290-298 | The half under the handlers' lock: one use of the handler's bucket |
| RateLimiters.RateLimiter.Check | src/dispatch.rs:275-299 | Both halves in turn, and the handler map untouched when the bot's bucket refuses |
| RateLimiters.RateLimiter.CheckGroup | src/dispatch.rs:304-315 | One use of the bucket for this bot and Squad |
| RateLimiters.ProductionLimitsQualify | src/dispatch.rs:43-62 | What the shipped limits allow in any window, and that they refill within the stale time |
| RateLimiters.HalfPassesExactlyWhenItFits | src/dispatch.rs:275-299 | Under every interleaving of the halves of any requests that takes this map's lock in the order of their times, a half lets its request pass if and only if that fits every window of the earlier requests for its bot, or from its handler, that this map has seen |
| RateLimiters.KeyHasItsOwnBucket | src/dispatch.rs:275-299 | What a bucket sees are the requests for its own bot, or from its own handler, and no other |
| BucketMaps.PassesExactlyWhenItFits | src/dispatch.rs:193-217 | The same for any events among which some use a bucket map |
| BucketMaps.WindowsHold | src/dispatch.rs:193-217 | In every window at most the allowance of one key is let pass, whatever events come in between |
| RateLimiters.HandlersSawThePassed | src/dispatch.rs:283-290 | What reached the handlers' map had passed the bots', and was answered there once |
| RateLimiters.HandlerWindowsHold | src/dispatch.rs:275-299 | Admitted requests respect the handler's allowance in every window, if the handlers' lock is taken in the order of their times |
| RateLimiters.BotWindowsHold | src/dispatch.rs:275-299 | If the bots' lock is taken in the order of the requests' times, admitted requests, those the handler's bucket refused and those between the halves together respect the bot's allowance in every window, and are exactly the tokens spent |
| RateLimiters.AnyOrderIsBounded | src/dispatch.rs:275-299 | Under every interleaving, whatever the order in which either lock is taken: from any half to any later one a map lets pass at most the burst and the rate times how far the requests' times have gone forwards |
| ForwardClock.ForwardTimeBounds | src/dispatch.rs:193-217 | The same for any events among which some use a bucket map, sweeps included |
| ForwardClock.InOrderForwardIsElapsed | src/dispatch.rs:165-168 | If the times come in order, how far they have gone forwards is the time between the first and the last |
| LimitChanges.SameExactlyWhenSpared | src/dispatch.rs:257-315 | A call under new limits has the outcome it has under the old ones if and only if its key has a bucket that the sweep spares |
| LimitChanges.OldLimitsUntilSwept | src/dispatch.rs:257-315 | Whatever limits are set meanwhile, a bucket that no sweep takes keeps its limits, and its calls are answered by them |
| LimitChanges.NewLimitsOnceSwept | src/dispatch.rs:304-315 | The first call after that makes a bucket with the limits of its own time |
| LimitChanges.NoBucketGrowsOld | src/dispatch.rs:193-217 | However few buckets there are, after every use each was last used less than twice `stale_after` ago |
| LimitChanges.IdleKeyGetsNewLimits | src/dispatch.rs:193-217 | A key unused for that long is given the limits of its next call |
| LimitChanges.ExistingBucketKeepsItsRate | src/dispatch.rs:257-315 | A run with raised limits that refuses a call which the bucket's tokens, refilling at the new rate, would pay for |
| RateLimiters.PassedIsAdmittedWastedOrBetween | src/dispatch.rs:275-299 | A bot's spent tokens are its admitted requests, those its handler's bucket refused and those between the halves, each counted once |
| DedupCaches.DedupCache.IsDuplicate | src/dispatch.rs:344-358 | One question: clean-up first if the cache is large, a duplicate changes nothing, anything else is remembered from now |
| DedupCaches.DedupCache.Cleanup | src/dispatch.rs:360-377 | Expired entries go, then the oldest until the size fits; the loop ends |
| DedupCaches.DuplicateIsAlwaysRight | src/dispatch.rs:344-358 | A duplicate was accepted less than this window ago, whatever windows, clock and evictions came between |
| DedupCaches.WrongOnlyWhenCrowdedOut | src/dispatch.rs:360-377 | With windows that do not grow, a wrong "not a duplicate" means that at least `max_size` other ids were accepted no earlier than the forgotten one |
| DedupCaches.WrongHasTwoCauses | src/dispatch.rs:344-377 | With any windows, clock and evictions, a wrong "not a duplicate" means that a clean-up since the acceptance found it expired for its own window or crowded out by `max_size` others |
| DedupCaches.WrongExactlyWhenDropped | src/dispatch.rs:344-377 | With any windows and without eviction, the answer for a recently accepted id is wrong if and only if a clean-up since found it expired for its own caller's window |
| DedupCaches.ExactWithoutEviction | src/dispatch.rs:344-358 | With windows that do not grow and without eviction, an id is answered "duplicate" if and only if it was accepted less than a window ago |
| DedupCaches.ForgettingIsInvisible | src/dispatch.rs:344-377 | Without eviction a whole run is answered as by a cache that remembers every acceptance |
| DedupCaches.AcceptancesAreAWindowApart | src/dispatch.rs:344-377 | Two acceptances of one id are at least a window apart |
| DedupCaches.SizeBoundHolds | src/dispatch.rs:344-377 | The cache never outgrows the larger of the threshold and `max_size + 1` |
| DedupCaches.ShortWindowForgets | src/dispatch.rs:360-377 | A whole run of a cache of any size in which a query with a short window makes a later query with a long one go wrong |
| DedupCaches.RepeatsDoNotExtend | src/dispatch.rs:341-357 | A run in which an id is accepted anew although a repeat came less than a window ago |
| BotDirectories.SlotsDoNotCollide | src/config.rs:457-487 | Slot names of two pairs are equal exactly when the pairs are, for valid bot ids and any second part |
| BotDirectories.UncheckedIdsCollide | src/config.rs:477-486 | Without validation two pairs may share a slot |
| BotDirectories.ExactlySlugsAreValid | src/config.rs:451-487 | Valid are exactly the ids of 1 to 64 of the listed letters, digits, hyphens and underscores that begin and end with a letter or digit; which fault is named of any other |
| BotDirectories.SlugsJoin | src/config.rs:451-487 | Valid ids joined by a hyphen or underscore are valid unless too long |
| BotDirectories.ValidIdsAreSafe | src/config.rs:451-456 | No character special in paths, slot names or configuration occurs in a valid id |
| BotDirectories.ClientManager.Load | src/client_manager.rs:111-170 | Loading succeeds exactly with valid and distinct ids whose bots all start, and fills both maps; otherwise it names the first bot in the way and why |
| BotDirectories.ClientManager.NpubToBotIdMap | src/client_manager.rs:269-274 | Every npub, each with the id of a bot that has it |
| BotDirectories.FoundUnlessKeyTaken | src/client_manager.rs:257-261 | A bot is found under its id if and only if no later bot has its key |
| BotDirectories.FindsTheLastWithItsKey | src/client_manager.rs:257-261 | What is found under a bot's id is the last bot with that bot's key |
| BotDirectories.UnknownIdIsNotFound | src/client_manager.rs:257-261 | Under an id of no bot nothing is found |
| BotDirectories.AllFoundExactlyWithDistinctKeys | src/client_manager.rs:168-169 | All bots are found under their ids if and only if no two share a key |
| BotDirectories.MentionedBotIds | src/dispatch.rs:2920-2930 | The loop computes the list of mentioned bots |
| BotDirectories.MentionedExactly | src/dispatch.rs:2920-2928 | An id is in the list if and only if some mention leads to it |
| BotDirectories.OrderOfFirstMention | src/dispatch.rs:2920-2928 | The list follows the order of first mention and has no repetition |
| BotDirectories.FlagAgreesWithIds | src/dispatch.rs:2920-2930 | With distinct keys and npubs, a bot is flagged as mentioned if and only if its id is in the list |
| GroupIntakes.GroupIntake.Process | src/dispatch.rs:2868-2932 | One group message: which handlers stay, duplicate, rate-limited or delivered, what each leaves in cache and buckets, who is told of a refusal, and the mention metadata |
| GroupIntakes.DeliveredOncePerWindow | src/dispatch.rs:2879-2890 | A bot is delivered an event at most once per window |
| GroupIntakes.DroppedExactlyWhenTaken | src/dispatch.rs:2879-2890 | A message is dropped if and only if the same event was taken for the same bot less than a window before |
| GroupIntakes.KeptInOrder | src/dispatch.rs:2868-2878 | The handlers kept are exactly the authorized ones, each as often as found and in the order found |
| GroupIntakes.SquadHasItsOwnBucket | src/dispatch.rs:2892-2899 | What a Squad's bucket sees are the messages with its bot and its chat that are no duplicates; no chat and an empty one are the same |
| GroupIntakes.DeliveredExactlyWhenItFits | src/dispatch.rs:2892-2917 | A message that is no duplicate is delivered if and only if it fits every window of the earlier such messages with the same bot and chat |
| GroupIntakes.SquadWindowsHold | src/dispatch.rs:304-315 | In every window at most the allowance of messages with one bot and chat is delivered |
| GroupIntakes.ProductionIntakeQualifies | src/dispatch.rs:53-62 | The shipped Squad limits refill within the stale time |
| GroupTables.Database.InsertMlsGroup | src/db.rs:357-420 | Strict insert of a group with its members, in one transaction; a constraint violation changes nothing |
| GroupTables.Database.Rename | src/db.rs:443-460 | Group row and member rows move to the new name together, or not at all |
| GroupTables.Database.UpsertMlsGroupFromReconciliation | src/db.rs:425-492 | Wire id first, then the name, then an insert; which of them fails, and that failing changes nothing |
| GroupTables.Database.UpdateMlsGroupInvite | src/db.rs:498-529 | A member row for an existing group only |
| GroupTables.Database.DeleteMlsGroupMember | src/db.rs:554-565 | One member row at most goes |
| GroupTables.Database.DeleteMlsGroupByWireId | src/db.rs:716-743 | The group with this wire id and all its member rows go together |
| GroupTables.Database.LoadAllMlsGroups | src/db.rs:319-353 | Every row of the bot, each once |
| GroupTables.RunsKeepTablesWellFormed | src/db.rs:357-743 | Over every run of operations, failed and rolled back ones included, wire ids stay unique per bot and no member row lacks its group row |
| TablesByWire.OperationByWire | src/db.rs:357-743 | Every operation on the tables is, seen by wire id, a simple operation on one group at most: it is added, renamed, changed in one field or removed, and no other group is touched |
| TablesByWire.RunsByWire | src/db.rs:357-743 | The same over every run of operations, failed ones included |
| TablesByWire.NothingIsLost | src/db.rs:357-743 | Well-formed tables that are the same by wire id have the same rows |
| TablesByWire.UpsertByWire | src/db.rs:425-492 | An upsert succeeds if and only if the name is free or the group's own already; otherwise it says who holds it, or that a constraint is violated |
| GroupTables.RenameNeverCollides | src/db.rs:443-460 | In well-formed tables the member update of a rename cannot violate the member key |
| GroupTables.UpsertKeepsMembership | src/db.rs:425-492 | Membership seen by wire id survives every upsert, renames included |
| GroupTables.NewGroupHasItsMembersOnly | src/db.rs:357-383 | A new group has exactly the members given: nothing left over from an earlier group of that name |
| Reconciliation.ReconcileMlsGroups | src/client_manager.rs:52-98 | The loops compute the reconciliation function, result included |
| Reconciliation.SucceedsExactlyInSafeOrder | src/client_manager.rs:63-80 | It succeeds if and only if every engine name is free at its turn |
| Reconciliation.SuccessSettles | src/client_manager.rs:52-98 | One row per engine wire id under the engine's name; every other row as it was, marked exactly if it is the bot's, unmarked and missing after a completed reset |
| Reconciliation.StaleNamesHitTheirRows | src/client_manager.rs:82-95 | A mark issued through a name read before the renames hits the row of the missing wire id |
| Reconciliation.FailureIsContained | src/client_manager.rs:63-80 | On failure nothing is marked, the tables are well formed, other bots' rows are untouched |
| Reconciliation.OrderDoesNotMatter | src/client_manager.rs:63-80 | Any two orders for which it succeeds give the same tables |
| Reconciliation.Idempotent | src/client_manager.rs:52-98 | Run again at any later time it succeeds and changes nothing, not even a mark's timestamp |
| Reconciliation.NewGroupsGetTheirMembers | src/client_manager.rs:63-80 | A group new to the database gets exactly the engine's members |
| RenameOrders.SomeOrderSucceedsExactlyWithoutRing | src/client_manager.rs:63-80 | Some order of the engine's groups can be reconciled if and only if their names are distinct, none is held by a row whose wire id the engine lacks, and no groups wait for one another's names in a ring |
| RenameOrders.SwappedNamesAlwaysFail | src/db.rs:443-460 | An engine in which two groups swapped names cannot be reconciled in any order, whatever other groups it has |
| RenameOrders.ChainFromTheWrongEndFails | src/db.rs:443-460 | A group listed before the one whose old name it takes makes reconciliation fail |
| StateLost.DispatchWelcome | src/dispatch.rs:595-607 | A dispatched Welcome clears the mark of its wire id and no other |
| StateLost.SendGroupMessage | src/dispatch.rs:2286-2357 | Which check refuses a message with what, in which order; a lost group is refused before the bot and its engine are looked up |
| StateLost.SendGroupReaction | src/dispatch.rs:2386-2423 | The same for a reaction, whose emoji is checked first |
| StateLost.SendGroupAttachment | src/dispatch.rs:2452-2496 | The same for an attachment, whose service, source and metadata are checked first |
| StateLost.EventMarks | src/client_manager.rs:82-95 | What each event does to each group's mark |
| StateLost.EventsByWire | src/db.rs:357-743 | What creates, imports, invites, rollbacks, deletes and resets do to the groups seen by wire id |
| StateLost.WelcomeByWire | src/dispatch.rs:595-607 | A dispatched Welcome unmarks its group, if it is stored, and does nothing else |
| StateLost.MarkersTell | src/db.rs:574-602 | In every life of a database a bot's marker holds the time of its last reset start, and of its last completion since if there was one |
| StateLost.CompleteExactlyWhenDone | src/db.rs:574-602 | A bot's reset counts as complete if and only if its last reset was completed after it began |
| StateLost.MarkedExactlyWhenLost | src/client_manager.rs:82-95 | In every life of a database a group is marked if and only if a startup after a completed reset found it missing or an import brought it in as lost, and no Welcome or delete for it came since |
| StateLost.ImportMarks | src/db.rs:388-420 | An import brings its own mark and touches no other |
| StateLost.NoSendWhileLost | src/dispatch.rs:2346-2357 | For as long as that holds no send into the group gets past the check of the mark to the engine, and an authorized one within the limits is refused for that reason if and only if it holds |
| RecentBucketCounters.RecentBuckets.Record | src/diagnostics.rs:332-346 | Zeroing and counting keep every bucket equal to the log's count of the minute it stands for, across any gap |
| RecentBucketCounters.NextMinute | src/diagnostics.rs:338-343 | Moving on one minute reuses exactly one bucket |
| RecentBucketCounters.CountIsExact | src/diagnostics.rs:348-373 | Up to the capacity the count is exactly the log's; beyond it, exactly what the ring still covers; never too much |
| RecentBucketCounters.Diagnostics.Snapshot | src/diagnostics.rs:430-450 | The recent count is that of the last ten minutes and never exceeds the lifetime total |
| EnvExpansion.ExpandEnvVarsWithLookup | src/config.rs:714-769 | The nested loops compute the recursive expansion, and terminate |
| EnvExpansion.ReadPlaceholder | src/config.rs:723-745 | The inner loop reads name and default of the text up to the first brace |
| EnvExpansion.PlainTextStays | src/config.rs:714-769 | Text without `${` is unchanged |
| EnvExpansion.ExpandsInParts | src/config.rs:714-769 | Closed text and what follows it expand separately |
| EnvExpansion.IndependentExactlyWhenClosed | src/config.rs:714-769 | Text expands independently of whatever follows, in every environment, if and only if all its placeholders are closed |
| EnvExpansion.VariableExpands | src/config.rs:706-709 | `${V}` is what the look-up returns for `V`, or nothing |
| EnvExpansion.DefaultExpands | src/config.rs:706-709 | `${V:-d}` is what the look-up returns for `V` if that is not empty, and otherwise `d` without any `:-` it holds |
| EnvExpansion.StrippedInParts | src/config.rs:734-738 | `d` without its `:-` is `d` up to its first `:-`, and then the rest likewise |
| EnvExpansion.DefaultIsVerbatim | src/config.rs:734-738 | A default in use comes out as it stands if and only if it holds no `:-` |
| EnvExpansion.NestedDefaultIsMangled | src/config.rs:734-738 | A nested default loses its inner `:-` |
| EnvExpansion.UnterminatedIsVerbatim | src/config.rs:754-762 | An unterminated placeholder is reproduced as it stands if and only if it has at most one `:-` |
| EnvExpansion.UnterminatedLosesSeparators | src/config.rs:754-762 | Otherwise it loses every `:-` after the first |
| BunkerUris.SkeletonIsKept | src/config.rs:404-417 | Base, number and order of parameters and every key stay |
| BunkerUris.EveryValueIsTheMark | src/config.rs:404-417 | Every value is replaced by the mark, and parameters without one are kept |
| BunkerUris.Idempotent | src/config.rs:404-417 | Redacting twice is redacting once |
| BunkerUris.OnlyTheSkeletonShows | src/config.rs:399-417 | Two URIs look the same after redaction if and only if they differ in values only |
| Texts.SplitJoined | src/config.rs:408-415 | Splitting undoes joining, for pieces without the separator |
| Texts.SplitParts | src/config.rs:408-415 | Joining undoes splitting |
| Versions.CmpVersions | src/dev_env_probe.rs:375-386 | The loop gives the lexicographic order of the versions extended with zeros |
| Versions.TotalPreorder | src/dev_env_probe.rs:375-386 | That order is total and transitive across lengths, and both ways only for equal versions |
| Versions.FirstDifferenceDecides | src/dev_env_probe.rs:375-386 | After a common beginning the first part that is lower makes the version lower, whatever follows |
| Versions.ZerosAtTheEnd | src/dev_env_probe.rs:375-386 | Parts added at the end leave a version the same if they are zeros, and make it higher otherwise |
| Versions.ExtractVersion | src/dev_env_probe.rs:345-372 | The scan computes the extraction function, and what it finds has at least two parts |
| Versions.FoundExactlyWhenDotted | src/dev_env_probe.rs:345-372 | A version is found if and only if some maximal digit-led run of digits and dots has a dot, and it is the first such run |
| Versions.DottedRunIsFound | src/dev_env_probe.rs:345-372 | A dotted run is read back from any text around it, each part for the number it prints, leading zeros or not, and for zero if it is empty or does not fit 64 bits |
| Versions.ReadAsOneValue | src/dev_env_probe.rs:355-362 | That says of every part what it counts for |
| Versions.PrintedVersionIsFound | src/dev_env_probe.rs:339-344 | A printed version is read back from any text around it |
| Versions.CheckVersion | src/dev_env_probe.rs:306-336 | Ok if and only if min ≤ detected ≤ max, and which input a parse error names |

## Left out

- Relays, gift wraps, signing, bunkers and attachments: network and cryptography.
- MLS engine internals: the engine is a map from wire id to members with the outcomes the worker can report. Members
  that other participants add or remove remotely are not modelled, nor are group deletion and leaving in `GroupProtocol`.
- The handler registry: a dispatch starts with the distinct handlers the registry found, and authorization is a map
  from registered handlers to what they are granted.
- JSON parsing, parameter extraction, the method switch, replies sent after the collection loop, error codes and texts.
- `src/admin.rs`, file permissions, path checks, regex redaction, generated code.
- `src/mls_reset.rs`: only the marker row is modelled. Other columns, such as the creator and the `invited_bots` JSON
  column, play no part in `GroupProtocol`.
- Task cancellation, lock poisoning and rounding of floating point.
- Failing database reads and writes, except where a result says so: the rollback's delete is taken to succeed, and
  an insert that outlives its time-out is modelled.
- The cache's mutex and the Squads' make their calls sequential, so a run of either is a sequence; the two halves of
  `RateLimiter::check` are separate steps.
- RecentBucketCounters.Diagnostics.Snapshot: one of the eight counter pairs, which are built alike; `classify_sole_admin`.
- BotDirectories.ClientManager.Load: constructing engines and signers, of which only the success is modelled. Ids are
  characters rather than bytes; an id beyond ASCII is refused either way, possibly for another reason.
- GroupTables.Database.LoadAllMlsGroups: the order by name and the member lists, which its callers here do not use.
- DedupCaches.ForgettingIsInvisible: asks that no query uses a larger window than one before it; what happens otherwise is exactly `DedupCaches.WrongExactlyWhenDropped`.
- DedupCaches.WrongOnlyWhenCrowdedOut: asks that windows do not grow; for any windows there is `DedupCaches.WrongHasTwoCauses`.
- DedupCaches.AcceptancesAreAWindowApart: asks that windows do not grow and that nothing is evicted; without the first, `DedupCaches.ShortWindowForgets` is a counterexample.
- RateLimiters.HalfPassesExactlyWhenItFits: assumes that this map's lock is taken in the order of the requests' times, which the code does not ensure, and that no bucket is evicted for want of room.
- RateLimiters.BotWindowsHold: assumes that the bots' lock is taken in the order of the requests' times and that no bucket is evicted for want of room; `RateLimiters.AnyOrderIsBounded` needs no order.
- RateLimiters.HandlerWindowsHold: assumes that no handler is removed during the run, that no bucket is evicted for want of room, and that the handlers' lock is taken in the order of the requests' times.
- RateLimiters.AnyOrderIsBounded: assumes that no handler is removed during the run and that no bucket is evicted for want of room.
- StateLost.SendGroupMessage: what follows the check of the mark is one outcome: an unknown bot, an unavailable engine, an
  unknown group in it, and the send.
- LeftoverRows.CrashLeavesInit: the engines' stores and the tables survive a crash as they were; the reconciliation that follows is
  `Reconciliation`'s.
- BunkerUris.OnlyTheSkeletonShows: a parameter without `=` counts as a key, as in the code, and so is shown.

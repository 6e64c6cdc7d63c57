# opencode-a2a: verified protocols

A Dafny model of the stateful parts of the opencode-a2a adapter, which exposes OpenCode sessions over the A2A protocol.
`dafny verify dfyconfig.toml` checks all of it.

Five protocols are modelled. Each has a specification as pure functions, classes whose methods are proved equal to
those functions, and theorems over every run: every feed of upstream items, every interleaving of lock sections, every
sequence of operations with a clock that does not go back.

1. **Stream normaliser** (`StreamState`, `StreamModel`, `StreamConsumer`, `StreamProperties`, `StreamTheorems`,
   `StreamConservation`, `StreamOrder`, `StreamText`, `StreamDelivery`, `StreamSignals`, `StreamCompletion`). An unordered upstream feed (deltas before announcements, cumulative
   snapshots, duplicates, reconnects) becomes one append-only artifact stream. `StreamModel.Step` says what one upstream item does;
   `StreamConsumer` is the event loop over mutable part states; the theorems relate what the client was sent to what was
   generated for each part, and `StreamOrder` shows that each part is processed on its own in an interleaved feed;
   `StreamText` and `StreamSignals` read off the feed alone what is said, told and recorded, and how the request ends.
2. **Session ownership, claims and single flight** (`SessionRepository`, `SessionManagement`, `SessionProtocol`,
   `SessionAnswers`, `OwnerExpiry`, `MemorySessions`, `MemoryTakeover`, `MemoryLeases`, `Coordination`). Every `async with lock` section is one atomic step;
   every other `await` is a point where other requests, cancellation and clock ticks may come in between.
   `SessionProtocol` and `SessionAnswers` are about the manager over the database repository, whose owners and bindings never expire;
   `MemorySessions`, `MemoryTakeover` and `MemoryLeases` run the manager's sections over the in-memory repository (the default of the
   class, and what `A2A_TASK_STORE_BACKEND=memory` selects), where they do.
3. **Time-bounded stores** (`TtlCache`, `InterruptRegistry`, `InterruptRefinement`, `InterruptAnswers`, `InterruptDisagreement`,
   `ClientManagement`, `ClientLeases`, `ClientBorrows`). Each is related to a simple timed map or a ledger of leases.
4. **First terminal state wins** (`TaskStore`, `TaskFreezing`). A lock around read, evaluate and write, and a guarded
   upsert, realise the same register.
5. **Pagination, polling and output negotiation** (`Base64`, `Pagination`, `PageWalk`, `Polling`, `OutputModes`,
   `NegotiationMetadata`, `OutputVisibility`).

Some natural claims are false of the code. Each is stated with a concrete run that shows it and with the exact condition
under which the code does meet it:

| claim | fails in | holds exactly when |
|---|---|---|
| a part's buffer is only ever extended | `OlderSnapshotRepeatsText` | `SnapshotOverwritesIff`, `ExtendingFeedsConserveText` |
| a served binding has a served owner (in memory) | `BindingOutlivesOwner`, `OwnerExpiresFirst` | `BindingOutlivesOwnerIff`, `ServedOwner` |
| a settled create leaves flight | `CancelledCreateSticks` | `ResumeSettlesIff`, `SettledCreateLeavesIff` |
| an owner is write-once, over the database repository | `EmptyOwnerIsReplaced`, `EmptyOwnerIsReachable` | `OwnerReplacedIff`, `OwnersAreWriteOnce` |
| a named owner is not replaced, and a served session is not owned by someone else, over the in-memory repository | `ForeignOwnerIsReachable` | `TakeoverIff`, `ForeignOwnerIff` |
| one coordinator per session holds the lock | `CancelledWaiterBreaksExclusion`, `ExclusionCanBeLost` | `OneHolderIff` |
| one coordinator per session holds the lock, and its holder finds it locked | the same | `StepExcludesIff`, `ExclusionIff` |
| both interrupt registries give the same answer | `MemoryForgetsFirst` | `RegistriesDisagreeIff`, `RegistriesDisagreeIffHeld` |
| the client cache stays within its maximum | `WaitingEntryUnboundsTheCache` | `EvictionFitsIff` |
| a skipped save finds a terminal row | `SkipErrorIsReachable` | `SkipErrorIff` |
| a page token is accepted back | (blank ids) | `TokenRoundTripIff` |

Where code and documentation could be read differently the code is followed: cleanup asks whether the session lock is
locked, not who locked it; a reconnect does not reset the backoff; an unmapped part type forgets its early deltas.

## Model

| member | source | states |
|---|---|---|
| StreamState.StreamOutputState.RegisterChunk | src/opencode_a2a/execution/stream_state.py:97-113 | a chunk is emitted iff it changes its block's buffer; its append flag is "something was emitted before" |
| StreamState.StreamOutputState.ShouldDropInitialUserEcho | src/opencode_a2a/execution/stream_state.py:81-95 | only a role-less text chunk before any other that repeats the user's text is dropped |
| StreamState.StreamOutputState.RegisterProgress | src/opencode_a2a/execution/stream_state.py:115-120 | progress is reported once per change of an identity's content |
| StreamState.StreamOutputState.ShouldEmitFinalSnapshot | src/opencode_a2a/execution/stream_state.py:122-130 | a snapshot is due iff the response is not blank and differs from the streamed text up to trimming; then it becomes the buffer |
| StreamState.StreamOutputState.MarkInterruptPending | src/opencode_a2a/execution/stream_state.py:149-156 | an id is newly pending iff it is not blank and was not pending |
| StreamState.StreamOutputState.ClearInterruptPending | src/opencode_a2a/execution/stream_state.py:158-165 | an id is cleared iff it was pending |
| StreamConsumer.PartState.DeltaChunks | src/opencode_a2a/execution/stream_runtime.py:292-315 | a delta extends the part's buffer and generates itself |
| StreamConsumer.PartState.SnapshotChunks | src/opencode_a2a/execution/stream_runtime.py:317-355 | a snapshot generates the missing suffix, nothing, or silently overwrites the buffer |
| StreamConsumer.PartState.ToolChunks | src/opencode_a2a/execution/stream_runtime.py:357-389 | a changed tool payload replaces the buffer and generates one structured chunk |
| StreamConsumer.StreamRuntime.EmitChunks | src/opencode_a2a/execution/stream_runtime.py:88-151 | the emission loop equals its specification: fallback text, echo drop, registration, numbering |
| StreamConsumer.StreamRuntime.EmitProgressStatus | src/opencode_a2a/execution/stream_runtime.py:195-218 | a changed progress is numbered and queued, an unchanged one is not |
| StreamConsumer.StreamRuntime.UpsertPartState | src/opencode_a2a/execution/stream_runtime.py:265-290 | creates or updates exactly one part state in place; no two parts share one |
| StreamConsumer.StreamRuntime.HandleSession | src/opencode_a2a/execution/stream_runtime.py:413-489 | progress, first upstream error, first terminal signal, asked and resolved interrupts of one session event |
| StreamConsumer.StreamRuntime.HandleDelta | src/opencode_a2a/execution/stream_runtime.py:502-527 | deltas of unknown parts wait, of user and system parts are dropped, of others are emitted |
| StreamConsumer.StreamRuntime.HandleUpdate | src/opencode_a2a/execution/stream_runtime.py:529-589 | an announcement flushes waiting deltas in order, then applies its own delta, tool payload or snapshot |
| StreamConsumer.StreamRuntime.HandleEvent | src/opencode_a2a/execution/stream_runtime.py:402-589 | one event equals the specified step, for both of its session checks |
| StreamConsumer.StreamRuntime.Consume | src/opencode_a2a/execution/stream_runtime.py:67-600 | the whole event loop, with retries and stop signals, equals the specification for every feed |
| StreamProperties.ConsumeKeeps | src/opencode_a2a/execution/stream_runtime.py:391-600 | numbering, opening, bracketing, fidelity and part-buffer history are kept over every feed |
| StreamTheorems.StreamEnvelope | src/opencode_a2a/execution/stream_runtime.py:113-138 | numbers are 1..n in emission order, event ids are distinct, exactly the first artifact update has append=false |
| StreamTheorems.StreamedText | src/opencode_a2a/execution/stream_state.py:97-130 | a text or reasoning buffer is the concatenation of what was sent, which is what was generated less the opening echoes |
| StreamTheorems.PartTextIsConserved | src/opencode_a2a/execution/stream_runtime.py:292-355 | a part's buffer is its last overwritten value followed by everything generated since; never overwritten, it is all that was generated |
| StreamTheorems.SnapshotOverwritesIff | src/opencode_a2a/execution/stream_runtime.py:317-355 | a part is overwritten exactly by a snapshot that does not extend its buffer; otherwise precisely the suffix is generated |
| StreamConservation.ExtendingFeedsConserveText | src/opencode_a2a/execution/stream_runtime.py:529-586 | over a feed in which every snapshot extends what its part has said, exactly the buffer was generated; any other feed overwrites the part |
| StreamTheorems.RedeliveryIsSilent | src/opencode_a2a/execution/stream_runtime.py:326-328 | redelivering the newest snapshot or tool payload right away changes nothing |
| StreamOrder.LateRedeliveryIsSilent | src/opencode_a2a/execution/stream_runtime.py:326-328 | the same when the feed brings anything in between that does not address the part |
| StreamTheorems.OlderSnapshotRepeatsText | src/opencode_a2a/execution/stream_runtime.py:345-355 | a replayed shorter snapshot makes the client receive text twice |
| StreamTheorems.EarlyDeltasCommute | src/opencode_a2a/execution/stream_runtime.py:502-556 | with nothing else in between: deltas before the announcement leave the whole consumer state as they would have after it |
| StreamOrder.EarlyDeltasCommuteInFeeds | src/opencode_a2a/execution/stream_runtime.py:502-556 | in any interleaved feed: every part ends in the same state, with the same deltas waiting and the same chunks generated in the same order, whether an unknown part is announced before or after the stretch of feed with its deltas |
| StreamOrder.ConsumeView | src/opencode_a2a/execution/stream_runtime.py:490-589 | a feed consumed to its end acts on each part as if that part were alone: its state, waiting deltas and generated chunks depend only on the items that address it |
| StreamTheorems.EarlyDeltasOfUnshownParts | src/opencode_a2a/execution/stream_runtime.py:537-542 | with nothing else in between: for user, system and unmapped parts neither order shows the client anything |
| StreamOrder.UnshownPartsStaySilent | src/opencode_a2a/execution/stream_runtime.py:537-542 | in any interleaved feed: for such a part no chunk is generated in either order |
| StreamText.FeedIsTold | src/opencode_a2a/execution/stream_runtime.py:490-589 | over every feed consumed to its end: the text said for a part, the text it stands at, its type and role, and the words still waiting are what a reader of the feed alone tells, on plain strings |
| StreamText.DeltasAreSaid | src/opencode_a2a/execution/stream_runtime.py:502-566 | for a text or reasoning part shown to the client and without snapshots, exactly the texts of its delta events are said, in order, wherever its announcement stands in the feed; never announced, they all wait |
| StreamText.DeltasAreAdded | src/opencode_a2a/execution/stream_runtime.py:518-527 | from any state of such a part, what is said for it grows by exactly the texts of its deltas |
| StreamDelivery.DeltaEventSays | src/opencode_a2a/execution/stream_runtime.py:292-315 | a delta event generates one text chunk with the part's type and role and the newest message id |
| StreamDelivery.ToolEventSays | src/opencode_a2a/execution/stream_runtime.py:357-389 | a tool announcement generates one structured chunk with its payload iff the payload is new |
| StreamDelivery.AnnouncementStores | src/opencode_a2a/execution/stream_runtime.py:265-290 | an announcement sets the type, the role if named, and the message id if given |
| StreamDelivery.ChunksAreDelivered | src/opencode_a2a/execution/stream_runtime.py:88-151 | every artifact update carries a generated chunk, structured only where allowed and else as ASCII JSON; the tool output sent is what was generated, less what repeats |
| StreamTheorems.InterruptsAlternate | src/opencode_a2a/execution/stream_runtime.py:443-489 | per request the emitted phases are asked, resolved, asked, ... and it is pending iff the last word was asked |
| StreamTheorems.PendingAreOpen | src/opencode_a2a/execution/stream_runtime.py:443-474 | the pending set is what the interrupt events alone leave open |
| StreamTheorems.ResolvedIsForgotten | src/opencode_a2a/execution/stream_runtime.py:469-489 | after a resolved event its id is neither pending nor registered, and no other id is touched |
| StreamTheorems.NothingAfterTerminal | src/opencode_a2a/execution/stream_runtime.py:436-439 | nothing that arrives after the terminal signal has any effect |
| StreamTheorems.TerminalEventIsSilent | src/opencode_a2a/execution/stream_runtime.py:436-439 | the event that sets the terminal signal adds nothing to the stream artifact |
| StreamTheorems.ReconnectsBackOff | src/opencode_a2a/execution/stream_runtime.py:592-598 | the k-th reconnect waits 0.5 * 2^k seconds, at most 5 |
| StreamSignals.FirstOnesCount | src/opencode_a2a/execution/stream_runtime.py:433-439 | the recorded error is the first the session reported before the run ended, and the terminal signal the session's first |
| StreamSignals.StatusesAreTold | src/opencode_a2a/execution/stream_runtime.py:412-489 | the status updates sent are exactly the interrupts that open and close and the progress that changes, with state, details and message id, in feed order |
| StreamSignals.RegistryFollows | src/opencode_a2a/execution/stream_runtime.py:443-481 | the interrupt registry holds what it held and what was asked since, less what was resolved |
| StreamCompletion.HandleStreamingResponse | src/opencode_a2a/execution/coordinator.py:351-431 | error, or at most one final snapshot and the completed status |
| StreamCompletion.CompletedRunDelivers | src/opencode_a2a/execution/coordinator.py:383-431 | a completed request streamed exactly the response up to trimming, or ends in one snapshot carrying all of it, appended iff something came before |
| StreamCompletion.FailedRunAddsNoText | src/opencode_a2a/execution/coordinator.py:365-394 | a failed request adds nothing to the stream artifact and ends in the status of its cause |
| StreamSignals.RequestCloses | src/opencode_a2a/execution/coordinator.py:365-431 | the closing state is decided by the feed alone: completed iff the session said so and reported no error before; else the state of the signal, of the first error, or failed, after an error artifact naming that cause |
| StreamCompletion.FinalIdsAreNew | src/opencode_a2a/execution/coordinator.py:396-431 | event ids stay distinct through the final snapshot and the closing status |
| TtlCache.TtlCache.Get | src/opencode_a2a/execution/stream_state.py:185-198 | a hit before the deadline, optionally refreshed; an expired entry is dropped |
| TtlCache.TtlCache.Set | src/opencode_a2a/execution/stream_state.py:200-206 | stores with a fresh deadline, keeps the dict position of a known key, then evicts |
| TtlCache.TtlCache.EvictIfNeeded | src/opencode_a2a/execution/stream_state.py:211-222 | expired entries first, then the soonest to expire by a stable sort |
| TtlCache.EvictionSpec | src/opencode_a2a/execution/stream_state.py:211-222 | eviction restores the bound, keeps survivors as they are, and no victim would have outlived a survivor |
| TtlCache.NewestSurvives | src/opencode_a2a/execution/stream_state.py:200-222 | the entry just set survives its own eviction, through the stable sort |
| TtlCache.CacheIsSound | src/opencode_a2a/execution/stream_state.py:185-222 | over every run: size within bound, hits agree with the reference deadline map, a key just set is found |
| TtlCache.NoPressureNoLoss | src/opencode_a2a/execution/stream_state.py:185-222 | while no more than maxsize keys are live, every get returns what the reference returns |
| TtlCache.PutKeepsPlaces | src/opencode_a2a/execution/stream_state.py:200-206 | a known key keeps its dict position, a new one goes last |
| SessionRepository.DatabaseSessionStateRepository.GetPendingClaim | src/opencode_a2a/server/state_store.py:382-406 | prunes and answers the holder whose own or inferred deadline has not passed |
| SessionRepository.DatabaseSessionStateRepository.SetPendingClaim | src/opencode_a2a/server/state_store.py:408-429 | prunes, then records a deadline, or clears when claims are switched off |
| SessionRepository.DatabaseSessionStateRepository.ClearPendingClaim | src/opencode_a2a/server/state_store.py:431-444 | removes the claim only for its own identity, or for none given |
| SessionRepository.MemorySessionStateRepository.GetPendingClaim | src/opencode_a2a/server/state_store.py:250-252 | the two dictionaries realise the same claims as the table |
| SessionRepository.MemorySessionStateRepository.SetPendingClaim | src/opencode_a2a/server/state_store.py:254-261 | the same transition as the table |
| SessionRepository.MemorySessionStateRepository.ClearPendingClaim | src/opencode_a2a/server/state_store.py:263-266 | the same transition as the table |
| SessionRepository.BindingOutlivesOwner | src/opencode_a2a/server/state_store.py:235-248 | with eviction: a binding is served after its session's owner was evicted |
| OwnerExpiry.MissIff | src/opencode_a2a/execution/stream_state.py:185-222 | a get misses iff no live entry is recorded or the key was pushed out since it was last set |
| OwnerExpiry.PushedOutUnderPressure | src/opencode_a2a/execution/stream_state.py:211-222 | a live key is pushed out only while more than maxsize keys are live |
| OwnerExpiry.BindingOutlivesOwnerIff | src/opencode_a2a/server/state_store.py:235-248 | over any two operation sequences of the two caches, a served binding has no served owner iff the owner's own deadline has passed (or none is recorded) or it was pushed out and not set again |
| OwnerExpiry.OwnerExpiresFirst | src/opencode_a2a/execution/session_manager.py:42-54 | without any eviction: an owner read in one section and a binding written in a later one expire apart |
| MemorySessions.MemorySessionManager.ClaimPreferredSession | src/opencode_a2a/execution/session_manager.py:117-128 | the same section over the two expiring caches: the owner is read and refreshed, the two refusals, false for the owner, else a new lease |
| MemorySessions.MemorySessionManager.FinalizeSessionClaim | src/opencode_a2a/execution/session_manager.py:130-142 | the same over the caches: owner read, refused alike, else owner set and own claim cleared |
| MemorySessions.MemorySessionManager.FinishCreate | src/opencode_a2a/execution/session_manager.py:85-100 | the same over the caches: a live foreign owner refuses, else bound, and owned when no live owner is found |
| MemorySessions.MemorySessionManager.BindSession | src/opencode_a2a/execution/session_manager.py:110-115 | the separate section that binds after a claim or finalise |
| MemoryTakeover.ForeignOwnerIff | src/opencode_a2a/execution/session_manager.py:42-142 | over every run of the manager's sections on the in-memory repository: whoever is served a session has once been recorded as its owner, and the live owner is someone else iff there is one and someone else was recorded last |
| MemoryTakeover.ServedOwner | src/opencode_a2a/server/state_store.py:235-248 | over every run: a served session's live owner is the one recorded last, or nobody iff that entry has expired or was pushed out |
| MemoryTakeover.TakeoverIff | src/opencode_a2a/execution/session_manager.py:85-142 | over every run: a finalise records someone else in place of a named owner iff nobody else's claim is live and the owner's entry has expired or was pushed out; a completed create iff the latter |
| MemoryTakeover.ForeignOwnerIsReachable | src/opencode_a2a/server/state_store.py:205-248 | from the start, without any eviction: one identity is served a session that another owns |
| MemoryLeases.AnswersIff | src/opencode_a2a/execution/session_manager.py:117-137 | on the in-memory repository the same conditions, for the owner found alive at that instant |
| MemoryLeases.GrantedClaimIsLease | src/opencode_a2a/server/state_store.py:254-261 | a granted claim is recorded for its full lifetime |
| MemoryLeases.GrantedClaimExcludes | src/opencode_a2a/execution/session_manager.py:117-149 | after a granted claim, over every run within its lifetime without the holder's own action, every other identity's claim and finalise is refused, whatever becomes of the cached owners |
| MemoryLeases.FinaliseOwnsAndEndsClaim | src/opencode_a2a/execution/session_manager.py:130-142 | a finalise makes the caller the live owner and ends its claim and no other live one |
| MemoryLeases.ReleaseIsOwn | src/opencode_a2a/execution/session_manager.py:144-149 | a release ends the caller's own claim and nobody else's |
| MemoryLeases.PoppedIsNotServed | src/opencode_a2a/execution/session_manager.py:159-167 | a popped binding is not served |
| SessionManagement.SessionManager.BeginCreate | src/opencode_a2a/execution/session_manager.py:56-75 | serves the cached session, joins the create in flight, or starts one |
| SessionManagement.SessionManager.FinishCreate | src/opencode_a2a/execution/session_manager.py:85-100 | refuses a foreign owner, else binds, owns an unowned session, and takes only its own create out of flight |
| SessionManagement.SessionManager.Settle | src/opencode_a2a/execution/session_manager.py:79-83 | a failed create leaves flight only if it is still the one registered |
| SessionManagement.SessionManager.ClaimPreferredSession | src/opencode_a2a/execution/session_manager.py:117-128 | refused under a foreign owner or live claim, false for the owner, else a new lease |
| SessionManagement.SessionManager.FinalizeSessionClaim | src/opencode_a2a/execution/session_manager.py:130-142 | refused alike, else owner set and own claim cleared |
| SessionManagement.SessionManager.PopCachedSession | src/opencode_a2a/execution/session_manager.py:159-167 | removes binding and in-flight create of one key |
| SessionManagement.SessionClaimGuard.Enter | src/opencode_a2a/jsonrpc/handlers/common.py:45-51 | opens a claim only with both an identity and a session |
| SessionManagement.SessionClaimGuard.Finalize | src/opencode_a2a/jsonrpc/handlers/common.py:53-59 | finalises exactly an open, unfinalised claim |
| SessionManagement.SessionClaimGuard.Exit | src/opencode_a2a/jsonrpc/handlers/common.py:61-74 | releases exactly a claim that was opened and not finalised |
| SessionManagement.GuardReleasesWhatItOpened | src/opencode_a2a/jsonrpc/handlers/common.py:45-74 | over any interleaved life, a guard finalises at most once and only what it opened, and releases exactly what it opened and did not finalise |
| SessionProtocol.OwnersAreWriteOnce | src/opencode_a2a/execution/session_manager.py:85-142 | over the database repository: a named owner, once set, never changes, in every interleaving |
| SessionProtocol.EmptyOwnerIsReplaced | src/opencode_a2a/execution/session_manager.py:134-138 | an empty identity counts as no owner and is overwritten |
| SessionProtocol.OwnerReplacedIff | src/opencode_a2a/execution/session_manager.py:85-142 | over the database repository: a step replaces a recorded owner iff that is the empty identity and the step records a named one |
| SessionProtocol.EmptyOwnerIsReachable | src/opencode_a2a/execution/session_manager.py:130-142 | from the initial state two finalises make it happen |
| SessionProtocol.CachedSessionsAreOwned | src/opencode_a2a/execution/session_manager.py:42-100 | over the database repository: at every lock release each binding's session is owned by the binding's identity |
| SessionProtocol.SingleFlight | src/opencode_a2a/execution/session_manager.py:56-75 | at most one create per key is in flight, and a new caller joins it or is served from the cache |
| SessionProtocol.WaitersShareTheSession | src/opencode_a2a/execution/session_manager.py:77-100 | over the database repository: all waiters on one create return the same session and own it |
| SessionProtocol.OlderCreateSparesNewer | src/opencode_a2a/execution/session_manager.py:81-99 | an older create, however it ends, never removes a newer one from flight |
| SessionProtocol.CancelledCreateSticks | src/opencode_a2a/execution/session_manager.py:77-83 | a cancelled create stays registered until popped, and later callers are attached to it |
| SessionProtocol.ResumeSettlesIff | src/opencode_a2a/execution/session_manager.py:77-99 | a resuming waiter takes its registered create out of flight iff it was not cancelled |
| SessionProtocol.SettledCreateLeavesIff | src/opencode_a2a/execution/session_manager.py:56-100 | over every run, a create not popped is in flight until a waiter resumes, and from then on iff it was cancelled |
| SessionProtocol.LeaseHolds | src/opencode_a2a/server/state_store.py:382-444 | a claim stays as made until its deadline or its holder's finalise or release |
| SessionProtocol.LeaseExcludes | src/opencode_a2a/execution/session_manager.py:117-149 | under a live claim others' claims and finalises are refused and their releases do nothing |
| SessionProtocol.AtMostOneFinalizes | src/opencode_a2a/execution/session_manager.py:130-142 | over the database repository: of all identities that ever race for a session at most one finalises |
| SessionProtocol.ReleaseIsOwn | src/opencode_a2a/execution/session_manager.py:144-149 | a release removes the caller's own claim on that session and nothing else |
| SessionAnswers.AnswersIff | src/opencode_a2a/execution/session_manager.py:117-137 | claims and finalises are refused exactly while another named owner is recorded or another's named claim is pending; the owner alone needs no claim |
| SessionAnswers.GrantedClaimIsLease | src/opencode_a2a/execution/session_manager.py:127-128 | a granted claim is recorded for its full lifetime |
| SessionAnswers.GrantedClaimExcludes | src/opencode_a2a/execution/session_manager.py:117-149 | after a granted claim, over every run within its lifetime without the holder's own action, every other identity's claim and finalise is refused |
| SessionAnswers.SwitchedOffRecordsNothing | src/opencode_a2a/server/state_store.py:408-429 | with a lifetime of zero a granted claim leaves nothing behind |
| SessionAnswers.FinaliseOwnsAndEndsClaim | src/opencode_a2a/execution/session_manager.py:130-142 | a finalise makes the caller owner and ends its claim, and changes no other session's owner and no other live claim |
| SessionAnswers.EnteredGuardExcludes | src/opencode_a2a/jsonrpc/handlers/common.py:45-51 | a guard that opened a claim keeps all others out for the claim's lifetime |
| SessionAnswers.BoundIsServed | src/opencode_a2a/execution/session_manager.py:48-64 | over every run, a bound session is what later callers of its key are served, until it is popped or bound anew |
| SessionAnswers.CreatedIsServed | src/opencode_a2a/execution/session_manager.py:85-100 | a created session is returned, owned and served, unless another named identity owns it; then nothing changes |
| SessionAnswers.OwnerIsServed | src/opencode_a2a/execution/session_manager.py:42-54 | an owner that prefers its session is served it once it has bound it |
| SessionAnswers.FinalisedIsServed | src/opencode_a2a/execution/session_manager.py:102-115 | so is whoever finalises a session on the way to binding it |
| SessionAnswers.PoppedStartsAnew | src/opencode_a2a/execution/session_manager.py:159-167 | after a pop the next caller of the key starts a create of its own |
| SessionAnswers.OlderRowsCount | src/opencode_a2a/server/state_store.py:125-136 | a claim row without a deadline counts until its last update plus the lifetime; one without either does not count |
| Coordination.ExecutionCoordinator.RegisterRunningRequest | src/opencode_a2a/execution/coordinator.py:246-250 | the three request maps gain exactly the key with its own value |
| Coordination.ExecutionCoordinator.RegisterSession | src/opencode_a2a/execution/coordinator.py:268-274 | the four session maps gain exactly the key with its own value |
| Coordination.ExecutionCoordinator.Cleanup | src/opencode_a2a/execution/coordinator.py:470-491 | claim released, stop set, stream task cancelled and awaited, lock left unlocked, key gone from all seven maps |
| Coordination.SessionsAreExclusive | src/opencode_a2a/execution/coordinator.py:252-274 | in any run live users of a session share one lock; if no cleanup frees a lock someone else holds, at most one holds it |
| Coordination.StepExcludesIff | src/opencode_a2a/execution/coordinator.py:482-483 | a step keeps exclusion iff it is not a cleanup that frees a lock it did not acquire and another has |
| Coordination.ExclusionIff | src/opencode_a2a/execution/coordinator.py:252-274 | exclusion (no lock has two holders, and every holder finds its lock locked) holds at every point of a run iff no such cleanup occurs in it |
| Coordination.OneHolderIff | src/opencode_a2a/execution/coordinator.py:264-267 | no lock ever has two holders iff no coordinator acquires a lock that another still holds, which takes such a cleanup |
| Coordination.ExclusiveUnlessCancelledWaiting | src/opencode_a2a/execution/coordinator.py:264-267 | it holds in every run in which no coordinator is cancelled while it waits for the lock |
| Coordination.CancelledWaiterBreaksExclusion | src/opencode_a2a/execution/coordinator.py:482-483 | after such a cleanup a waiter acquires the lock beside its holder |
| Coordination.ExclusionCanBeLost | src/opencode_a2a/execution/coordinator.py:482-483 | a concrete run from the start with two holders of one lock |
| Coordination.CleanupIsComplete | src/opencode_a2a/execution/coordinator.py:470-491 | once all have cleaned up nothing is registered and no claim is left, on every exit path |
| Coordination.StepRegisters | src/opencode_a2a/execution/coordinator.py:246-274 | registering, binding and session registration put the key into their maps and a pending claim among the claims |
| Coordination.RegisteredStays | src/opencode_a2a/execution/coordinator.py:484-491 | over every run each of the seven maps keeps a key until a coordinator of that key cleans up |
| Coordination.FinishedKeysAreGone | src/opencode_a2a/execution/coordinator.py:484-491 | a finished key is in none of the seven maps unless a live coordinator reuses it |
| Coordination.FinishedClaimsAreGone | src/opencode_a2a/execution/coordinator.py:470-476 | a finished coordinator's claim is gone unless a live one of the same identity has claimed the same session |
| InterruptRegistry.MemoryInterruptRequestRepository.Remember | src/opencode_a2a/server/state_store.py:490-518 | prunes, stores the binding with its deadline, drops the tombstone |
| InterruptRegistry.MemoryInterruptRequestRepository.Resolve | src/opencode_a2a/server/state_store.py:520-540 | active, expired or missing, burying what has expired |
| InterruptRegistry.MemoryInterruptRequestRepository.ListPending | src/opencode_a2a/server/state_store.py:546-563 | the caller's live bindings of the stripped type, ordered by deadline and id |
| InterruptRegistry.DatabaseInterruptRequestRepository.Remember | src/opencode_a2a/server/state_store.py:641-675 | upserts the binding and deletes the tombstone |
| InterruptRegistry.DatabaseInterruptRequestRepository.Resolve | src/opencode_a2a/server/state_store.py:677-716 | active, expired or missing; a tombstone is written only here |
| InterruptRegistry.DatabaseInterruptRequestRepository.ListPending | src/opencode_a2a/server/state_store.py:725-767 | the caller's live rows of the stripped type, ordered by deadline and id |
| InterruptRegistry.ListingIsUnique | src/opencode_a2a/server/state_store.py:546-563 | the order determines the listing |
| InterruptRefinement.RegistriesAgreeOnResolve | src/opencode_a2a/server/state_store.py:461-540 | after any operations both report the same ids active with the same binding, those of the timed map; expired means remembered and past its deadline |
| InterruptRefinement.RegistriesListTheSame | src/opencode_a2a/server/state_store.py:725-767 | both return the same pending sequence |
| InterruptRefinement.ExpiredStaysExpired | src/opencode_a2a/server/state_store.py:520-540 | once either registry has not answered active, neither answers it again until the request is remembered anew |
| InterruptAnswers.ListedIff | src/opencode_a2a/server/state_store.py:546-563 | after any operations either registry lists a binding iff it is what its id was last remembered with and not discarded, its identity is the caller's, its deadline is to come, and no type or its own stripped type was asked for |
| InterruptAnswers.ListedInOrder | src/opencode_a2a/server/state_store.py:563-563 | listings go by deadline, then by request id |
| InterruptAnswers.ActiveIff | src/opencode_a2a/server/state_store.py:490-540 | either registry answers active iff the id was last remembered, not discarded, and its own or the default lifetime is not over; then with exactly that binding |
| InterruptRefinement.MemoryForgetsFirst | src/opencode_a2a/server/state_store.py:461-488 | a concrete history after which memory calls missing what the database calls expired |
| InterruptDisagreement.ListingForgets | src/opencode_a2a/server/state_store.py:546-563 | that history meets the condition of RegistriesDisagreeIff for every request, deadline and late listing |
| InterruptDisagreement.RegistriesDisagreeIff | src/opencode_a2a/server/state_store.py:461-488 | after any operations the answers differ iff memory buried the request a tombstone's lifetime ago and the database has not noticed, or noticed less long ago |
| InterruptDisagreement.RegistriesDisagreeIffHeld | src/opencode_a2a/server/state_store.py:677-716 | the same in terms of what the two registries hold before the call |
| ClientManagement.LruOrderIsUnique | src/opencode_a2a/server/client_manager.py:126-126 | the stable sort by last use has one result, so the victims are determined |
| ClientManagement.A2AClientManager.Sweep | src/opencode_a2a/server/client_manager.py:110-118 | expired and pending entries leave, or are marked while lent, busy or protected; each dropped client is closed once |
| ClientManagement.A2AClientManager.Trim | src/opencode_a2a/server/client_manager.py:126-135 | the least recently used idle entries leave until the cache fits |
| ClientManagement.A2AClientManager.EvictLocked | src/opencode_a2a/server/client_manager.py:101-137 | sweep, and trim only when over the maximum with nothing pending |
| ClientManagement.A2AClientManager.OpenBorrow | src/opencode_a2a/server/client_manager.py:46-73 | reclaim, evict, lend, evict: the resulting cache, the client lent, and each dropped client once |
| ClientManagement.A2AClientManager.CloseBorrow | src/opencode_a2a/server/client_manager.py:79-91 | gives back only the entry that was lent, then evicts |
| ClientLeases.BorrowCountsAreLeases | src/opencode_a2a/server/client_manager.py:72-84 | a borrow count is the number of outstanding borrows of that client, shutdowns included |
| ClientLeases.ClosedAreNeverLent | src/opencode_a2a/server/client_manager.py:37-99 | no client is closed twice and a closed client is never lent again |
| ClientLeases.OnlyIdleClientsAreClosed | src/opencode_a2a/server/client_manager.py:101-137 | a client on a close list is neither busy nor held by any borrow |
| ClientLeases.LentClientsStay | src/opencode_a2a/server/client_manager.py:37-92 | until a shutdown every lent client stays cached and open |
| ClientLeases.EvictionFitsIff | src/opencode_a2a/server/client_manager.py:110-137 | exactly when an eviction brings the cache within its maximum |
| ClientLeases.FitsWhenIdle | src/opencode_a2a/server/client_manager.py:79-91 | after the last return with nothing busy the cache is within its maximum |
| ClientLeases.VictimsAreOldest | src/opencode_a2a/server/client_manager.py:126-135 | a victim was used no later than any idle, unprotected survivor |
| ClientLeases.WaitingEntryUnboundsTheCache | src/opencode_a2a/server/client_manager.py:123-124 | one lent entry pending eviction lets any number of idle clients pile up |
| ClientBorrows.BorrowLends | src/opencode_a2a/server/client_manager.py:46-67 | in every run a borrow lends the cached client of its url unless that has expired while idle; that one is closed, and like a missing one replaced by a new client |
| ClientBorrows.BorrowRenews | src/opencode_a2a/server/client_manager.py:68-74 | a borrow renews deadline and last use and takes the entry off the waiting list |
| ClientBorrows.ReturnRenews | src/opencode_a2a/server/client_manager.py:83-90 | a return renews deadline and last use of the entry if it stays |
| ClientBorrows.LeavingIsClosed | src/opencode_a2a/server/client_manager.py:37-99 | every client that leaves the cache is closed in that section; uncached clients are private to their borrow and closed with it |
| ClientBorrows.ExpiredIdleLeave | src/opencode_a2a/server/client_manager.py:110-118 | after a section no idle entry stays that had expired or was waiting, but the one just used |
| ClientBorrows.FreshLeavesOnlyForRoom | src/opencode_a2a/server/client_manager.py:120-135 | an entry neither expired nor waiting leaves only when the cache is over its maximum, and no more leave than needed |
| TaskStore.PathsAgree | src/opencode_a2a/server/task_store.py:393-416 | the guarded upsert and the locked path make the same transition for every stored and incoming value |
| TaskStore.EvaluateIff | src/opencode_a2a/server/task_store.py:59-78 | a save is refused only against a stored terminal task: as an overwrite iff the state differs, as a late mutation iff only the rest does |
| TaskStore.RowRoundTrip | src/opencode_a2a/server/task_store.py:427-436 | a row read back is what was written, and the guard is the policy's first branch |
| TaskStore.PolicyAwareTaskStore.SaveWithReadBeforeWrite | src/opencode_a2a/server/task_store.py:171-186 | writes iff the policy persists |
| TaskStore.PolicyAwareTaskStore.PersistWithAtomicTerminalGuard | src/opencode_a2a/server/task_store.py:232-245 | inserts, updates every column, or does nothing, and says which |
| TaskStore.PolicyAwareTaskStore.SaveDatabaseTask | src/opencode_a2a/server/task_store.py:188-230 | undisturbed, a save is written or answered by the policy, never by the skip error |
| TaskFreezing.StoredIsFirstTerminal | src/opencode_a2a/server/task_store.py:59-78 | what is stored is the first terminal save since the last delete, or else the last save |
| TaskFreezing.TerminalIsFrozen | src/opencode_a2a/server/task_store.py:59-78 | a stored terminal value changes only by its delete |
| TaskFreezing.LockedPathIsAtomic | src/opencode_a2a/server/task_store.py:171-186 | reads, writes and deletes, interleaved, replay as atomic operations |
| TaskFreezing.LockedTerminalStays | src/opencode_a2a/server/task_store.py:171-186 | in any interleaving of locked steps, a stored terminal task changes only by its delete |
| TaskFreezing.GuardedPathIsAtomic | src/opencode_a2a/server/task_store.py:206-245 | upserts, reloads and deletes, interleaved, replay as atomic operations |
| TaskFreezing.GuardedTerminalStays | src/opencode_a2a/server/task_store.py:206-245 | in any interleaving of upserts and reloads, a row the guard refuses changes only by its delete |
| TaskFreezing.BackendsAgree | src/opencode_a2a/server/task_store.py:160-186 | equal orders of effect leave equal stores in both backends |
| TaskFreezing.SkipErrorNeedsDelete | src/opencode_a2a/server/task_store.py:207-226 | without a delete of its id a skipped save is answered by the policy on the row it ran into |
| TaskFreezing.SkipErrorIff | src/opencode_a2a/server/task_store.py:209-226 | the skip error is raised iff the reload finds no terminal row |
| TaskFreezing.SkipErrorIsReachable | src/opencode_a2a/server/task_store.py:224-226 | a delete between upsert and reload reaches it |
| Base64.UnpaddedRoundTrip | src/opencode_a2a/server/rest_tasks.py:335-335 | stripping the padding and restoring it by length loses nothing |
| Pagination.TokenRoundTripIff | src/opencode_a2a/server/rest_tasks.py:300-335 | a token decodes to its task's sort key iff the id is not blank, and is refused otherwise |
| Pagination.PageSize | src/opencode_a2a/server/rest_tasks.py:183-192 | 50 by default, 1 to 100 accepted |
| Pagination.FilterTasksSpec | src/opencode_a2a/server/rest_tasks.py:128-146 | the listing holds exactly the matching tasks in strictly descending key order |
| Pagination.NewestFirst | src/opencode_a2a/server/rest_tasks.py:128-146 | in terms of timestamps: exactly the tasks with the context, state and age asked for, the later before the earlier, the greater id first among equals |
| Pagination.OnlyNoTokenStartsOver | src/opencode_a2a/server/rest_tasks.py:300-335 | only an absent or blank token starts from the top; an undecodable one is refused |
| PageWalk.PageCovers | src/opencode_a2a/server/rest_tasks.py:101-107 | a page holds exactly the listed keys below the cursor and not below the next one |
| PageWalk.ExactlyOnce | src/opencode_a2a/server/rest_tasks.py:101-107 | whatever changes between requests, no key is listed twice and one present throughout a finished walk is listed once |
| PageWalk.CursorsDecrease | src/opencode_a2a/server/rest_tasks.py:149-152 | each next cursor is strictly below the last |
| PageWalk.UnchangedStoreIsListed | src/opencode_a2a/server/rest_tasks.py:101-107 | on an unchanged store the pages concatenate to the full listing, in as many requests as it takes |
| PageWalk.TokensCarryCursors | src/opencode_a2a/server/rest_tasks.py:101-123 | following tokens is following cursors when no id is blank |
| Polling.Validate | src/opencode_a2a/client/polling.py:43-59 | no error iff the policy is valid |
| TaskStates.StatesPartition | src/opencode_a2a/client/polling.py:11-35 | every task state is terminal, polled on, or waits for the client, and no two of these |
| Polling.PollTaskUntilTerminal | src/opencode_a2a/client/client.py:351-376 | stops at the first settled state, failed fetch or passed deadline, within the bounds on fetches and sleeps; a timeout only after the whole timeout, in a state still worth polling |
| Polling.IntervalsGrow | src/opencode_a2a/client/polling.py:36-40 | intervals never shrink and stay within initial and maximum |
| Polling.IntervalMultiplies | src/opencode_a2a/client/polling.py:36-40 | each interval is the one before times the multiplier, capped at the maximum |
| Polling.PollingIsBounded | src/opencode_a2a/client/client.py:361-376 | at most ceil(timeout / initial) fetches, requested sleeps sum to at most the timeout |
| OutputModes.NormalizeAcceptedOutputModes | src/opencode_a2a/output_modes.py:47-62 | the loop equals its specification |
| OutputModes.NormalizeMeans | src/opencode_a2a/output_modes.py:47-62 | modes result iff some are named and none is a wildcard, and are then the distinct canonical names |
| OutputModes.CanonicalMeans | src/opencode_a2a/output_modes.py:47-62 | a canonical mode is the stripped string with ASCII capitals made small |
| OutputModes.WildcardsAcceptAll | src/opencode_a2a/output_modes.py:47-62 | one wildcard among the strings lifts every restriction |
| OutputModes.NormalizeTwice | src/opencode_a2a/output_modes.py:47-62 | normalised modes are a fixed point |
| OutputModes.FilterParts | src/opencode_a2a/output_modes.py:356-370 | the loop equals its specification |
| OutputModes.FilteredIff | src/opencode_a2a/output_modes.py:356-386 | everything kept is accepted, and nothing changes iff everything was |
| OutputModes.FilteringDistributes | src/opencode_a2a/output_modes.py:356-370 | filtering distributes over concatenation |
| OutputModes.ApplyTwice | src/opencode_a2a/output_modes.py:161-194 | filtering any payload twice is filtering it once |
| OutputModes.SameTask | src/opencode_a2a/output_modes.py:299-324 | only the set of modes matters |
| OutputVisibility.PartShown | src/opencode_a2a/output_modes.py:356-386 | what is left of each kind of part, in terms of the modes: text, JSON or its text, files by MIME type, others as they are |
| OutputVisibility.MessageShown | src/opencode_a2a/output_modes.py:336-343 | messages are filtered one by one; one with nothing left is dropped, any other keeps everything but its parts |
| OutputVisibility.ArtifactShown | src/opencode_a2a/output_modes.py:346-353 | the same for artifacts |
| OutputVisibility.OnlyAcceptedIsShown | src/opencode_a2a/output_modes.py:161-194 | no payload shows an unaccepted part, an accepted payload is unchanged, only parts ever differ, and nothing but an empty artifact update is withheld |
| NegotiationMetadata.ExtractAfterMerge | src/opencode_a2a/output_modes.py:95-132 | the modes read back are the set merged in |
| NegotiationMetadata.MergeKeepsTheRest | src/opencode_a2a/output_modes.py:95-117 | every other metadata key is unchanged |
| NegotiationMetadata.MergeTwice | src/opencode_a2a/output_modes.py:220-223 | merging again changes nothing, so the metadata is saved once |
| NegotiationMetadata.ReadingChangesNothing | src/opencode_a2a/server/rest_tasks.py:155-166 | a filtered and annotated task is returned unchanged by the filter on read |
| NegotiationMetadata.ReadingTwice | src/opencode_a2a/server/rest_tasks.py:155-166 | the filter on read is idempotent for any stored metadata |
| OutputVisibility.EmittedModesAreRecorded | src/opencode_a2a/output_modes.py:220-223 | every emitted task, status and artifact update carries the modes it was filtered by |
| OutputVisibility.ReadingShowsAccepted | src/opencode_a2a/server/rest_tasks.py:155-166 | a stored task is read without a part its recorded modes do not accept, and unchanged without recorded modes |
| NegotiationMetadata.StreamedChunksFilterAsOne | src/opencode_a2a/output_modes.py:227-234 | an artifact streamed in filtered chunks is the filtered artifact |

## Left out

- HTTP, SSE transport, FastAPI wiring and SQLAlchemy: tables are maps, an upsert is one map update, the event queue is an append-only sequence.
- The A2A SDK: its task manager and result aggregator are not part of this model.
- NegotiationMetadata.StreamedChunksFilterAsOne: speaks of the concatenation of an artifact's chunks, because the append semantics of the SDK's task manager is not part of this model.
- Logging, metrics, debug source labels, token usage, titles, directories and workspace ids passed upstream: no invariant depends on them.
- Parsing of raw upstream events and of JSON-RPC parameters: an upstream event is a datatype, with snapshots and request ids already stripped.
- Error texts: a failure keeps its cause and final state, not its rendered message. The error of a failed response body is not modelled.
- Failing hooks, queues and closes: enqueueing, closing a client and the interrupt hooks are assumed to succeed.
- Only the field `text` is ever buffered by the delta handler, so a buffered delta carries no field name.
- The coordinator's request loop over tool turns: registration, session binding, the streaming response and cleanup are modelled, the turns between are not.
- get_or_create with a preferred session is modelled as its separate lock sections: claim, then bind.
- Coordination.ExecutionCoordinator.Cleanup: awaiting the cancelled stream consumer is assumed to end it; a consumer that ignores its cancellation is not modelled.
- Cancellation delivered inside cleanup, a crash between two statements of a lock section, several processes on one database: assumed away.
- Garbage collection of the weakly held session locks: a lock lives as long as some coordinator refers to it.
- A lock section sees one time; the source reads its clocks several times within one, with nothing else happening in between.
- Clocks are reals and never go back; floating-point rounding is not modelled.
- Entries of the client cache are values in the map; the identity test on entries is the test on their client, which is unique to its entry. Urls come without trailing slashes.
- Whether a client is busy is an arbitrary set at each lock section.
- In-memory aliasing of stored A2A tasks: a stored value is immutable and equal to its JSON dump.
- Dialects without a guarded upsert take the locked path over the database, which is the modelled locked path.
- JSON and ISO 8601 rendering: functions that are assumed to invert each other on what the page token holds. A status timestamp is given as parsed; missing, blank and invalid ones are the earliest instant.
- History truncation and artifact omission in a listed task, total counts and query-string parsing: direct projections.
- Lower-casing is that of ASCII letters. Modes given as attributes of a configuration object are modelled as the list they hold.
- Polling.PollTaskUntilTerminal: requires a clock that advances at least as far as each sleep, because the bound on fetches is false without it.
- StreamTheorems.EarlyDeltasCommute, StreamOrder.EarlyDeltasCommuteInFeeds: announcements without text of their own, because one that carries text is itself a delta or snapshot whose place in the order matters.
- StreamOrder.EarlyDeltasCommuteInFeeds: compares each part, not the sequence numbers of the client's queue, because the chunks of different parts are sent in another order when an announcement moves.
- MemoryTakeover.ForeignOwnerIff: single flight of creates is left to `SessionProtocol`; a completed create may come at any time, with any session id.

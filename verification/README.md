# heycode agent: a verified model

heycode's agent keeps every fact in one append-only session log and reads its
queues, schedules, goals and turns back from it. This project models that log
and the parts of the agent whose correctness depends on it, and proves what they
promise over every run: with crashes that cut the log, with other writers that
append between any two steps, and with refusals of the store at any append.

The modules follow the program:

- `SessionEvents`, `Sessions`: the log, checked appends, the atomic claim of an
  input, checkpoints, crashes, and other owners of the session lock.
- `InboxProjection`, `InboxOperations`: the two pending-input queues.
- `ScheduleProjection`, `ScheduleLog`, `ScheduleRestart`, `ScheduleService`,
  `CopiedTargets`: durable schedules, whose dispatch is two appends, with timers,
  recovery, and what a restart brings back.
- `Accumulators`, `CodeMode`, `TurnBrackets`, `Turns`: the stream accumulator,
  the encodings it decodes, and the turn loop with its many exits.
- `FoldBoundaries`, `Compactions`, `Utf8`, `Summaries`: what compaction may fold,
  its commit against other writers, and the hierarchical summary.
- `OutputStreams`, `Monitors`: the output ring with its cursors and the bounded
  line parser on top of it.
- `DeferredTools`: catalog union, stable selection, filtering.
- `GoalProjection`, `Goals`: goal revisions and rounds.
- `Approvals`, `Foreground`, `CompactGrammar`: approval ceilings, foreground
  promotion against settlement, and the `/compact` grammar.
- `Sequences`, `Decimals`: helpers that several of them share.

How the environment is modelled. The store is an oracle: the n-th write or
checkpoint succeeds or is refused, which covers the file system, size bounds and
text validation. The clock never goes back. Each section under a lock is one
atomic step; between two sections other owners append any events of the kinds
they own. Providers, summarizers, the user's answers, the calendar and the
rendering of text are parameters, so every statement holds for all of them.

Results that differ from what one would expect of the code:

- The 64-bit output counter saturates. Pages keep showing the retained bytes, but
  their offsets then lag behind the history (`PageIsHistory`). A tail window
  larger than a page does not reach the newest byte (`TailReachesEnd`).
- A turn may be left open. Where preparation escapes (a clock reading, the
  conversion of the output limit at `agent.rs:1596`, a task-record update) or usage
  is not recorded, it escapes over any store; otherwise it escapes exactly if the
  store refuses the last write that the run asks for (`RunTurn`). Nothing stops the
  next turn from starting inside an open one (`OpenTurnOverrun`): the log has every
  end exactly if no turn was left open, and its turns are disjoint exactly if none
  that was left open was followed by another (`RunAll`). Adapter preparation never
  hands pressure to its caller (`PrepareAdapterDispatch`), so the exit at
  `agent.rs:1672` is not reachable.
- Recovery of interrupted dispatches completes exactly if every pending one has a
  next target; a single one that does not makes every list, creation, deletion,
  postponement and rearm fail, for all schedules (`RecoverEnqueued`).
- A postponement can make the schedules unreadable. It is replayed with the time of
  the check and then stored with a later one. If it is stored at or after its target,
  or past the end of its loop, it is in the log for good, no later event repairs the
  replay, and every operation fails for all schedules (`LateRecordRuins`, with a
  concrete case in `LatePostponement`). Over every run, crashes included, a log that
  nothing else had broken is unreadable exactly if it holds such a record (`Run`).
- The stand-in for an asking child without a prompter denies everything only
  under a parent that does not ask (`UnpromptedChild`).
- "No round limit" counts as the smallest limit: once a round has started, every edit
  of a goal that leaves or lifts its limit to none is refused, also an edit of the
  objective alone (`Edit`).
- The goal history can become unreadable. A round is checked in one section and
  submitted in a later one. If the goal has moved meanwhile, or if a change that had
  already looked for waiting rounds commits over the submitted one, a round waits
  that may not start, and claiming it ruins the history for good. Without such a
  crossing the history stays readable over every run, and each crossing leaves such
  a round (`Run`, `SubmitRound`, `AppendChange`, `OneClaim`). Two runs that end
  unreadable: a pause between check and submission (`RoundAfterPause`), and, without
  any change, a claim between the reading of the goal and the look at the inbox
  (`RoundAfterClaim`).
- A fork refuses to copy an overdue schedule when the distance to its next target
  does not fit in 64 bits, even if the target does (`CopiedTargetAnyAnchor`,
  `NegativeAnchorRefused`); validated targets are never negative.
- Without `--`, a focus survives exactly under the conditions of the `BareFocus`
  lemmas.

## Model

| member | source | states |
|---|---|---|
| Sessions.Session.Claim | crates/heycode-session/src/session.rs:1285-1314 | a claim removes one message and logs its text in one write, or does nothing |
| InboxProjection.Conservation | crates/heycode-session/src/inbox.rs:490-592 | for each queue of any orderly log, the claimed messages followed by the pending ones are the inserted ones without the cancelled ones |
| InboxProjection.AlwaysTidy | crates/heycode-session/src/inbox.rs:490-560 | in every accepted log each pending id is in one place only and was inserted before |
| InboxProjection.AcceptedSplice | crates/heycode-session/src/inbox.rs:490-560 | the log accepts exactly the insertions of new messages of the queue's delivery, the claims, and the withdrawals with or without replacements, each within the queue |
| InboxProjection.OwnQueue | crates/heycode-session/src/inbox.rs:661-690 | every pending message waits in the queue that its delivery names |
| InboxOperations.CheckCapacity | crates/heycode-agent/src/inbox.rs:59-73 | the saturating scan refuses exactly when 256 messages or 4 MiB would be exceeded |
| InboxOperations.FoundIffSeen | crates/heycode-agent/src/inbox.rs:514-551 | scanning the log for an identity finds exactly the identities ever inserted, also after their claim or cancellation |
| InboxOperations.EnqueueOwned | crates/heycode-agent/src/inbox.rs:474-508 | an accepted submission is appended to the end of its own queue and tells whether it must wake the agent; a refused one changes nothing |
| InboxOperations.EnqueueIdentified | crates/heycode-agent/src/inbox.rs:514-551 | retrying a known identity inserts nothing, a changed message is a conflict, a new one is inserted exactly if it fits and the store accepts, and success is checkpointed |
| InboxOperations.DeliverTeamMail | crates/heycode-agent/src/inbox.rs:193-226 | a known id is answered without inserting; a new one that fits is appended and checkpointed exactly if the store accepts |
| InboxOperations.CancelInbox | crates/heycode-agent/src/inbox.rs:284-302 | exactly the located pending message is withdrawn; an unknown id is no error |
| InboxOperations.ClaimFollowUp | crates/heycode-agent/src/inbox.rs:357-381 | only the expected front of the turn queue is claimed, with its text, and over an accepting store it always is |
| InboxOperations.ClaimInboxId | crates/heycode-agent/src/inbox.rs:398-416 | a message is claimed by id only from the front of its queue, and from there always over an accepting store |
| InboxOperations.DrainNextStep | crates/heycode-agent/src/inbox.rs:312-352 | a drain returns, in order, texts it claimed from the step queue, and fails only if the store refuses; undisturbed, the longest prefix within the count and byte bounds |
| InboxOperations.DrainAll | crates/heycode-agent/src/inbox.rs:312-352 | a queue within the admission bounds is drained completely |
| InboxOperations.Run | crates/heycode-agent/src/inbox.rs:193-552 | every run keeps conservation per queue, one user message per claim, and the capacity bounds |
| ScheduleProjection.AdvanceIsLater | crates/heycode-session/src/orchestration.rs:3083-3278 | a dispatch moves a recurring record strictly past the time it was accepted |
| ScheduleProjection.AdvanceOf | crates/heycode-session/src/orchestration.rs:3178-3252 | a dispatched reminder or one-shot target is done, as is what has expired; a loop waits; a recurring target moves to the next of the calendar if that is later and fits |
| CopiedTargets.DispatchTargetExact | crates/heycode-session/src/orchestration.rs:3182-3210 | a dispatched fixed rate moves to the first instant after acceptance on its own grid, and has none exactly when that does not fit |
| ScheduleProjection.ActiveAreLawful | crates/heycode-session/src/orchestration.rs:2775-2855 | in every readable log at most fifty schedules are active, each within the bounds of its rule; only recurring cron records and loops expire, a week after creation |
| ScheduleProjection.ValidIsLawful | crates/heycode-session/src/orchestration.rs:2775-2855 | a record is accepted exactly if it keeps the bounds of its rule and its target fits |
| ScheduleProjection.DispatchAdvances | crates/heycode-session/src/orchestration.rs:3083-3278 | a dispatch removes a one-shot, keeps a fixed rate on its grid, and disarms a wakeup |
| ScheduleProjection.AgreesDispatch | crates/heycode-agent/src/durable_schedule.rs:611-664 | a recorded dispatch settles the only reminder of its target and makes no new orphan |
| ScheduleLog.SoundInsert | crates/heycode-agent/src/durable_schedule.rs:643-653 | inserting a reminder keeps every prefix of the log sound if its schedule has no unrecorded reminder |
| ScheduleLog.SoundEdit | crates/heycode-agent/src/durable_schedule.rs:861-886 | every recorded schedule change keeps every prefix of the log sound |
| ScheduleLog.SoundForeign | crates/heycode-agent/src/durable_schedule.rs:611-726 | appends by other owners change no schedule state and no reminder |
| ScheduleLog.DispatchedOnce | crates/heycode-agent/src/durable_schedule.rs:666-726 | a message is named by exactly one dispatch record if it counts as dispatched, and by none otherwise |
| ScheduleLog.DeletedIsInactive | crates/heycode-agent/src/durable_schedule.rs:317-345 | a deleted schedule never becomes active again |
| ScheduleLog.FindsOrphan | crates/heycode-agent/src/durable_schedule.rs:666-712 | the recovery scan finds a reminder without dispatch record if and only if there is one |
| ScheduleLog.DeletedIdsAre | crates/heycode-agent/src/durable_schedule.rs:728-769 | the reconciliation scan collects exactly the schedules with a local deletion record |
| ScheduleLog.WaitingForeign | crates/heycode-agent/src/durable_schedule.rs:771-800 | other owners only ever take reminders out of the inbox |
| ScheduleLog.FreshSuffix | crates/heycode-agent/src/durable_schedule.rs:76-100 | a session without local events starts sound |
| ScheduleService.AppendScheduleChange | crates/heycode-agent/src/durable_schedule.rs:861-886 | a change is appended only if the log replays with it at the time of the check; once stored, the log replays exactly unless it is a postponement stored too late |
| ScheduleLog.LateRecordRuins | crates/heycode-agent/src/durable_schedule.rs:861-886 | a postponement that is checked in time and stored too late makes the replay fail, whatever follows |
| ScheduleLog.LatePostponement | crates/heycode-agent/src/durable_schedule.rs:861-886 | a concrete postponement checked one millisecond before its target and stored at it |
| ScheduleLog.ReadableUnlessLate | crates/heycode-agent/src/durable_schedule.rs:861-886 | a log that nothing else broke is unreadable exactly if it holds a postponement stored too late |
| ScheduleService.DispatchClears | crates/heycode-agent/src/durable_schedule.rs:654-664 | after the dispatch record no reminder of the schedule lacks one |
| ScheduleService.DurableScheduleService.RecoverEnqueued | crates/heycode-agent/src/durable_schedule.rs:666-726 | recovery terminates; it succeeds over an accepting store exactly if the log replays and every unrecorded reminder has a next target, and then no reminder lacks its durable dispatch record |
| ScheduleLog.RecordingKeepsRecoverable | crates/heycode-agent/src/durable_schedule.rs:666-726 | recording one dispatch does not change whether the others can be recorded |
| ScheduleService.DurableScheduleService.RecordedExactlyOnce | crates/heycode-agent/src/durable_schedule.rs:666-726 | then each local reminder is named by exactly one dispatch record |
| ScheduleService.DurableScheduleService.DispatchDue | crates/heycode-agent/src/durable_schedule.rs:611-664 | a current, armed and due record is dispatched with one reminder of its own text, and announced only after its record is durable; any other changes nothing; over an accepting store it fails only if the text cannot be rendered or does not fit, the message id is taken, or no next target exists |
| ScheduleService.DurableScheduleService.FireTimer | crates/heycode-agent/src/durable_schedule.rs:580-596 | a timer whose dispatch failed stops, and after a success exactly the recurring ones go on |
| ScheduleService.DurableScheduleService.FireWoken | crates/heycode-agent/src/durable_schedule.rs:580-664 | a cancelled timer that had woken inserts nothing and announces nothing |
| ScheduleService.DurableScheduleService.StartTimer | crates/heycode-agent/src/durable_schedule.rs:530-578 | a schedule whose slot exists gets no second timer |
| ScheduleService.DurableScheduleService.Create | crates/heycode-agent/src/durable_schedule.rs:436-466 | a created record is active, armed, durable and has a timer slot; the limit error means 50 active records; over an accepting store every other failure is named |
| ScheduleService.DurableScheduleService.Delete | crates/heycode-agent/src/durable_schedule.rs:317-345 | after Ok the schedule is durably deleted, has no pending reminder and no timer; over an accepting store it succeeds exactly if recovery can and the schedule is active |
| ScheduleService.DurableScheduleService.RescheduleWakeup | crates/heycode-agent/src/durable_schedule.rs:261-302 | after Ok the loop is armed for the asked target with a fresh timer and no old reminder pending; over an accepting store every failure is named, and the history becomes unreadable only through its own late record |
| ScheduleService.DurableScheduleService.List | crates/heycode-agent/src/durable_schedule.rs:225-243 | a list is the replayed state after recovery, with nothing pending for deleted schedules |
| ScheduleService.DurableScheduleService.ReconcileDeleted | crates/heycode-agent/src/durable_schedule.rs:728-769 | after Ok no deleted schedule has a pending reminder |
| ScheduleService.DurableScheduleService.CancelPendingFor | crates/heycode-agent/src/durable_schedule.rs:771-800 | after Ok nothing of the schedule is pending, and an accepting store gives Ok |
| ScheduleService.DurableScheduleService.CancelInherited | crates/heycode-agent/src/durable_schedule.rs:813-850 | after Ok a fork has no pending reminder of its parent |
| ScheduleService.DurableScheduleService.Rearm | crates/heycode-agent/src/durable_schedule.rs:468-528 | after Ok, as of a moment of the call: every fixed rate goes on, every reminder does unless recovery recorded its dispatch, a one-shot cron target only if it is also still ahead, a recurring one until it expires, a self-paced loop never; what goes on has its old target unless recovery moved it, and a timer slot; what recovery did not finish and is not brought back is durably deleted with nothing pending; every durable deletion is finished; over an accepting store an open service succeeds exactly if recovery can |
| ScheduleRestart.RecoverMore | crates/heycode-agent/src/durable_schedule.rs:666-726 | recovery decides the fate of the schedules with an unrecorded reminder and leaves every other as it was |
| ScheduleRestart.RetiredIsRestored | crates/heycode-agent/src/durable_schedule.rs:468-528 | retiring what lapses after recovery leaves, for every schedule, what a restart promises of its rule |
| ScheduleLog.InheritedIdsAre | crates/heycode-agent/src/durable_schedule.rs:813-850 | the inherited messages are exactly those that a splice below the session's own suffix inserted for a schedule |
| ScheduleService.DurableScheduleService.Crash | crates/heycode-agent/src/durable_schedule.rs:666-726 | any cut of the log at or after the last checkpoint keeps the invariant and the durable deletions |
| ScheduleService.DurableScheduleService.Restart | crates/heycode-agent/src/durable_schedule.rs:468-528 | after any crash and a successful rearm, every schedule that survived the cut is brought back as its rule promises, durable deletions are finished and each reminder has exactly one dispatch record |
| ScheduleService.DurableScheduleService.Run | crates/heycode-agent/src/durable_schedule.rs:249-726 | over every run with crashes each occurrence is inserted at most once, announcements are durable, nothing is sent for a schedule durably deleted before, and the history is unreadable exactly if a postponement was stored too late; without crashes a deleted schedule stays quiet |
| CopiedTargets.CopiedTargetExact | crates/heycode-agent/src/durable_schedule.rs:888-909 | the copied target of an overdue fixed rate is the least aligned instant after now, and fails exactly when that does not fit in 64 bits |
| CopiedTargets.CopiedTargetAnyAnchor | crates/heycode-agent/src/durable_schedule.rs:888-909 | for any anchor the copy also fails when the distance to the target does not fit |
| CopiedTargets.OtherCopies | crates/heycode-agent/src/durable_schedule.rs:888-909 | a target ahead is copied as it is, an overdue one of no fixed rate is due at the next instant |
| CopiedTargets.NegativeAnchorRefused | crates/heycode-agent/src/durable_schedule.rs:888-909 | a concrete negative anchor whose fitting target is refused |
| CopiedTargets.ChainStaysOnAnchor | crates/heycode-agent/src/durable_schedule.rs:357-420 | copies along any chain of forks end where one copy at the latest time would |
| Accumulators.AccumulatedTurn.Absorb | crates/heycode-agent/src/agent.rs:4382-4446 | text is logged as it arrives and calls are grouped by index with first id and name and concatenated arguments |
| Accumulators.AccumulatedTurn.AbsorbInference | crates/heycode-agent/src/agent.rs:4448-4558 | an adapter event is absorbed as the chunk it stands for, or held back, exactly if it is permitted now and its writes are accepted; a call index beyond 16 bits is refused |
| Accumulators.AccumulatedTurn.CommitPending | crates/heycode-agent/src/agent.rs:4659-4803 | held-back facts are appended in order at the finish, exactly if metadata agrees with the normalized usage, the log projects and the store accepts; none of them if one does not validate |
| Accumulators.AccumulatedTurn.ToToolCalls | crates/heycode-agent/src/agent.rs:4811-4825 | the calls come out in order of first appearance |
| Accumulators.SlotAppend | crates/heycode-agent/src/agent.rs:4417-4438 | one more delta changes only the slot of its own index |
| Accumulators.IndicesDistinct | crates/heycode-agent/src/agent.rs:4423-4426 | each call index appears once in the order |
| CodeMode.NewSchedule | crates/heycode-agent/src/deferred_tools.rs:640-663 | a schedule is accepted exactly if it has 1 to 256 calls with distinct ids and selected names |
| CodeMode.ChunksRoundTrip | crates/heycode-agent/src/deferred_tools.rs:668-684 | decoding the chunks of a schedule gives back its calls in order |
| CodeMode.ChunksRoundTripOnlyThen | crates/heycode-agent/src/deferred_tools.rs:668-684 | past the 16-bit index no longer list could round-trip |
| CodeMode.EncodingsAgree | crates/heycode-agent/src/deferred_tools.rs:692-732 | both encodings carry the same chunks |
| CodeMode.Decode | crates/heycode-agent/src/deferred_tools.rs:640-732 | absorbing either encoding of an accepted schedule succeeds, writes nothing, and returns exactly its calls |
| TurnBrackets.TurnsBracketed | crates/heycode-agent/src/agent.rs:1370-2113 | each turn has one start and one end, except those left open |
| TurnBrackets.StepsBracketed | crates/heycode-agent/src/agent.rs:1383-2113 | steps are numbered from one and each start has its end before the turn's, unless the turn was left open |
| TurnBrackets.SequentialUnlessLeft | crates/heycode-agent/src/agent.rs:1370-1377 | turns overlap exactly when one was left open and a later one started |
| TurnBrackets.MessagesCounted | crates/heycode-agent/src/agent.rs:1954-2001 | the last turn has one assistant message per step that is not silent |
| TurnBrackets.SilentStepHeardNothing | crates/heycode-agent/src/agent.rs:1918-1947 | a turn goes on after a step without message only if no output was logged in that step and no tool call of the turn before |
| TurnBrackets.OneSilentStep | crates/heycode-agent/src/agent.rs:1918-1947 | a turn goes on after a step without message at most once |
| TurnBrackets.ToolsAreLogged | crates/heycode-agent/src/agent.rs:1919-1923 | the log scan for tool calls of a turn sees exactly those of that turn |
| TurnBrackets.MaxTurnIsLast | crates/heycode-agent/src/agent.rs:4860-4870 | the greatest logged turn number is the last turn's |
| TurnBrackets.StreamKeeps | crates/heycode-agent/src/agent.rs:4382-4558 | what a stream logs stays inside its step |
| Turns.FailRequest | crates/heycode-agent/src/agent.rs:2603-2700 | a failure closes exactly the scopes its stage opened, with the given reason, unless its last write is refused |
| Turns.RunStep | crates/heycode-agent/src/agent.rs:1383-2090 | every way through a step keeps the brackets, a silent step that continues is a permitted fallback, a quiet failure falls back or closes the turn as its class, origin and advice say, a stream that breaks off closes the turn with an error, an abort comes only before the stream's finish, an escape has its named cause, and a step in which nothing goes wrong settles or goes on as its calls and its input say |
| Turns.MeetFailure | crates/heycode-agent/src/agent.rs:1918-1947 | over an accepting store a turn goes on after a provider failure exactly if no fallback was used yet, nothing was heard, no tool ran, no native continuation came before, it is a rate limit, an overload or a server fault that the provider reported over the connection or as an event without advice against a retry, replay is safe and the handler applies; every other class, origin or advice closes the turn with an error |
| Turns.Classified | crates/heycode-agent/src/fallback.rs:44-61 | a failure may fall back exactly if it is a rate limit, an overload or a server fault, told by the connection or an event of it, without advice against, before any output and any tool |
| Turns.Speak | crates/heycode-agent/src/agent.rs:1988-2028 | a heard step logs one message with its text and its grouped calls, and only a pause counts as a continuation; a pause goes on exactly for an adapter that kept provider state and called nothing |
| Turns.RunTurn | crates/heycode-agent/src/agent.rs:1370-2113 | a turn escapes exactly where its last write is refused, its preparation escapes or its usage is not recorded, and is closed with the reported reason otherwise; the step that fell back is the one without message, heard nothing and followed no tool; every other step that went on has one message; with nothing but writes to fail it settles at its first step that owes nothing; a quiet failure of its first step goes on exactly if it is transient, the request may be replayed and the handler applies, and else closes it with an error |
| Turns.RunAll | crates/heycode-agent/src/agent.rs:1220-2113 | over all turns that the loop runs for an agent, each start has its end exactly if no turn was left open, and turns are disjoint exactly if none that was left open was followed by another; over an accepting store every admitted turn begins, and only preparation and usage records leave one open |
| Turns.OpenTurnOverrun | crates/heycode-agent/src/agent.rs:1370-1377 | a concrete run over an accepting store in which a turn stays open and the next one starts inside it, so that the turns overlap |
| Turns.PrepareAdapterDispatch | crates/heycode-agent/src/agent.rs:2981-3053 | preparation never returns pressure, and retries once |
| Turns.AgentCancellation.BeginTurn | crates/heycode-agent/src/cancellation.rs:88-110 | a turn begins exactly if none is active and the agent is not shut down |
| Turns.LeaseIsOneStretch | crates/heycode-agent/src/cancellation.rs:88-137 | a lease is held over one stretch of any order of begins and ends, so no later turn has it |
| Turns.RunLeases | crates/heycode-agent/src/cancellation.rs:36-137 | in every order of begins, ends and two-part cancellations exactly those turns are told to stop whose token a delivered request had read, which was while they held the agent |
| FoldBoundaries.BracketedIsDisjoint | crates/heycode-agent/src/compact.rs:79-108 | settled turns of any bracketed log do not overlap |
| FoldBoundaries.BoundaryKeeps | crates/heycode-agent/src/compact.rs:79-128 | a boundary lies inside the log, keeps exactly the asked number of settled turns, and splits none |
| FoldBoundaries.BoundaryKeepsInput | crates/heycode-agent/src/compact.rs:110-127 | the user message before the first kept turn, and its attachments, stay with it |
| FoldBoundaries.OpenTurnKept | crates/heycode-agent/src/compact.rs:79-128 | a latest turn that is still open is kept whole |
| FoldBoundaries.MoreKeptFoldsLess | crates/heycode-agent/src/compact.rs:105-109 | a larger window never folds more |
| FoldBoundaries.BoundaryExists | crates/heycode-agent/src/compact.rs:79-128 | there is something to fold exactly if enough turns are settled and the oldest kept one does not open the log |
| FoldBoundaries.SettledMeans | crates/heycode-agent/src/compact.rs:83-105 | a turn start counts exactly if the turn ends after it |
| FoldBoundaries.BoundaryAdvances | crates/heycode-agent/src/compact.rs:79-128 | a longer log never moves the boundary back |
| Compactions.CoveredExactly | crates/heycode-agent/src/compaction_registry.rs:1121-1137 | a sequence number covers exactly the prefix up to it |
| Compactions.BuiltinPlanIsExact | crates/heycode-agent/src/compaction_registry.rs:1208-1232 | every plan of a built-in strategy passes the exact-prefix check |
| Compactions.PruneIsAlwaysValid | crates/heycode-agent/src/compaction_registry.rs:1296-1316 | a prune plan always passes validation |
| Compactions.ReplacementRules | crates/heycode-agent/src/compaction_registry.rs:1144-1169 | text is accepted exactly from a strategy that is not native, bounded and with something in it; items exactly from a native one |
| Compactions.Commit | crates/heycode-agent/src/compaction_registry.rs:1049-1065 | the settlement is appended exactly if the log is the snapshotted one, it follows what it replaces, and the store accepts |
| Compactions.Compact | crates/heycode-agent/src/compaction_registry.rs:978-1088 | one run appends at most one settlement, directly after the log it was prepared from; a recorded summary or native history is what the strategy made of exactly the prefix that it replaces, and a prune records its fixed marker; errors before the commit append nothing; an undisturbed built-in strategy applies exactly a valid replacement of what it may fold |
| Compactions.SettlementRecords | crates/heycode-agent/src/compaction_registry.rs:1208-1232 | the settlement of a built-in plan records the produced text or items and names the last event they replace |
| Compactions.ValidItemsAgree | crates/heycode-agent/src/compaction_registry.rs:1172-1184 | native items are valid exactly if there are 1 to 256 valid ones of one provider, one model and one known protocol |
| Utf8.BoundaryNearby | crates/heycode-agent/src/compaction_registry.rs:421-425 | four octets in a row of valid text hold a character boundary (section 4 of RFC 3629) |
| Utf8.SplitValid | crates/heycode-agent/src/compaction_registry.rs:421-431 | cutting at a boundary leaves two valid texts |
| Utf8.CutAt | crates/heycode-agent/src/compaction_registry.rs:421-425 | the cut is the greatest boundary within the limit |
| Utf8.CodePoints | crates/heycode-agent/src/compaction_registry.rs:421-425 | the octets of a character are exactly those of a code point of that length, without overlong forms, surrogates or anything above the last (section 3 of RFC 3629) |
| Utf8.TrimExact | crates/heycode-agent/src/execution_monitor.rs:236-243 | from a character boundary on a text is blank exactly if all of that is trimmed from its end |
| Summaries.WindowIsEnough | crates/heycode-agent/src/compaction_registry.rs:392-413 | exactly which windows and output bounds leave the required 256 octets |
| Summaries.WindowLeaves | crates/heycode-agent/src/compaction_registry.rs:392-408 | a large window leaves all but 1024 and the bounded output, a small one reserves a quarter at most, and the focus comes off last |
| Summaries.Reduce | crates/heycode-agent/src/compaction_registry.rs:418-432 | the pieces of a round concatenate to its excerpt, are nonempty, valid and within the limit, and each is answered in order |
| Summaries.LinesHold | crates/heycode-agent/src/compaction_registry.rs:373-379 | joining loses nothing: each part stands at the sum of the lengths before it, ended by a newline |
| Summaries.PortableSummary | crates/heycode-agent/src/compaction_registry.rs:362-442 | every message of the transcript stands in the first excerpt, and every reply of a round in the next, in order and unchanged with one newline each and nothing else; every piece of every round is sent and answered, call by call, only what exceeds the limit is reduced, excerpts strictly shrink, at most eight rounds run, a summary is the reply to the last excerpt, and each error has its cause |
| OutputStreams.NewestAppend | crates/heycode-agent/src/execution_output.rs:20-25 | keeping the newest bytes piece by piece keeps the newest bytes of the whole |
| OutputStreams.Stream.Append | crates/heycode-agent/src/execution_output.rs:20-25 | the ring is the last min(total, capacity) bytes of the history |
| OutputStreams.Stream.GetPage | crates/heycode-agent/src/execution_output.rs:26-45 | a page is clamped, bounded, and counts what was lost |
| OutputStreams.Stream.PageIsHistory | crates/heycode-agent/src/execution_output.rs:26-45 | a page is the stretch of the history between its offsets, shifted by what the counter no longer counts |
| OutputStreams.Stream.TailReachesEnd | crates/heycode-agent/src/execution_output.rs:242-245 | a tail reaches the newest byte exactly when its window fits a page |
| OutputStreams.Interleave | crates/heycode-agent/src/execution_output.rs:231-245 | each reader's cursor is what it lost plus what it received, whatever the others do, and a reader that was behind and asked gets further |
| OutputStreams.Drain | crates/heycode-agent/src/execution_output.rs:231-245 | repeated reads of a finished stream reach its end and terminate |
| OutputStreams.ExecutionOutput.Append | crates/heycode-agent/src/execution_output.rs:289-301 | output after the end is ignored |
| OutputStreams.Load | crates/heycode-agent/src/execution_output.rs:205-222 | a stored state is loaded exactly if it is within its bounds, and counts as interrupted unless it ended |
| Monitors.FeedInPages | crates/heycode-agent/src/execution_monitor.rs:207-246 | where a text is cut into pages does not show in its lines |
| Monitors.CutText | crates/heycode-agent/src/execution_monitor.rs:220-245 | the chunk loop keeps lines within 4096 bytes and agrees with the byte-by-byte specification on plain text |
| Monitors.FollowStream | crates/heycode-agent/src/execution_monitor.rs:207-246 | the lines of a lossless plain stream are those of its whole history, for every page split |
| Monitors.Watch.Line | crates/heycode-agent/src/execution_monitor.rs:267-311 | a line is filtered, dropped if seen lately and remembered otherwise, and queued exactly if it fits the batch bounds |
| Monitors.WantedIs | crates/heycode-agent/src/execution_monitor.rs:267-287 | a line with a marker is wanted whatever the filters say; any other exactly if the asked text occurs in it and the excluded one does not |
| Monitors.ConfigBounds | crates/heycode-agent/src/execution_monitor.rs:63-92 | the default watch is valid and every bound is met at both ends |
| Monitors.SeenIs | crates/heycode-agent/src/execution_monitor.rs:288-303 | a line is dropped exactly if the same line was remembered less than the window ago |
| Monitors.OneTick | crates/heycode-agent/src/execution_monitor.rs:127-156 | what waits is delivered, all of it, exactly if there is budget, the minimum interval has passed, the wake is reserved and submitted, and the drained source has ended, a marker was seen, or the debounce has passed; each reason to stop is given exactly |
| Monitors.RunMonitor | crates/heycode-agent/src/execution_monitor.rs:127-156 | deliveries stay within the event budget, the minimum distance and the batch bounds; a watch that stops at a marker or at the end of its source leaves nothing waiting; every line of every stream is judged once, and every wanted one is delivered in order, still pending, or counted as suppressed |
| DeferredTools.UnionIsDistinct | crates/heycode-agent/src/deferred_tools.rs:353-411 | an accepted catalog names every tool and route exactly once |
| DeferredTools.NewCatalog | crates/heycode-agent/src/deferred_tools.rs:353-411 | the catalog is accepted exactly on its stated conditions and equals the union with overridden kinds |
| DeferredTools.Sort | crates/heycode-agent/src/deferred_tools.rs:274-285 | the ranking is sorted and a permutation |
| DeferredTools.Best | crates/heycode-agent/src/deferred_tools.rs:274-296 | the chosen rows are the k best by score and then position, in catalog order |
| DeferredTools.WordsAre | crates/heycode-agent/src/deferred_tools.rs:298-304 | the words of a text are exactly its maximal runs of letters and digits |
| DeferredTools.QueryTerms | crates/heycode-agent/src/deferred_tools.rs:298-304 | the query terms are the lowered words, each once |
| DeferredTools.ScoreCounts | crates/heycode-agent/src/deferred_tools.rs:306-331 | a score is 1000, 100, 10 and 1 times the number of terms that are the name, lie in it, are a word of the description, or lie in that, saturating |
| DeferredTools.Select | crates/heycode-agent/src/deferred_tools.rs:260-296 | a selection succeeds unless cancelled, with min(k, n) distinct names |
| DeferredTools.NewSelection | crates/heycode-agent/src/deferred_tools.rs:172-192 | a selection is valid exactly if bounded, safe and without repetition |
| DeferredTools.SelectAndApply | crates/heycode-agent/src/deferred_tools.rs:427-475 | applying a selection never fails, keeps exactly the best k names of the catalog, a schema and its route together, and is the identity on small catalogs |
| DeferredTools.KeepSpecsExactly | crates/heycode-agent/src/deferred_tools.rs:438-444 | exactly the selected schemas are kept |
| GoalProjection.OneChangePerRevision | crates/heycode-session/src/orchestration.rs:663-812 | each revision of a goal below the 64-bit maximum is produced by at most one change |
| GoalProjection.AcceptedChange | crates/heycode-session/src/orchestration.rs:741-812 | a change of the current goal is accepted exactly if it makes a listed move between phases to the next revision, keeps what it may not touch, and no counter or time goes back |
| GoalProjection.AcceptedCreation | crates/heycode-session/src/orchestration.rs:663-695 | a goal is created exactly over none or a finished one, under an unused id, as an active first revision without rounds |
| GoalProjection.AcceptedClear | crates/heycode-session/src/orchestration.rs:711-733 | the current goal is cleared exactly by its next revision and not before its last change |
| GoalProjection.GoalLife | crates/heycode-session/src/orchestration.rs:663-812 | over any stretch of a log a goal keeps its creation time and its completion, its revision, rounds and times never go back, and only an edit changes its definition |
| GoalProjection.RoundsWithinLimit | crates/heycode-session/src/orchestration.rs:639-661 | no goal has more rounds than its limit unless an edit lowered the limit below them |
| GoalProjection.ClaimReady | crates/heycode-session/src/orchestration.rs:581-661 | a claimed round starts exactly if it is the next one of the current revision, and ruins the replay otherwise |
| GoalProjection.LeavesReady | crates/heycode-session/src/orchestration.rs:581-637 | appends by others leave the goal and what waits for it |
| GoalProjection.StaleRoundRuins | crates/heycode-session/src/orchestration.rs:639-661 | a claimed round of an outdated revision makes the history unreadable |
| Goals.GoalService.BeginDrive | crates/heycode-agent/src/goal.rs:534-575 | a round is taken up exactly when the armed goal, its limits, its wake budget and the idle inbox allow it; an activation of another revision or without wakes left ends |
| Goals.GoalService.SubmitRound | crates/heycode-agent/src/goal.rs:577-591 | the round after the one that was read is submitted whatever happened since, and is out of date exactly if the goal has moved |
| Goals.GoalService.EndDrive | crates/heycode-agent/src/goal.rs:592-605 | a submitted round costs one wake, a refused one disarms |
| Goals.GoalService.AppendChange | crates/heycode-agent/src/goal.rs:461-486 | a change commits exactly if the log replays with it and the store accepts, and makes a round that waits out of date |
| Goals.GoalService.OneClaim | crates/heycode-session/src/orchestration.rs:581-661 | a claimed round starts if it may, and makes the history unreadable otherwise |
| Goals.GoalService.CancelPendingRounds | crates/heycode-agent/src/goal.rs:488-514 | cancelling waiting rounds terminates against every other owner, and leaves none of the goal |
| Goals.StaleIfMoved | crates/heycode-agent/src/goal.rs:534-592 | a checked round may start exactly if revision and rounds of its goal are those that were read |
| Goals.ChangeMakesStale | crates/heycode-agent/src/goal.rs:461-486 | every change leaves the rounds that still wait out of date |
| Goals.RoundAfterPause | crates/heycode-agent/src/goal.rs:534-605 | a concrete run: paused between check and submission, the goal history ends unreadable |
| Goals.RoundAfterClaim | crates/heycode-agent/src/goal.rs:534-569 | a concrete run without any change: a round claimed between two sections of the check is submitted again, and the history ends unreadable |
| Goals.GoalService.Update | crates/heycode-agent/src/goal.rs:394-440 | a mutation succeeds only on the revision and rounds it read, raises the revision by one, and lets no round wait that was not already checked |
| Goals.GoalService.Create | crates/heycode-agent/src/goal.rs:218-249 | a goal is created at revision one, only if none is unfinished |
| Goals.GoalService.Edit | crates/heycode-agent/src/goal.rs:255-288 | an edit keeps the phase; unhindered, it succeeds exactly if the limit it leaves is at least the started rounds and at most a million |
| Goals.GoalService.Move | crates/heycode-agent/src/goal.rs:290-342 | each transition leaves the phase it names and disarms unless it resumes; unhindered, it succeeds exactly from the phases and limits that allow it |
| Goals.GoalService.ClearGoal | crates/heycode-agent/src/goal.rs:344-361 | clearing is a compare-and-swap that leaves no goal and no activation, and succeeds unhindered |
| Goals.GoalService.OnAgentIdle | crates/heycode-agent/src/goal.rs:607-624 | an aborted turn disarms the goal, as does a round that cannot be checked; otherwise a wanted round is taken up exactly over an empty inbox |
| Goals.GoalService.Run | crates/heycode-agent/src/goal.rs:218-624 | over every run each revision is produced once and the wake budget holds; the history stays readable and nothing out of date waits unless a submission or a commit crossed the other |
| Approvals.DenyDenies | crates/heycode-agent/src/approval.rs:112-128 | a denying policy anywhere in a chain denies |
| Approvals.AskAsks | crates/heycode-agent/src/approval.rs:471-489 | an always-asking policy anywhere allows only what was permitted in the same decision |
| Approvals.EditsNeedGrant | crates/heycode-agent/src/approval.rs:537-573 | through accepted edits a call that is no file operation needs an answer now or an earlier grant of the same tool and input |
| Approvals.GrantsGrow | crates/heycode-agent/src/approval.rs:555-572 | a decision remembers at most its own call, only when granted for good |
| Approvals.ChildIsCeiling | crates/heycode-agent/src/approval.rs:576-600 | a child never grants what its parent denies |
| Approvals.UnpromptedChild | crates/heycode-agent/src/approval.rs:112-128 | the unprompted child denies exactly unless its parent asks and allows |
| Approvals.OnlyFileOperations | crates/heycode-agent/src/approval.rs:537-573 | without grant and permission accepted edits allow exactly the listed file operations |
| Approvals.RefusedThroughout | crates/heycode-agent/src/approval.rs:471-573 | a user who permits nothing stops every chain with an always-asking policy and leaves no grant |
| Approvals.NothingToAsk | crates/heycode-agent/src/approval.rs:112-128 | without a question a chain shows no prompt, changes nothing, and allows exactly if no policy denies and every custom one agrees |
| Approvals.PermittedThroughout | crates/heycode-agent/src/approval.rs:471-573 | a user who permits everything is enough unless a policy denies on its own |
| Approvals.GrantLasts | crates/heycode-agent/src/approval.rs:537-573 | a call granted for good at every prompt is allowed without a prompt from then on |
| Approvals.Conversation.Rule | crates/heycode-agent/src/approval.rs:384-393 | over a conversation every permission is traced to a prompt or to a remembered grant |
| Foreground.ForegroundJob.Promote | crates/heycode-agent/src/execution_jobs.rs:599-634 | promotion succeeds exactly if already promoted, or the job has not settled and the store accepts it |
| Foreground.ForegroundJob.Settle | crates/heycode-agent/src/execution_foreground.rs:56-130 | the worker converts a promoted result itself and sends any other unconverted |
| Foreground.ForegroundJob.DropLease | crates/heycode-agent/src/execution_foreground.rs:15-22 | after its wait ended, a dropped lease cancels work that was neither promoted nor settled |
| Foreground.Run | crates/heycode-agent/src/execution_foreground.rs:24-162 | in every interleaving, with promotions before, during and after a cancellation, the rich payload is committed at most once, by the side that came first |
| CompactGrammar.CompactRoundTrip | crates/heycode-agent/src/commands.rs:660-752 | a written action with keep count and dashes before its focus is read back exactly |
| CompactGrammar.BareFocusAfterKeep | crates/heycode-agent/src/commands.rs:682-693 | without dashes a focus after a keep count survives exactly unless it starts with them |
| CompactGrammar.BareFocusAfterStrategy | crates/heycode-agent/src/commands.rs:682-693 | without keep count it survives exactly if its first word is neither an integer nor the dashes |
| CompactGrammar.BareFocusAlone | crates/heycode-agent/src/commands.rs:695-709 | a lone focus survives exactly if its first word is no command word |
| CompactGrammar.ParsePadded | crates/heycode-agent/src/commands.rs:660-667 | white space around the arguments never matters |
| CompactGrammar.WhiteIsBlank | crates/heycode-agent/src/commands.rs:664-664 | the white space of the grammar is the white space of encoded text |
| CompactGrammar.EmptyIsDefault | crates/heycode-agent/src/commands.rs:664-670 | blank arguments ask for the default strategy with two kept turns and no focus |
| CompactGrammar.OnlyListLists | crates/heycode-agent/src/commands.rs:672-678 | the word `list` and nothing else lists the strategies, and with anything after it is a usage error |
| CompactGrammar.LoneKeep | crates/heycode-agent/src/commands.rs:695-701 | a keep count by itself, after a strategy, or before a focus is taken exactly if it is positive and fits in 64 bits |
| CompactGrammar.SignedKeep | crates/heycode-agent/src/commands.rs:722-752 | a plus sign changes nothing, a minus sign refuses |
| CompactGrammar.IntegerWord | crates/heycode-agent/src/commands.rs:722-728 | a word counts as an integer exactly if it is digits after at most one sign |

## Left out

- Sessions.Session.Append: refusals other than of the inbox splice (text validation, size bounds, the file system) are one oracle that may refuse any append; the 32-bit width of queue positions is not modelled.
- InboxOperations.Run: a crash that cuts between the two events of one atomic claim is not part of the inbox law; recalling human messages is not modelled.
- ScheduleService.DurableScheduleService.Run: timers read their record and wake up between two operations of the service, not inside one; a timer inside its dispatch when the service closes counts as having fired before; the announcement itself is a list of message ids.
- ScheduleService.DurableScheduleService.Create: records arrive built; their construction and prompt validation, the first format version of schedule changes, and the matching of cron expressions (a calendar parameter) are not modelled.
- CopiedTargets.ChainStaysOnAnchor: only the target arithmetic of copying; minting the copies is a sequence of `Create`, and cron copies take the calendar's next target.
- Accumulators.AccumulatedTurn.CommitPending: audio output and its attachments are not modelled; whether the request projection accepts the held-back facts is a parameter.
- Turns.RunTurn: what a step meets is a script, so a run is a finite beginning; the overflow of the step counter, lifecycle hooks, the opening of a turn, and the wording of errors are not modelled. Interception seams appear as items that pass, fail or withdraw.
- Turns.RunAll: turn events that the loop does not write, those of delegated tool execution (`agent.rs:3592-3660`) and of native inspection (`agent/native_inspection.rs:86-113`), are not modelled.
- Compactions.Compact: the registry of strategies, the bounds of a focus, and events on the bus are not modelled.
- Summaries.PortableSummary: how a transcript is rendered into lines, cancellation, and the provider dispatch behind one summarizer call are parameters.
- OutputStreams.ExecutionOutput.Append: execution metadata and persistence of the output file are not modelled.
- Monitors.RunMonitor: decoding and sanitizing of page bytes is a parameter that leaves plain text as it is; the final settlement of the monitor's own job and the cancellation of its source are not modelled.
- DeferredTools.Select: safe names, lower case and the alphanumeric test are parameters; schema byte and node metrics are not modelled.
- Goals.GoalService.Run: the reply of a mutation is its commit; the round it may drive afterwards is a separate operation of the run. Objectives are not validated beyond the store's oracle. Active is implied by an armed reference only below the last 64-bit revision, where a revision still changes.
- Approvals.Conversation.Rule: plan mode, plan review and the classifier behind automatic approval are not modelled; a cancelled decision is a withdrawn prompt.
- Foreground.Run: the summary and inline cap of the settled output, several jobs at once, and the bounded table of retained outputs are not modelled.
- Provider streaming, HTTP, model catalogs, token counting, attachments, audio and document extraction: foreign services.
- Tool batches: they appear only as tool calls and results appended between two steps.
- Plugin composition, command registration, descriptors, help texts, previews and rendering: wiring and presentation.
- JSON encoding, hashing and random identifiers: identifiers are parameters, and a fresh one is one that the log does not know.
- Wakes of the agent and bus events: only the decision to wake is modelled, for submissions.

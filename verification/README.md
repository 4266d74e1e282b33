# A verified model of the session controller and the bridge's delivery core

Two programs share one promise: a WhatsApp message becomes one turn of work,
and a message sent on the way is never taken for somebody else's.  This project
models the code that keeps it and proves that it does.

**The session controller.**  `Scripts.dfy` states each atomic store operation
as a function from the nine keys of one script call to new keys and a reply;
`Keyspace.dfy` carries the same operations out in place, field by field, and is
proved equal to them.  `Controller.dfy` lets any number of controllers, workers,
intake attempts, repairs and crashes interleave over one store, one atomic
effect at a time, each with an arbitrary clock reading, and keeps a history of
what was accepted, prompted, completed and sent.  `Runs.dfy` proves the global
invariant for every step and draws the whole-run claims from it; `Fencing.dfy`,
`Uncertainty.dfy`, `Checkpoints.dfy`, `Repair.dfy` and `Ownership.dfy` each prove
one family of claims over the same runs.  `Decimal.dfy` shows that the decimal
strings behind every counter are the naturals the rest of the model uses.

**The evidence readers.**  `SessionFile.dfy` and `Evidence.dfy` cover the chunked
reader of session files and what an accepted file looks like, `Index.dfy` the
completion index over files that others keep appending to, `Orphan.dfy` the
orphan proof and its opposite, reconciliation, `History.dfy` the validator of
confirmed outcomes and `Compaction.dfy` what the next worker makes of a
compaction that crashed anywhere.

**The bridge.**  `Outbox.dfy` states the transactions of the notification
outbox, `Database.dfy` carries them out statement by statement with rollback,
`Picking.dfy` chooses the rows its ordered, limited queries choose, and
`OutboxRuns.dfy`, `OutboxRows.dfy` and `OutboxEchoes.dfy` prove what every run of
them keeps.  `Delivery.dfy` is the dispatcher, `WriterQueue.dfy` the single
writer underneath, `Ogg.dfy` the voice-note analyser.

Identifiers are integers, since the programs only compare them.  Fingerprints
are taken to be injective and generated ids to be fresh.  Nothing relates two
readings of a clock, except where the dispatcher waits on its monotonic one.

## What turned out differently

* `bridge/store/messages.go:131-133` promises at most one notification per
  eligible live event.  Once a delivered row is pruned, the event notifies again
  when it comes again: `OutboxRows.PrunedRowsNotifyAgain` is such a run,
  `OutboxRuns.SaveNotifiesExactly` says exactly when a save notifies, and
  `OutboxRuns.NotifiedExactly` how often a message is notified in a whole run;
  `OutboxRows.SecondNoticeNeedsPruning` finds the pruning that lies between.
* `docs/hermes-notifications.md:40` promises the configured interval as the
  global spacing between attempts.  A receiver that limits the rate without
  saying for how long is asked again after the retry delay, even when the
  interval is longer: `Delivery.LimitedRequestIsFollowedSooner` is such a run,
  and by `Delivery.IntervalIsKeptExactly` for one request and
  `Delivery.RunsKeepIntervalExactly` for whole runs the promise holds exactly for
  intervals of at most four seconds.
* A maximum age below one microsecond passes the validation but not the table's
  expiry constraint, so the whole save is undone: `OutboxRuns.TinyAgeIsUndone`,
  and exactly then by `OutboxRuns.InsertableExactly`.
* A duration of 2^32 seconds or more is truncated: `Ogg.LongAudioReadsShort`, and
  exactly then by `Ogg.DurationIsExact`.
* `claim` takes an unexpired chat lease away from another application tuple, as
  intended after an application takeover; `Fencing.ClaimGrantedExactly` has the
  exact condition, and the safety claims do not depend on it.

## Model

| member | source | states |
|---|---|---|
| Decimal.Inc | session-controller/src/redis/scripts.ts:14-19 | the carry loop, over a string of digits of any length, yields `Successor`, the string that SuccessorAddsOne speaks of |
| Decimal.SuccessorAddsOne | session-controller/src/redis/scripts.ts:14-19 | the value of the incremented string is the value plus one, and a canonical string stays canonical |
| Decimal.LessIsNumericOrder | session-controller/src/redis/scripts.ts:20 | on canonical strings, shorter-or-bytewise-smaller is exactly smaller in value |
| Decimal.RenderInvertsValue | session-controller/src/redis/scripts.ts:14-20 | each canonical string is the decimal rendering of its value, so the strings and the naturals are in bijection; the 32-digit limit on epochs is the limit 10^32 on values |
| Decimal.RenderIsCanonical | session-controller/src/redis/scripts.ts:14-20 | every natural has a canonical decimal string with that value |
| Keyspace.Keys.constructor | session-controller/src/redis/scripts.ts:84-89 | an initialised chat starts at cursor 0 with nothing stored |
| Keyspace.Keys.Accept | session-controller/src/redis/scripts.ts:92-111 | intake admits, refuses or asks for a retry, and changes stream, events, sequences and identities together or not at all; equals the specification function |
| Keyspace.Keys.AppAcquire | session-controller/src/redis/scripts.ts:112-115 | an unexpired application lease is never taken over; otherwise the epoch moves on by one, up to 32 digits; equals the specification function |
| Keyspace.Keys.AppRenew | session-controller/src/redis/scripts.ts:116-118 | only the current holder, unexpired, extends the application lease, and nothing else about it changes; equals the specification function |
| Keyspace.Keys.AppRelease | session-controller/src/redis/scripts.ts:119-121 | only the current holder gives the application lease up, keeping the epoch; equals the specification function |
| Keyspace.Keys.DoubtJournal | session-controller/src/redis/scripts.ts:129-140 | every attempt that is not confirmed becomes uncertain and every confirmed one is kept; it tells exactly whether there was one |
| Keyspace.Keys.Claim | session-controller/src/redis/scripts.ts:122-155 | a claim grants the next event under a fresh epoch, or leaves lease and queue as they are; equals the specification function |
| Keyspace.Keys.ClaimEvent | session-controller/src/redis/scripts.ts:149-155 | the grant takes over the stream entry and starts a fresh lease epoch, or is lost when the entry is gone; equals the specification function |
| Keyspace.Keys.RepairIntent | session-controller/src/redis/scripts.ts:168-178 | a repair is leased for a prepared legacy record only; equals the specification function |
| Keyspace.Keys.RepairClaim | session-controller/src/redis/scripts.ts:179-191 | a repair is leased for exactly the event the failed compaction was preparing for, with the operator's intent recorded; equals the specification function |
| Keyspace.Keys.RepairReleaseFence | session-controller/src/redis/scripts.ts:192-196 | a repair lease is dropped by its exact fence alone; equals the specification function |
| Keyspace.Keys.RepairRelease | session-controller/src/redis/scripts.ts:197-202 | a repair is given up without touching the record or the pause; equals the specification function |
| Keyspace.Keys.BeginTurn | session-controller/src/redis/scripts.ts:209-212 | the turn mark is set once and never replaced; equals the specification function |
| Keyspace.Keys.Renew | session-controller/src/redis/scripts.ts:215-217 | a chat lease is extended by its holder only; equals the specification function |
| Keyspace.Keys.Pause | session-controller/src/redis/scripts.ts:218-220 | a pause is set by the holder of the work only; equals the specification function |
| Keyspace.Keys.Bind | session-controller/src/redis/scripts.ts:221-224 | a chat's session mapping never changes once set; equals the specification function |
| Keyspace.Keys.JournalAccounted | session-controller/src/redis/scripts.ts:229-234 | the loop over the journal answers exactly whether every record is a confirmed send of this event that the caller lists |
| Keyspace.Keys.Complete | session-controller/src/redis/scripts.ts:225-240 | a completion moves the cursor and both revisions and removes the event everywhere, or changes nothing; equals the specification function |
| Keyspace.Keys.JournalBegin | session-controller/src/redis/scripts.ts:245-255 | an attempt is journaled under a turn mark, once per attempt id and once per tool call; equals the specification function |
| Keyspace.Keys.JournalTransition | session-controller/src/redis/scripts.ts:256-263 | an attempting record is confirmed, or becomes uncertain and pauses the chat; equals the specification function |
| Keyspace.Keys.CheckpointPrepare | session-controller/src/redis/scripts.ts:265-280 | a prepared record replaces none, itself, or a settled one; equals the specification function |
| Keyspace.Keys.CheckpointTransition | session-controller/src/redis/scripts.ts:281-287 | a record is swapped only against the exact one the caller read, along the legal phases; equals the specification function |
| Keyspace.Keys.CheckpointAbort | session-controller/src/redis/scripts.ts:288-301 | a prepared record is aborted on exact evidence only, and then the pause and the lease are cleared; equals the specification function |
| Keyspace.Keys.TryClaim | session-controller/src/redis/scripts.ts:122-155 | the claim's statements in order equal the specification function |
| Keyspace.ClaimHasEffect | session-controller/src/redis/scripts.ts:122-155 | a claim moves no cursor, turn, event or sequence, and either leases the next event under the next epoch to a live application of an unpaused chat without doubtful attempts, or leaves the lease alone |
| ChatInvariant.AcceptKeepsCoherence | session-controller/src/redis/scripts.ts:92-111 | an accepted event keeps events and sequences inverse, stream entries equal to pending events and all sequences above the cursor |
| ChatInvariant.CompleteKeepsCoherence | session-controller/src/redis/scripts.ts:225-240 | a completion keeps the chat coherent; the completed event was the next one |
| ChatInvariant.RecoverPendingIsQuiet | session-controller/src/redis/scripts.ts:156-167 | in a coherent chat no pending entry is ever found deleted, so recovery never raises a sequence gap |
| ChatInvariant.EvidenceIsNext | session-controller/src/redis/scripts.ts:49-78 | repair evidence always names the event at cursor+1, still pending in the stream |
| ChatInvariant.OtherCallsAreQuiet | session-controller/src/redis/scripts.ts:112-303 | no operation but intake and completion changes cursor, events, sequences, stream entries or identities, unsets a turn mark or a session, or loses a journal record; the chat stays coherent |
| Controller.AcceptedIdIsNew | session-controller/src/redis/repository.ts:163-191 | if the revisions read before the lookups still stand at commit, an accepted id is neither pending in any chat nor completed in any |
| Controller.AdmitKeepsInv | session-controller/src/redis/repository.ts:163-191 | an acceptance keeps the global invariant: store, history, markers, attempts and workers |
| Controller.QuietKeepsInv | session-controller/src/redis/scripts.ts:112-303 | every other script call keeps it, whoever makes it |
| Controller.FinishKeepsInv | session-controller/src/redis/repository.ts:226-234 | a completion keeps it, for all chats, attempts in flight and other workers |
| Runs.StepKeepsInv | session-controller/src/scheduler/chat-worker.ts:54-152 | every step of any client, in any order, with crashes, lost leases, takeovers and redeliveries, keeps the global invariant |
| Runs.StartKeepsInv | session-controller/src/redis/repository.ts:145-147 | the initialised store satisfies it |
| Runs.RunKeepsInv | session-controller/src/scheduler/chat-worker.ts:54-152 | it holds in every reachable state |
| Runs.PromptedAtMostOnce | session-controller/src/scheduler/chat-worker.ts:83-124 | in every run each event id is prompted at most once |
| Runs.AcceptedAtMostOnce | session-controller/src/redis/repository.ts:163-191 | in every run each event id is answered `accepted` at most once over all chats, sequences and interleavings |
| Runs.ReachableStore | session-controller/src/redis/scripts.ts:92-155 | in every reachable state each chat's tables agree, identities are exactly the pending ids, and accepted ids are exactly the pending and the completed ones, disjointly |
| Runs.CompletionsAreGapless | session-controller/src/redis/repository.ts:226-234 | in every run each chat completes 1, 2, ... up to its cursor, each with a durable marker of that event and sequence, and no marker is above cursor+1 |
| Runs.MarkerIsNotAhead | session-controller/src/redis/repository.ts:226-234 | a durable marker describes a completed event or the very next one |
| Runs.RedeliveryOfPending | session-controller/src/redis/scripts.ts:95-105 | a pending id delivered again is a duplicate exactly when nothing about it changed, and a conflict otherwise, whichever chat it names |
| Runs.BegunIsNew | session-controller/src/redis/scripts.ts:209-212 | begin-turn succeeds only for an event whose turn never began, in this or any earlier lease |
| Runs.ClaimGrantsNext | session-controller/src/redis/scripts.ts:122-155 | a granted claim hands out the event at cursor+1 with its own fingerprint |
| Runs.LookedUpAttempt | session-controller/src/redis/repository.ts:174-182 | a lookup that finds nothing proves the id was not completed in that chat before the mappings were read, unless the global revision has moved on |
| Runs.StepMakesCall | session-controller/src/redis/repository.ts:138-143 | each step changes the store by exactly one script call or not at all, so facts about calls hold of runs |
| Fencing.StaleIsLost | session-controller/src/redis/scripts.ts:22-34 | a call that carries an older application or chat epoch than the stored one answers `lost` and changes nothing, at any clock reading |
| Fencing.CallsAdvanceEpochs | session-controller/src/redis/scripts.ts:112-191 | no call lowers an epoch, and every grant exceeds all earlier ones |
| Fencing.RunIsNewer | session-controller/src/redis/scripts.ts:112-191 | epochs never go back in any run |
| Fencing.FencedForever | session-controller/src/redis/scripts.ts:22-34 | once a newer epoch was granted, an older tuple is lost in every later state of every run |
| Fencing.ClaimGrantedExactly | session-controller/src/redis/scripts.ts:122-155 | when a claim is granted, exactly, in any coherent chat: in particular an unexpired chat lease is preempted just when it belongs to another application tuple |
| Uncertainty.ClaimDoubts | session-controller/src/redis/scripts.ts:128-141 | a claim that meets an unconfirmed attempt makes it uncertain, pauses and grants nothing |
| Uncertainty.DoubtBlocks | session-controller/src/redis/scripts.ts:128-141 | with an uncertain attempt no claim is granted, no completion and no repair succeeds |
| Uncertainty.DoubtBlocksAbort | session-controller/src/redis/scripts.ts:57 | nor does an abort |
| Uncertainty.DoubtIsForever | session-controller/src/redis/scripts.ts:225-263 | in any run, once an attempt is uncertain its record, the chat's cursor and its turn mark never change again |
| Uncertainty.CompletionAccountsForEverySend | session-controller/src/redis/scripts.ts:229-239 | a completion deletes only journal records that are confirmed sends of this event and listed by the caller |
| Checkpoints.WorkCallsAreLegal | session-controller/src/redis/scripts.ts:265-301 | one call moves a record prepared, compacted, restored or prepared, aborted, changes nothing else in it, and replaces it only when settled |
| Checkpoints.StepIsLegal | session-controller/src/redis/repository.ts:297-318 | so does every step of every client |
| Checkpoints.UnsettledUntilSettled | session-controller/src/redis/scripts.ts:274-287 | in every run a record is still there, further along and with its compaction entry fixed, or it was settled before another took its place |
| Repair.AbortSucceedsExactly | session-controller/src/redis/scripts.ts:288-301 | when an abort succeeds, stated on the stored keys |
| Repair.AbortKeepsTheQueue | session-controller/src/redis/scripts.ts:288-301 | a successful abort keeps cursor, session, events, sequences, stream and deliveries, and clears only a `compaction_failed` pause |
| Repair.ClaimAfterAbort | session-controller/src/redis/scripts.ts:122-155 | after it the next claim by a live application, with an epoch to spare, is granted the same event under the same stream id |
| Repair.ReleaseKeepsThePause | session-controller/src/redis/scripts.ts:197-202 | a release keeps the prepared record and the pause, so no claim is granted |
| Ownership.NeverManualForOwnSend | session-controller/src/pi/tool-journal-extension.ts:336-345 | a send journaled before the first read is never classified `manual`, however journal, marker and deletion interleave with the reads |
| Ownership.StepCarries | session-controller/src/redis/scripts.ts:228-240 | every step keeps a watched send findable: in the journal, or archived with a durable marker that lists it |
| Ownership.FinishArchives | session-controller/src/redis/repository.ts:226-234 | a completion that deletes a journal record leaves a durable marker that lists its send |
| Ownership.ReaderKeepsQuery | session-controller/src/redis/repository.ts:273-296 | every read of the classifier keeps what it knows about the watched send |
| Ownership.MovesKeepQuery | session-controller/src/pi/tool-journal-extension.ts:336-345 | so does every joint run of the system and the classifier |
| SessionFile.SplitIsExact | session-controller/src/pi/completion-index.ts:150-154 | splitting at newlines is the one way to write a text as newline-free lines, each ended by a newline, and a remainder |
| SessionFile.SplitExtends | session-controller/src/pi/completion-index.ts:145-154 | reading on after a remainder only extends the lines, wherever the cut falls |
| Evidence.Drain | session-controller/src/pi/completion-index.ts:152-154 | the inner loop consumes every complete line of what is pending, once and in order |
| Evidence.ReadOnce | session-controller/src/pi/completion-index.ts:139-158 | for every way the reads are cut the result is what the whole text proves, and a read that returns nothing too early refuses the file |
| Evidence.ReadEvidence | session-controller/src/pi/completion-index.ts:80-184 | the first look at a file that decides is the answer: a file that moved is looked at again, up to eight times, an empty or unproved one is refused, and one that cannot be synced is taken out of use |
| Evidence.FoldIsExact | session-controller/src/pi/completion-index.ts:87-138 | lines are accepted exactly when each fits what precedes it: header first, fresh id, known parent and targets, one binding, completions after it with fresh event and sequence |
| Evidence.ProvedExactly | session-controller/src/pi/completion-index.ts:145-157 | a file proves something exactly when it ends with a newline, is well formed and is bound, and then it proves its completion entries in order |
| Evidence.ParentChainsEnd | session-controller/src/pi/completion-index.ts:95-97 | in an accepted file every parent chain goes strictly back and ends at an entry without a parent |
| Evidence.EntriesAreUnique | session-controller/src/pi/completion-index.ts:95-137 | ids, completed events, completed sequences and the binding are unique, and completions come after the binding |
| Index.CompletionIndex.Invalidate | session-controller/src/pi/completion-index.ts:200-202 | a file in doubt is out of use and no longer reserved or cached, and no other file is touched |
| Index.CompletionIndex.Reserve | session-controller/src/pi/completion-index.ts:254-257 | a file is reserved once, and never when out of use, and what was cached of it is dropped |
| Index.CompletionIndex.Publish | session-controller/src/pi/completion-index.ts:258-258 | only a reserved file in use is published |
| Index.CompletionIndex.Evidence | session-controller/src/pi/completion-index.ts:203-224 | what is returned, cached or not, is what the file proved at some moment during the call; there is nothing, and the file is out of use for good, exactly when a look at it failed or it was out of use, missing, or proving nothing at its moment |
| Index.CompletionIndex.Rebuild | session-controller/src/pi/completion-index.ts:241-250 | all proofs of all files in order, each file at a moment during the call; or nothing, exactly when a look failed, a file was useless or reserved, or an event was completed twice |
| Index.CompletionIndex.FindEvent | session-controller/src/pi/completion-index.ts:259-265 | `not found` means that no mapped file proved the event at its moment during the call; the lookup fails exactly when a look failed, a file was useless or reserved, or an event was completed twice |
| Index.Append | session-controller/src/pi/completion-index.ts:245-247 | a file's proofs are added exactly when no event is then completed twice |
| Orphan.Inspect | session-controller/src/compaction/orphan-recovery.ts:127-197 | an entry neither throws nor is unsafe exactly when it is no trace of the prepared compaction |
| Orphan.ProveNoTrace | session-controller/src/compaction/orphan-recovery.ts:111-216 | the scan succeeds exactly on a well-placed file, bound once, with nothing at or after the preparation, no claim of its id, and no completion or mutation of its event |
| Orphan.ProvePreparedCompactionOrphan | session-controller/src/compaction/orphan-recovery.ts:98-235 | the proof succeeds exactly then, for the recorded file generation, or an older one for records that have none |
| Orphan.ReconcilesExactly | session-controller/src/pi/session-host.ts:185-215 | reconciliation succeeds exactly when one branch entry claims the record and is, in every part, the record's own |
| Orphan.NeverBoth | session-controller/src/compaction/orphan-recovery.ts:94-97 | a compaction proved an orphan is never one that reconciliation would restore, and conversely |
| History.Collect | session-controller/src/compaction/checkpoint.ts:85-94 | outcomes are collected exactly when no attempt has two and there are at most 256 |
| History.MergeOutcomes | session-controller/src/compaction/compactor.ts:45-55 | the merge succeeds exactly for a conflict-free union of at most 256 attempts and then holds exactly both sources |
| History.AddAttempts | session-controller/src/compaction/checkpoint.ts:119-125 | on a completion each attempt of its event is confirmed and listed, or the history is refused |
| History.MatchSends | session-controller/src/compaction/checkpoint.ts:126-130 | every send of the marker matches exactly one attempt, or the history is refused |
| History.Consider | session-controller/src/compaction/checkpoint.ts:95-134 | one entry is accepted exactly when it may follow the entries before it and its outcomes fit |
| History.ConfirmedHistory | session-controller/src/compaction/checkpoint.ts:77-138 | the validator succeeds exactly on a sound history, and then returns the prior checkpoint's outcomes and those of the branch's attempts, one per attempt |
| History.AttemptsRunInOrder | session-controller/src/compaction/checkpoint.ts:102-136 | in an accepted branch each attempt has exactly two journal entries, begun then confirmed with nothing else changed, and a later completion that lists its send |
| History.SendsAreAttempts | session-controller/src/compaction/checkpoint.ts:115-131 | each completion's sends and its event's attempts, over the whole branch, are in bijection |
| History.CompletedOnce | session-controller/src/compaction/checkpoint.ts:105-118 | an event is completed once, after all its journal records |
| History.Frozen | session-controller/src/compaction/checkpoint.ts:102-114 | an attempt's record never changes once its event is completed |
| History.SoundGoesOn | session-controller/src/compaction/checkpoint.ts:95-134 | on a sound history no entry is refused half way |
| Compaction.Transition | session-controller/src/redis/repository.ts:307-318 | undisturbed, a transition succeeds exactly from the phase before, with the same id |
| Compaction.Settle | session-controller/src/compaction/compactor.ts:60-101 | whatever others do to the store meanwhile, it goes on only over nothing, an aborted record, or the record it read, restored from its one own entry; undisturbed it succeeds exactly when there is such an entry and changes nothing otherwise |
| Compaction.Forward | session-controller/src/compaction/compactor.ts:76-94 | from prepared, compacted or restored, undisturbed, the record ends up restored with the reconciled entry |
| Compaction.CompactUntil | session-controller/src/compaction/checkpoint-extension.ts:110-147 | a compaction that crashes after any number of its durable effects leaves a record that reconciles exactly if its entry was appended |
| OutboxRuns.StepKeepsOk | bridge/store/notifications.go:47-107 | every transaction keeps gapless sequences, one row per message, every row with its message, and lease and terminal fields in step with the state |
| OutboxRuns.EveryRun | bridge/store/messages.go:153-259 | in every run the sequences ever inserted for a chat are exactly 1 to its counter, no message has two rows and each row has its message |
| OutboxRuns.SequencesAreExact | bridge/store/notifications.go:47-51 | gapless insertions mean: inserted sequences are exactly 1 to the number of insertions |
| OutboxRuns.SequencesAreFresh | bridge/store/notifications.go:47-51 | and none is inserted twice |
| OutboxRuns.NotifiedExactly | bridge/store/messages.go:131-133 | in every run a message is notified exactly as often as its row was taken away, and once more if it has one now |
| OutboxRuns.InsertsWhenNew | bridge/store/messages.go:210-229 | a step inserts a row for a message exactly when it had none and has one afterwards |
| OutboxRuns.TinyAgeIsUndone | bridge/store/notifications.go:109-114 | a valid request with an age of 999 ns: the save is undone |
| OutboxRuns.InsertableExactly | bridge/store/notifications.go:53-57 | in a reachable state the table constraints stop an insertion exactly for a reused id, a second row for the message, or an age below the clock's resolution |
| OutboxRuns.SaveNotifiesExactly | bridge/store/messages.go:131-259 | a save notifies exactly for a live message that is not the bridge's own and has no row now, under the next sequence; when it fails, and that it then changes nothing |
| OutboxRows.RowMoves | bridge/store/notifications.go:59-107 | a step that changes a row uses up some of what it has left, keeps attempts within the claims' limit, and never touches a finished row |
| OutboxRows.RowsComeToRest | bridge/store/notifications.go:59-100 | no run changes a row more often than three times per attempt left, and never once it is accepted, ignored or dead |
| OutboxRows.RemovedExactly | bridge/store/notifications.go:102-107 | a message loses its row exactly by a maintenance that picks the row when it has been done for the whole retention |
| OutboxRows.SecondNoticeNeedsPruning | bridge/store/messages.go:131-133 | in every run in which a message is notified twice, some maintenance on the way pruned its finished row |
| OutboxRows.OnlyDoneRowsGo | bridge/store/notifications.go:102-107 | only maintenance removes rows, and only finished ones past the retention |
| OutboxRows.StaleFinishes | bridge/store/notifications.go:76-80 | once a lease token is lost, or its lease has run out by the finish's clock, a finish that carries it changes nothing, now and in any later state |
| OutboxRows.PrunedRowsNotifyAgain | bridge/store/messages.go:131-133 | the documented `at most one` fails: a live event that comes again after its delivered row was pruned, at the default retention, notifies a second time |
| OutboxEchoes.RegisteringGuards | bridge/store/outbound_origins.go:53-84 | a marker registered before its message arrives guards it |
| OutboxEchoes.NoEchoNotifies | bridge/store/messages.go:187-212 | a guarded own message never notifies, over any run of live saves, history saves, duplicates, deliveries and sweeps that do not find its marker aged out |
| OutboxEchoes.PruningNeverShows | bridge/store/outbound_origins.go:36-47 | deleting observed markers never changes what any later save answers or leaves in messages, rows and sequences |
| OutboxEchoes.RunSame | bridge/store/outbound_origins.go:13-17 | two stores that differ only in markers of classified messages stay so over any run that reuses no id of such a message |
| Database.Store.SaveMessage | bridge/store/messages.go:137-259 | the transaction, statement by statement and undone on failure; no classification is ever cleared, and a row comes only to a message that is not the bridge's own and has none; equals the specification function |
| Database.Store.ConsumeOutboundOrigin | bridge/store/outbound_origins.go:92-104 | a matching marker is observed, keeping the first observation; a marker from the future fails |
| Database.Store.InsertNotification | bridge/store/messages.go:230-252 | allocation and insertion happen together or not at all; equals the specification function |
| Database.Store.RegisterOutboundOrigins | bridge/store/outbound_origins.go:53-84 | all distinct identities are registered, or none; equals the specification function |
| Database.Store.InsertOrigins | bridge/store/outbound_origins.go:69-76 | the insertion loop stops at an identity already stored and leaves nothing behind |
| Database.Store.ClaimNotification | bridge/store/notifications.go:172-211 | the first row in due order that is due, unexpired, within its attempts, allowed and not locked is leased, and nothing exactly when there is none; equals the specification function |
| Database.Store.FinishNotification | bridge/store/notifications.go:224-242 | only the current, unexpired lease settles its row, and no other row is touched; equals the specification function |
| Database.Store.RetireRows | bridge/store/notifications.go:84-100 | the first due rows in order of receipt, up to the limit: expired leases return, hopeless rows die, and nothing else changes |
| Database.Store.PruneRows | bridge/store/notifications.go:102-107 | the first finished rows past the cutoff go, up to the limit, and the others stay as they are |
| Database.Store.PruneObservedOrigins | bridge/store/outbound_origins.go:36-47 | observed markers go, oldest first and up to the limit, only when their message records its origin |
| Database.Store.PruneUnobservedOrigins | bridge/store/outbound_origins.go:28-34 | unobserved markers go, oldest first and up to the limit, only when they have aged out |
| Database.Store.MaintainNotifications | bridge/store/notifications.go:248-272 | the four bounded statements in order, each on the first few of its candidates; equals the specification function |
| Picking.Pick | bridge/store/notifications.go:62-67 | what an ordered, limited query picks: nothing left out comes before anything picked, and something is left out only at the limit |
| Delivery.RetryDelayBounds | bridge/notify/worker.go:195-217 | every retry delay lies between 4 seconds and 5 minutes and within a fifth of the undisturbed delay |
| Delivery.RetryDelayGrows | bridge/notify/worker.go:195-217 | a later attempt never waits less, given the same jitter |
| Delivery.PendingCanBeClaimed | bridge/notify/worker.go:160-175 | a row the worker leaves pending can be claimed again before it expires |
| Delivery.LimitedRequestIsFollowedSooner | bridge/notify/worker.go:159-168 | the documented global spacing fails: with an interval of a minute and an allowed group, a first attempt refused with 429 and no Retry-After may be followed by a request four seconds later |
| Delivery.IntervalIsKeptExactly | bridge/notify/worker.go:159-168 | the configured interval is kept for every answer, attempt and jitter exactly when it is at most four seconds |
| Delivery.HoldsTheInterval | bridge/notify/worker.go:159-168 | one request keeps it exactly when it is not rate limited or its back-off or Retry-After is as long; four seconds or the interval, whichever is less, always hold |
| Delivery.RunsKeepIntervalExactly | bridge/notify/worker.go:113-168 | all runs the holds allow are spaced by the configured interval exactly when it is at most four seconds |
| Delivery.Worker.Request | bridge/notify/worker.go:140-175 | a row is recorded accepted only if the receiver said so, pending only if attempts and time remain; there is an answer exactly when a request is on record, with its exact hold, and none only for a row not allowed or out of time |
| Delivery.Worker.Attempt | bridge/notify/worker.go:140-186 | and that is what is recorded, under the claimed lease |
| Delivery.Worker.RunCycle | bridge/notify/worker.go:95-138 | a cycle sends at most a batch of requests, none when disabled, and each starts only when the exact hold of the one before it is over |
| Delivery.Worker.ClaimOne | bridge/notify/worker.go:120-132 | the first due row that can be claimed and is not locked is leased, under the new token and within the attempt limit; none, and nothing changes, exactly when there is no such row |
| WriterQueue.StepKeepsInv | bridge/store/db.go:94-181 | every step of submitters, writer and closer keeps: admitted operations are those that ran, the one in hand and the queued, in order |
| WriterQueue.AdmittedRunOnceInOrder | bridge/store/db.go:94-181 | in every run what ran is a prefix of what was admitted, each once; at closing it is all of it; the reply is never waited for; and a result returned is that operation's own |
| WriterQueue.NothingAdmittedAfterShut | bridge/store/db.go:96-98 | nothing is admitted after Close shuts admission |
| WriterQueue.ShutStoreCloses | bridge/store/db.go:112-133 | a shut store always closes: the writer can always move, each of its moves brings it nearer, and no client sets it back |
| Ogg.BytesHoldValue | bridge/media/ogg.go:46 | 64-bit little-endian numbers are read back as written |
| Ogg.ScanVisitsWhatWasWritten | bridge/media/ogg.go:28-100 | for any pages written back to back the scan visits exactly those pages, in order |
| Ogg.ReadPage | bridge/media/ogg.go:28-67 | one step on any bytes: in bounds, and the step the scan is defined by |
| Ogg.ScanFile | bridge/media/ogg.go:28-100 | the loop ends on any bytes and gathers from exactly the visited pages |
| Ogg.MaxGranuleIsMax | bridge/media/ogg.go:88-91 | the granule position kept is the largest valid one |
| Ogg.Index | bridge/media/ogg.go:71 | the first occurrence, or none |
| Ogg.DurationIsExact | bridge/media/ogg.go:109-118 | the 32-bit truncation shows exactly on durations of 2^32 seconds or more |
| Ogg.LongAudioReadsShort | bridge/media/ogg.go:109-118 | the shortest audio it shows on reads as one second |
| Ogg.Duration | bridge/media/ogg.go:109-118 | the seconds are max(1, (granule - pre-skip) div 48000) exactly when that fits 32 bits |
| Ogg.PeakOf | bridge/media/ogg.go:147-153 | the loop finds the peak that PeakIsMax speaks of |
| Ogg.PeakIsMax | bridge/media/ogg.go:147-153 | no sample exceeds the peak, and a positive peak is a sample |
| Ogg.BinIsInRange | bridge/media/ogg.go:159-166 | each bin's two sample indexes are in range and index plus fraction is its exact position |
| Ogg.LevelBounds | bridge/media/ogg.go:159-173 | every level lies between those of its two neighbouring samples and in 0..100, so the cap never applies |
| Ogg.BuildWaveform | bridge/media/ogg.go:141-176 | the array holds the bins of the specification, zero when there is no sound |
| Ogg.AnalyzeOggOpus | bridge/media/ogg.go:15-122 | which error for which bytes, and on success the duration and 64 bins, each in 0..100, of the visited pages |

## Left out

* The durability counter and the wait for it: a script call, a transaction and a
  marker append are durable when they return.
* Which keys exist before `init`, and running the scripts on chats never
  initialised.
* Legacy journal records and schema-1 notifications, whose rules are weaker.
* JSON, schema, UTF-8, path and timestamp checks: typed values stand in for what
  passes them.
* Digests, signatures and random ids; the private repair manifest enters only
  as the digest the scripts compare.
* Checkpoint validation against secrets and byte limits: a checkpoint that fails
  it counts as missing.
* Marker uniqueness across processes: a stale process may still write its file,
  and no claim rests on the opposite.
* The bound of eight tries in the intake loop: here an attempt may start over any
  number of times.
* The count and order in which pending stream entries are recovered: any choice
  is allowed.  So it is in the outbox runs, whose claims hold for any rows the
  bounded statements may pick; `Database.dfy` picks them in order.
* Stream ids by wall clock: they are consecutive numbers here.
* The worker's check of its own mutations before the turn, and any other read
  that only makes it stop: stopping is possible at every step.
* The tool journal's in-process bookkeeping (live calls, poisoning, the queue of
  hooks): its durable effects appear as journal calls that may happen in any
  order a fenced client can produce.
* The durable session appends of the tool journal; only the checked history of
  a branch reads them.
* The chat worker and the intake loop are state machines over their atomic
  effects rather than methods with local variables: they interleave.
* The writer queue is such a state machine too; an operation whose context was
  cancelled still takes its turn, and whether its transaction begins is part of
  its result.
* The usage decision, templates and the model call of a compaction.
* The orphan reader's loop over chunks and tries, which is that of the evidence
  reader but for a limit on unfinished lines.
* The order of returned outcomes: a map stands for the sorted list.
* Loudness: any function of a page's bytes.  Floating point in the waveform and
  the retry delay: exact reals.
* HTTP, WhatsApp, media transfer, configuration, search, telemetry, dashboards
  and the Python services.

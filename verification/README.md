# Workflow World: a verified model

This project models the Postgres-backed Workflow World in Dafny: the event-log protocol that
many uncoordinated writers run over shared rows, the packed stream blocks and their readers,
delivery accounting and run queues, boot recovery, retention and the activation lease. What is
proved are properties of every interleaving, every input or every history.

## The parts

**The event log** (`EventLog` to `StartHooks`). `Database` holds the committed rows, what a
transaction has written but not committed, and the lock keys: the fence (`workflow_event_slots`),
run rows, a run's next slot (`Tail`), hook rows, token claims, admissions and steps. `Protocol`
runs the statements of `events.create` one at a time (`Exec`): hook creation with force-claim
takeover, disposal, delivery, run creation with start Hook admission, run start and end, step
creation, start, end and retry, each in-band (one transaction behind the fence) or not (committing
where the source commits). `Enabled`/`Moved` interleave any number of requests with commits,
rollbacks at any point, and the clock. Isolation is READ COMMITTED: a statement that writes or
locks a row, or claims a unique key, waits while another transaction holds it, and then sees what
that transaction left. `Invariant` says what is true of committed rows, `Shapes` what is true of an
open transaction and why the others cannot undo it, and `Statements`, `RunProofs`, `HookProofs`,
`StepProofs`, `CreateProofs`, `World` and `Safety` prove that every move keeps both. `Histories`,
`HookLogs`, `InBandWrites` and `Takeovers` draw the conclusions, over every history. `Decisions` adds what start Hook admission needs,
`Admissions` concludes from that, and `Scripts`, `StartHooks` and `StalledCopies` write down the
histories in which something fails.

`SlotLog` is the layer underneath: stale slot computation, insert, conflict, wait, retry, several
slots per transaction, rollback. It refines the append-only log with one tail holder that
`Database.Append` and the `Tail` key use. `EventIds` is the text form of slots.

**A defect this found.** The order of a Hook's log can break. Both copies of a start Hook candidate
look before they claim. If the second copy claims only after the first was accepted and that run's
start Hook was disposed again, its insert of the start Hook row succeeds, its decision loses to the
recorded acceptance, `recordDecision` answers `accepted`, and the transaction commits with the row
(`src/start-hook.ts:198-224`, `267-296`, `src/storage.ts:1381-1391`). The row stands for a Hook the
log already shows as disposed; a delivery to it is journaled behind the disposal.
`StartHooks.OrderCanBreak` is such a history from the empty database. The defect stays with the start
Hook of that one run: `HookLogs.HookOrderExactly` says that in every history a Hook's log is out of
order if and only if a delivery or a disposal of it is journaled after the commit of such an overtaken
copy, and `HookLogs.HookRowsAreLive` that a row is behind its Hook's disposal if and only if such a
commit came before. Nothing else is touched: the in-band fence, run creation, steps, admission, the
takeover ledger and every Hook that is no start Hook are proved for all histories, those with overtaken
copies included.

**A second one.** Boot recovery keys its job by run id alone (`src/dispatcher/boot-recovery.ts:326`,
`349-358`), while queues are per tenant and run. Another tenant's recovery job for the same run id
takes the key and replaces the job that had it, whether that was enqueued by the same sweep
(`BootRecovery.FirstTenantLoses`) or by an earlier one (`BootRecovery.EarlierJobIsLost`).
`BootRecovery.SweepCoversExactly` is the exact condition for each active run, `BootRecovery.EveryRunIsCovered` for all of them.

**A third one.** The rewrite of a closed stream packs data that follows the first EOF into the same
blocks. A block that begins before the EOF and ends behind it makes reads return chunks they did not
return before (`StreamRewrite.StraddleChangesReads`); `StreamRewrite.RewriteExactly` says precisely
when reads are preserved.

**A fourth one.** A decision is dated when its transaction began and deleted a day and an hour later,
and nothing bounds how long an attempt stays open between its first look and its commit
(`src/start-hook.ts:162-178`, `329-337`). With a bound `b` on that time a candidate is decided at most
once in every history if and only if `2 * b` is within a decision's lifetime
(`StalledCopies.StayLimitIsExact`); for every longer stay there is a history in which a candidate is
refused and then accepted (`StalledCopies.RefusalIsOverturned`). The results of `Admissions` are about
`Timed` histories, which have such a bound; no other result depends on it.

**Streams** (`StreamBlocks`, `StreamPacking`, `StreamReading`, `StreamRewrite`, `LiveReader`). Ids and
data are byte sequences; lengths and limits are the source's. All readers are compared with one list:
the logical chunks before the first EOF.

**Delivery, queues, recovery, retention, lease** (`Delivery`, `RunQueues`, `BootRecovery`,
`Retention`, `Lease`). Graphile's rule that a named queue has at most one locked job, and its job-key
semantics, are the environment.

Where code and documentation differ, the model follows the code: after a handoff, a later
`{ timeoutSeconds: n }` reschedule keeps the handed-over attempts (`src/dispatch-contract.ts:338`),
although the comment at 305-308 says the attempt starts over.

## Model

| member | source | states |
|---|---|---|
| Safety.MoveInv | src/storage.ts:1195-3260 | every statement, commit, rollback, opening and tick, by any of the concurrent requests, keeps the invariant of committed rows, open transactions and lock exclusivity |
| Invariant.CommitKeeps | src/storage.ts:978-1003 | committing a transaction that meets `Ready` keeps the run, fence, hook order, row, token, ledger, birth and step invariants of the committed rows, and that an acceptance on record has its run |
| World.StatementKeeps | src/storage.ts:1195-3260 | one statement of any request leaves its transaction in the shape its next statement needs |
| World.TxFrame | src/storage.ts:240-246 | whatever other transactions commit, what an open transaction relies on stays true: it is under its own locks or only becomes more true |
| World.AllReady | src/storage.ts:978-1003 | every transaction that reaches its commit meets `Ready` |
| Safety.CommitRely | src/drizzle/schema.ts:185-203 | a commit changes nothing under another transaction's locks; runs and logs only grow, terminal steps stay terminal |
| Histories.AlwaysInv | src/storage.ts:958-1003 | the invariant holds in every state of every history from the empty database |
| HookLogs.HookLogOrder | src/storage.ts:2444-2958 | in every run's log a hook is created before it is delivered to or disposed, created once, disposed at most once, and nothing is delivered behind the disposal: for every hook but a start Hook in every history, for a start Hook as long as no overtaken copy of its run has committed |
| HookLogs.HookOrderExactly | src/start-hook.ts:198-296 | that order fails for a hook if and only if a commit journals a delivery or a disposal of it after the commit of an overtaken copy |
| HookLogs.HookRowsAreLive | src/storage.ts:2518-2577 | a hook row is of a hook its log shows as created, its log shows the hook as disposed if and only if an overtaken copy has committed, and one row at most holds a token |
| HookLogs.RowsStayLiveExactly | src/start-hook.ts:267-296 | a move leaves a row behind its hook's disposal, where there was none, if and only if it is the commit of an overtaken copy |
| HookLogs.RevivedExactly | src/storage.ts:1381-1391 | the hooks whose row was ever committed behind their disposal are exactly the start Hooks of overtaken copies that committed |
| Histories.CreatedOnceFirst | src/storage.ts:448-477 | a run exists exactly when it has a log; `run_created` is its first event and no other |
| Histories.StepLogOrder | src/storage.ts:2098-2398 | at most one terminal event per step, no start behind it, only the first start may have created the step, `attempt` is the number of starts logged, and a logged end means a terminal row |
| Histories.StepStaysTerminal | src/storage.ts:2245-2398 | a terminal step row never changes again and no start is logged for it any more |
| Histories.LaterGrown | src/storage.ts:378-427 | between any two states of a history runs stay, logs only grow at the end, and terminal steps stay terminal |
| InBandWrites.CountIsInBandWrites | src/storage.ts:304-367 | `seqInBand` is one more than the in-band positions committed to the run's log |
| InBandWrites.StaleCommitsNothing | src/storage.ts:978-1003 | a create whose expected count is not the run's adds nothing to any log and changes no run, step or count; unless it is a resilient creation that began before its run existed, which may have tidied hook rows and decisions, it commits nothing at all |
| InBandWrites.AcceptedMovesByOne | src/storage.ts:345-410 | an accepted in-band write found the expected count, leaves it one higher, and commits exactly one marked position, its own |
| InBandWrites.WriterHasSeenAll | src/storage.ts:1005-1060 | a writer whose expected count is a listed snapshot plus its own accepted writes has, when its write commits, seen every earlier in-band event: all unlisted ones are its own |
| Journals.MoveTidy | src/storage.ts:378-410 | hook and step events are only ever in their own run's log, a marked position carries its writer, and an in-band write that took a slot of its run moved the count |
| Takeovers.LedgerBalances | src/storage.ts:2675-2837 | `hook_created{forceClaimedFrom}` from a running victim and the victim's `hook_disposed{forceClaimedBy}` are both there or neither; a taker has one victim, and a victim one taker unless an overtaken copy of it has committed |
| Takeovers.TakeoverMovesToken | src/storage.ts:2741-2837 | a committed takeover removes the victim's row, gives the same token to the taker, journals the disposal exactly when the victim was running, and touches no other hook |
| Takeovers.RefusalChangesNothing | src/storage.ts:2839-2860 | a refused takeover journals a conflict in its own run and changes no hook, row or other run |
| Takeovers.ChainsEnd | src/storage.ts:139-146 | a chain of `forceClaimedBy` links is no longer than the number of hooks ever created and never returns to its start |
| Takeovers.ChainEnd | src/storage.ts:139-146 | following the links of the disposal rows is a total function; its result's disposal row names no taker, and unless it is a revived start Hook it lost its token to nobody |
| Takeovers.RedirectFindsHolder | src/storage.ts:155-204 | there is a redirect exactly for a hook whose first disposal row is that of a takeover; it names the holder of the request's token, or else of the token that row keeps, when there is one, otherwise the taker; the row is the only one unless an overtaken copy has committed |
| Takeovers.RedirectIsChainEnd | src/storage.ts:142-145 | while the end of the chain holds the token, the redirect names it |
| Decisions.MoveState | src/start-hook.ts:127-337 | with a bound that fits twice into a decision's lifetime, every move keeps what admission needs of committed decisions and open attempts, and decisions stand |
| Decisions.AlwaysDecided | src/start-hook.ts:127-337 | so it holds in every state of a timed history |
| Admissions.DecidedOnce | src/start-hook.ts:127-256 | over any timed history, with expired decisions being deleted, one commit at most decides a candidate |
| StalledCopies.StayLimitIsExact | src/start-hook.ts:162-178 | attempts open for at most `b` never decide a candidate twice, in any history, if and only if `2 * b` is at most the day and the hour a decision is kept |
| StalledCopies.RefusalIsOverturned | src/start-hook.ts:329-337 | one millisecond beyond that a history refuses a candidate, deletes the refusal, and accepts the candidate, without any overtaken copy |
| StalledCopies.DecidedAtMostOnce | src/start-hook.ts:267-296 | the number of commits that decide a candidate, over any timed history, is at most one |
| Admissions.DecisionStands | src/start-hook.ts:298-337 | a committed decision never changes, its row says the same while it is there, and it is only gone once the candidate is too old to admit |
| Admissions.AcceptanceCommitsWhole | src/start-hook.ts:198-256 | an acceptance commits together with the run, its first event, its start Hook and the sole claim of the token |
| Admissions.RefusalLeavesNothing | src/start-hook.ts:226-250 | a refused candidate has no run, no log and no hook, in any later state |
| Admissions.CandidateRunsWereAccepted | src/storage.ts:448-477 | a candidate's run exists exactly when the candidate was accepted |
| Admissions.CommittedAnswersAgree | src/start-hook.ts:258-296 | whatever an attempt that commits answered is the decision on record, so racing copies agree |
| Admissions.LateAttemptReplays | src/start-hook.ts:162-172 | an attempt begun after the decision never decides: it answers with the decision or finds the candidate expired |
| StartHooks.OvertakenReached | src/storage.ts:1381-1391 | a history reaches the commit of an overtaken copy |
| StartHooks.OrderCanBreak | src/start-hook.ts:267-296 | and a delivery after it is journaled behind the disposal |
| EventLog.HookOrderHolds | src/storage.ts:2444-2958 | what the hook automaton accepts, in log positions |
| EventLog.StepOrderHolds | src/storage.ts:2098-2398 | what the step automaton accepts, in log positions |
| EventLog.StartsCounted | src/storage.ts:2245-2290 | the automaton counts the starts of the log |
| SlotLog.NextInv | src/storage.ts:271-296 | computing, inserting, conflicting, retrying, committing and rolling back keep the slots dense with one tail holder |
| SlotLog.SlotsAreDense | src/storage.ts:271-296 | in every history the committed slots are exactly 1..n |
| SlotLog.OneHoldsTheTail | src/storage.ts:378-427 | one open transaction at most holds slots, and they are the next ones |
| SlotLog.CommitAppends | src/storage.ts:378-427 | the slots refine a log: a commit appends what its transaction inserted, in order, and nothing else changes it |
| SlotLog.CreationIsSlotOne | src/storage.ts:429-477 | slot 1 is the run's creation and no other slot is |
| EventIds.IdOrder | src/storage.ts:267-283 | below ten to the width, ids compare as text exactly as their slots do |
| EventIds.NumberOfPadded | src/storage.ts:271-283 | the number read back out of an id is its slot |
| EventIds.DecimalIsPadded | src/storage.ts:275-282 | `lpad` of the decimal is the padded form |
| EventIds.WidthIsTheBound | src/storage.ts:275-282 | at ten to the width `lpad` cuts the text to an id an earlier slot has |
| EventIds.SkippedAreAllReported | src/storage.ts:480-512 | the report holds every event between the slot asked for and the one committed, in order, with `hasMore` false, read after the commit or from inside a fenced create's open transaction; none is made when no slot was skipped |
| StreamBlocks.RowIsItsEncoding | src/stream-blocks.ts:65-102 | a version-2 row yields chunks if and only if it is exactly the encoding of those chunks |
| StreamBlocks.UnpackStreamRow | src/stream-blocks.ts:65-102 | the loop returns the row's chunks or the error, for every row |
| StreamBlocks.EncodeBlock | src/stream-blocks.ts:104-124 | writing the entries into the buffer gives the block of those chunks |
| StreamBlocks.DecodeExact | src/stream-blocks.ts:77-93 | bytes that decode are the encoding of what they decode to |
| StreamPacking.PackStreamChunks | src/stream-blocks.ts:29-63 | fails exactly on limits or ids it cannot use, otherwise writes the greedy blocks |
| StreamPacking.GroupsSplit | src/stream-blocks.ts:46-63 | the blocks are the chunks in order, none empty, each within the limits |
| StreamPacking.GreedyIsMinimal | src/stream-blocks.ts:38-63 | no order-preserving split within the same limits has fewer blocks |
| StreamPacking.PackingRoundTrip | src/stream-blocks.ts:29-102 | unpacking every packed block gives back the chunks |
| StreamReading.PageIsSlice | src/streamer.ts:311-390 | from the cursor after j chunks a page is the next slice of the list with its indices, its next cursor and `hasMore`, whatever rows hold it and for every limit of at least 1 |
| StreamReading.ReadAll | src/streamer.ts:311-390 | following the cursors with any limits gives the whole list once, with consecutive indices |
| StreamReading.InfoCountsLogical | src/streamer.ts:392-414 | `tailIndex + 1` is the length of the list |
| StreamRewrite.LogicalIsAhead | src/streamer.ts:202-210 | of all data chunks the list has exactly those before the first EOF |
| StreamRewrite.StreamTable.CompactOneStream | src/stream-block-maintenance.ts:106-185 | the transaction leaves the rewritten rows, or on an error the rows as they were |
| StreamRewrite.RewriteExactly | src/stream-block-maintenance.ts:106-185 | reads after the rewrite are the reads before it with the compaction mapped over them if and only if a block boundary falls at the first EOF |
| StreamRewrite.RewritePreserves | src/stream-block-maintenance.ts:106-185 | which it does when no data follows the first EOF |
| StreamRewrite.CursorsSurvive | src/stream-block-maintenance.ts:36-40 | every old cursor gets, with every limit, the page it would have got, compacted, if and only if a block boundary falls at the first EOF |
| StreamRewrite.StraddleChangesReads | src/stream-block-maintenance.ts:117-130 | with data behind the EOF a read that gave one chunk gives two |
| LiveReader.Session | src/streamer.ts:416-504 | wherever the snapshot falls among the notifications, the consumer gets each non-empty chunk from the start offset once and in order, nothing after the first EOF |
| LiveReader.SnapshotPlacement | src/streamer.ts:424-504 | snapshot, buffered and later notifications together give what reading the stream once gives |
| LiveReader.SnapshotIsLogical | src/streamer.ts:493-498 | a negative start index counts from the end `getInfo` reports |
| LiveReader.Reader.Enqueue | src/streamer.ts:433-456 | one message, as a function of the reader's state |
| LiveReader.Reader.Take | src/streamer.ts:466-504 | the rows first, then what was buffered, from the adjusted offset |
| Delivery.ClaimReports | src/dispatch-contract.ts:311-345 | over any life of claims, retries, reschedules and handoffs the k-th claim reports k deliveries, the attempt counts the retries of the current job and of jobs that ended in a handoff, and 1 <= attempt <= deliveryCount |
| Delivery.RedeliveryIsNumberedHigher | src/dispatch-contract.ts:299-308 | a later claim always reports a higher delivery count |
| RunQueues.QueueNamesAreInjective | src/dispatch-contract.ts:88-90 | for valid tenant ids a queue name determines tenant and run |
| RunQueues.OpKeeps | src/queue.ts:347-463 | send, reschedule, sweep, promotion, recovery, claim, finish and failure keep every job where it belongs, keys unique and queues serial |
| RunQueues.OneOrchestratorInFlight | src/dispatch-contract.ts:216-259 | in every reachable table a spec 9 orchestrator's job is on its run's queue or a timer for it, and one at most is in flight |
| RunQueues.OrchestratorsAreSerial | src/dispatch-contract.ts:216-229 | two in-flight orchestrator deliveries of one run are the same job |
| RunQueues.SweepThenPromote | src/timers.ts:132-204 | in every table, sweeping a job and claiming, promoting and finishing its timer gives back the table with the same job (task, queue, flags, key, message, attempts) under a new id |
| RunQueues.JobTable.MoveDelayedJobsToTimers | src/timers.ts:173-204 | the statement moves exactly the pending, never attempted jobs on run queues among those due late, and counts them |
| RunQueues.JobTable.SendMessage | src/queue.ts:347-463 | places a sent message and keeps the table's invariant |
| RunQueues.JobTable.AddDelayedDelivery | src/timers.ts:87-117 | places a reschedule and keeps the table's invariant |
| RunQueues.JobTable.PromoteTimer | src/timers.ts:132-145 | puts a due timer back and keeps the table's invariant |
| BootRecovery.SweepCoversExactly | src/dispatcher/boot-recovery.ts:138-367 | for every active run, after the sweep it has a live job, a timer, a recovery job, or a hook and no pending sleep, if and only if it is parked on a hook, had a live job whose key is no candidate's, or is the last candidate of its run id |
| BootRecovery.CoveredExactly | src/dispatcher/boot-recovery.ts:306-358 | the same for any list of enqueues over any table, with claimed holders of a key spent as graphile spends them |
| BootRecovery.EveryRunIsCovered | src/dispatcher/boot-recovery.ts:138-367 | every active run is covered after the sweep if and only if, before it, candidates of one run id are of one tenant and every other unparked run has a job whose key is no candidate's |
| BootRecovery.DistinctRunsAreNotDisplaced | src/dispatcher/boot-recovery.ts:326-358 | which holds when run ids are distinct and recovery keys are on their own runs' jobs only |
| BootRecovery.FirstTenantLoses | src/dispatcher/boot-recovery.ts:326-358 | two tenants, one run id, an empty table: the first run ends up with nothing that would deliver it |
| BootRecovery.EarlierJobIsLost | src/dispatcher/boot-recovery.ts:326-358 | a run covered by an earlier sweep's pending job loses it to another tenant's run of the same id |
| BootRecovery.ForeignKeyIsLost | src/dispatcher/boot-recovery.ts:326-358 | and a live job under another run's recovery key is lost to that run's |
| BootRecovery.CandidateCoveredExactly | src/dispatcher/boot-recovery.ts:306-358 | a candidate keeps its recovery job if and only if no later candidate has the same run id |
| BootRecovery.RecoverActiveRuns | src/dispatcher/boot-recovery.ts:242-367 | one job per candidate, due at its deployment's wave, so that one deployment's runs share a due time |
| BootRecovery.AssignWaves | src/dispatcher/boot-recovery.ts:278-295 | deployments are numbered in the order met, so many to a wave |
| BootRecovery.WaveSizes | src/dispatcher/boot-recovery.ts:287-295 | a wave has at most `deploymentsPerWave` deployments, and exactly that many when another follows |
| Retention.EligibilityIsStable | src/retention.ts:268-299 | removing eligible runs changes nobody else's eligibility |
| Retention.NeededLineageIsKept | src/retention.ts:275-296 | a lineage with an active, persistent or unexpired member or a live reserved token has no eligible run |
| Retention.RetentionStore.PruneExpiredRuns | src/retention.ts:246-381 | for every batch size a sweep removes only eligible runs; `hitBatchLimit` false means all of them, true means every batch was full |
| Retention.Sweeps | src/retention.ts:246-381 | repeated sweeps remove exactly the initially eligible runs once one does not hit its limit; until then they have removed their full capacity, so sweeps whose capacity exceeds the eligible runs get there |
| Retention.PrunesCompose | src/retention.ts:301-355 | batches in any division and order leave the same rows |
| Lease.AbortBeforeLapse | src/dispatcher/lease.ts:46-83 | for every sequence of answers and interval below the lease, the tick that aborts is strictly before the lease lapses, and a full interval before when the lease is at least two intervals |
| Lease.Run | src/dispatcher/lease.ts:46-90 | the renewal counter aborts exactly when some run of failures exceeds the budget |
| Lease.Renewal.Tick | src/dispatcher/lease.ts:54-83 | one tick's effect on the counter and the abort |
| Lease.AbortNeedsFailures | src/dispatcher/lease.ts:46-66 | no abort without more consecutive failures than the budget |
| Lease.UnknownLeaseAbortsAtOnce | src/dispatcher/lease.ts:33-38 | without a lease length the first failure aborts |

## Left out

- StaleCommitsNothing: a resilient `run_started` that began before its run existed may still commit hook rows and decisions it wrote before it found the run; what those are is not stated.
- MoveInv: `storage.ts` and `start-hook.ts` are modelled on values as a transition system, not as classes with methods; aliasing and update in place are not captured, interleaving and rollback are.
- HookLogOrder: assumes that hook ids are not reused across runs, that a hook's own disposal comes from its run, and that every row claims its token (rows since migration 0022).
- DecidedOnce: assumes candidate clocks at most one hour ahead, and a bound on how long attempts stay open, which the code does not enforce; `StayLimitIsExact` gives the limit.
- CommittedAnswersAgree: the refusal of a candidate that names another token than the recorded one is not modelled, because a run id carries its candidate's token here.
- StepLogOrder: step events other than creation are issued after the step's creation committed; step restart beside a live owner is not modelled.
- The row insert of a lazy step start and the `step_created` it journals are one statement; in the source they are two of one transaction.
- A `hook_created` on a run that does not exist aborts; the source goes on with a legacy event id.
- Whether a token's retention has passed is an open choice of each statement that asks; token retention times are modelled only in `Retention`.
- Resetting to a savepoint gives up all its locks but the fence, which allows more interleavings than Postgres does.
- The check and the unguarded update of `run_started` are one step, so nothing is claimed about run status being final.
- Runs without slots (ULID event ids), waits, attributes, legacy events and the contents of events.
- The retry limit of a slot insert is a rollback; its backoff is not modelled.
- RowIsItsEncoding: ids are bytes; the UTF-8 decoding of an id is not modelled.
- CompactOneStream: rows are kept in id order and ids compare bytewise, as `localeCompare` does on ULIDs; a clash of a block's id with an EOF row's would raise in the database and is excluded in the results about the rewrite.
- Session: chunks are committed and notified in id order; the reader's unpacking errors and cancellation are not modelled.
- PageIsSlice: base64 and JSON of cursors, and cursors no reader was given.
- OneOrchestratorInFlight: due times are not modelled, any pending job may be claimed, swept or promoted; the upstream message predicates are fields of a message.
- EveryRunIsCovered: failed enqueues, the host's filter and lock reclaim are not modelled.
- PruneExpiredRuns: the order of victims within a batch and orphaned checkpoints; locks and concurrent writers.
- AbortBeforeLapse: renewals are answered at their tick.
- HTTP, activation, supervision, fairness counters, message dedup, configuration and schema migrations are not modelled; the compaction of a stream chunk is an arbitrary function on bytes.

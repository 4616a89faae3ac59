# Verification of the notification delivery protocol

A Dafny model of how an event travels from the business outbox to a recipient's mailbox, and
proofs of what that path guarantees. The service is at-least-once between its queues and
relies on one status row per (event, recipient) to keep deliveries apart; most results below
say what that row does and does not achieve when workers, delivery loops, retry calls,
reapers and crashes interleave.

`dafny verify dfyconfig.toml` checks the whole project.

## How the model is built

- `Common`, `Event`: errors, statuses, recipients, the event envelope and the JSON its parts
  are stored as. JSON is a tree of values; decoding is written out field by field.
- `NotificationLog`, `Statements`: every SQL statement on the status table is a function on a
  map, and the class `NotificationStore` runs the statements in place. The same functions drive
  the interleaving model, so both speak of one table; `Statements` says what they write, column
  by column.
- `RecipientFilter`, `BlockList`: the static filter, the database list, its snapshot cache as
  a class, and concurrent loads around the cache slot as a state machine.
- `Backoff`, `RetryLoop`: delay arithmetic, and the decision both retry loops take on each
  outcome, followed over whole outcome streams.
- `Processor`, `GroupSend`, `Attempts`: one delivery attempt, for a recipient or a group; and
  what it stops at, sends and writes, told from the answers it gets alone.
- `Delivery`, `FailingCalls`, `LoopEnds`, `Mailing`: the retry loops and the fallback after a
  failed group send, how often they can fail, when they give up, and which mail they send.
- `Fetcher`, `HandleDelivery`, `Handled`: attachment fetching, a message from delivery to
  settlement, and what an acknowledged delivery has done for its recipients.
- `Deferral`: a scheduled message with all its copies between the main queue, the consumer and
  the delayed queue.
- `Runs`: runs of a state machine, shared by all machines here.
- `DeliveryProtocol`, `LoopRefinesProtocol`: any number of individual-mode loops, the retry
  API, the reaper and crashes, one statement per step; and the proof that the loops of
  `Delivery`, attempt by attempt, with others acting during their sleeps and in any schedule
  with the rest of the service, are runs there and give each recipient what its loop run alone
  gives.
- `Replay`: rebuilding an event from its rows, and undoing a reset.
- `Outbox`, `Batches`, `OutboxProtocol`: a worker's poll cycle, what it does to each row of its
  batch, and any number of workers with crashes, confirm timeouts and the stale-lock reaper.
- `TemplateFile`: the `.j2` section parser.

Answers of the outside world (database, broker, mail sender, HTTP, clocks, the rate limiter,
shutdown, Unicode lower-casing) are parameters. No reaper runs on time unless a result says so:
the results on how soon stuck rows are freed do, and name the spacing. A retry loop can run for
ever, so it runs against a list of answers of any length and reports whether it had returned;
what holds for every list holds for every prefix of every run. Error texts keep the wording
that matters for control flow only.

## What the code does that its documentation does not say

- Once a recipient's row exists and is not SENT or BLOCKED, every further attempt reports
  "still pending" and the loop goes round at once, without sleeping or sending
  (`Delivery.SpinsOnExistingRow`). The re-send after a back-off that the comments describe
  happens only for failures before the insert. `Delivery.ReturnsIffRowCreationIsFinal` says
  exactly when the loop returns, and `DeliveryProtocol.SendsOnlyBeforeTheRow` that neither a
  redelivery nor a retry call leads to a send for such a row.
- A loop therefore hears at most one rate limit, and as long as it hears no "still pending" it
  makes at most max_retries + 2 calls, whatever max_rl_waits allows
  (`Delivery.LoopReturnsWithinComposedBudget`, `Delivery.ComposedBudgetIsReached`). With "still
  pending" answers in between, which reseed its counter from the row, at most
  max(2 * max_retries, max_retries + 2) of its calls fail (`FailingCalls.LoopFailsAtMost`,
  `FailingCalls.FailureBudgetIsReached`), provided the failures get recorded: if they do not,
  nothing bounds them unless max_retries is zero (`FailingCalls.LostMarksUnboundIff`).
- The individual sends after a failed group send therefore never send
  (`Delivery.FallbackToIndividualSends`).
- `mark_sent`, `mark_failed` and `mark_blocked` have no status guard: a redelivery that fails
  before its insert takes a row out of SENT (`DeliveryProtocol.RedeliveryUnsends`,
  `DeliveryProtocol.SentIsLostFromStart`). `DeliveryProtocol.OnlyEarlyFailuresUnsend` and
  `DeliveryProtocol.SentIsLostIff` say exactly which step and which states do, and
  `DeliveryProtocol.SentIsAbsorbingFromStart` that nothing else does.
- A permanent failure before the insert leaves no row (`Delivery.NoRowIff`).
- If the filter refuses the first recipient of a group, the message still goes to it and the
  first admitted recipient is left out (`GroupSend.ToHeaderExactlyIntended`,
  `GroupSend.RefusedPrimaryLosesSomeone`). Group sends do not consult the database list.
- A `stale_pending_timeout_secs` of 0 is announced as disabling the reaper (src/main.rs:417-429),
  but the reaper is started with it all the same (src/main.rs:453), and each of its turns fails
  every PENDING row written before it (`NotificationLog.ReapFailsOutlived`).
- A rebuild never reads the stored To: list, so a group stored as a whole comes back with its
  primary alone (`Replay.WholeGroupShrinksToPrimary`), and it stops at 500 rows
  (`Replay.CapLeavesRowsBehind`).
- After a change to the block list the next check need not see it: a load that began before
  the change may insert its snapshot after the eviction (`BlockList.StaleAfterEviction`).
  `BlockList.EvictionMakesCurrentIff` says when an eviction is enough.
- The outbox failure record has no status guard, so it can take a row out of PUBLISHED
  (`OutboxProtocol.LateRecordUnpublishes`, `OutboxProtocol.LostReplyUnpublishes`): exactly
  while a worker still queues the row (`OutboxProtocol.UnpublishedIffQueued`). Two workers get
  there whatever the lock timeout, with truthful replies and a reaper that is always on time
  (`OutboxProtocol.LateRecordUnpublishesOnTime`).
- A base delay of exactly 900 000 ms is refused at startup, although the message allows it,
  and a rate-limit wait is at most four minutes (`Backoff.AcceptedBaseNeverSaturates`,
  `Backoff.RateLimitDelays`).
- Deferring a scheduled message ends, after two passes if the broker honours the time to live,
  while every publish to the delayed queue is confirmed and every settlement arrives
  (`Deferral.DeferralsEnd`). Otherwise it can go round any number of times at one instant, each
  pass leaving one more copy (`Deferral.DeferralsUnboundIff`). The consumer's channel
  (crates/consumer/src/runner.rs:139) is never put into confirm mode, and neither of the two
  accounts the code gives of such a channel (crates/outbox/src/worker.rs:156-163,
  crates/api/src/publisher.rs:172-173) has its publishes confirmed. Then every deferral leaves
  the original in the main queue or with a consumer (`Deferral.UnconfirmedStays`).
- The retry API takes a refusal by the broker for success (crates/api/src/publisher.rs:149), where
  the outbox worker asks whether the confirm is an acknowledgement
  (crates/outbox/src/worker.rs:492); and a call whose confirm is lost fails although its event is
  queued (`Replay.RetryApi.RepublishEvent`).
- A row whose priority is the largest 64-bit number counts like one without a priority
  (`Outbox.NumberedFirstIff`).
- An event with too many recipients gets one FAILED row and is acknowledged.

## Model

| member | source | states |
|---|---|---|
| NotificationLog.NotificationStore.InsertPending | crates/store/src/notification_log.rs:294-361 | the insert creates a PENDING row or reports the row that was there, which keeps every column, its update time included |
| NotificationLog.NotificationStore.InsertPendingBatch | crates/store/src/notification_log.rs:371-439 | all inserts or none, with one result per statement in order |
| NotificationLog.BatchRow | crates/store/src/notification_log.rs:371-439 | a key's row after a batch is the old one or that of its first occurrence |
| NotificationLog.BatchAlignment | crates/store/src/notification_log.rs:371-439 | result i speaks of recipient i, repeated recipients included |
| NotificationLog.NotificationStore.MarkSent | crates/store/src/notification_log.rs:442-466 | SENT whatever the status was; a missing row is an error and changes nothing |
| NotificationLog.NotificationStore.MarkFailed | crates/store/src/notification_log.rs:468-503 | counters, and FAILED or PENDING by the exhausted flag, with no status guard |
| NotificationLog.NotificationStore.MarkBlocked | crates/store/src/notification_log.rs:505-534 | BLOCKED with no status guard |
| NotificationLog.NotificationStore.MarkSkipped | crates/store/src/notification_log.rs:549-581 | a SKIPPED row unless there is a row already |
| NotificationLog.NotificationStore.GetByEventAndRecipient | crates/store/src/notification_log.rs:749-817 | the row, unless the database, the row or its status is unusable |
| NotificationLog.NotificationStore.ResetForRetry | crates/store/src/notification_log.rs:819-846 | succeeds exactly on a FAILED or BLOCKED row, and resets that row only |
| NotificationLog.NotificationStore.ResetAllFailedForEvent | crates/store/src/notification_log.rs:848-869 | resets and returns exactly the event's FAILED rows |
| NotificationLog.NotificationStore.RevertToFailed | crates/store/src/notification_log.rs:871-899 | fails exactly the PENDING rows among the given ones, and counts them |
| NotificationLog.NotificationStore.ReapStalePending | crates/store/src/notification_log.rs:1014-1045 | fails exactly the overdue PENDING rows and names each of their events once |
| NotificationLog.ReapFailsOutlived | src/main.rs:417-453 | a reap fails exactly the PENDING rows older than the timeout; with a timeout of zero, all that were written before it |
| Statements.StatementWrites | crates/store/src/notification_log.rs:442-1045 | an existing row changes only if a statement's condition picks it, and then it is stamped with the time, gets that statement's status and error, and its attempts and failures are counted; replay columns stay |
| RecipientFilter.DomainFollowsLastAt | crates/recipient_filter/src/lib.rs:136-138 | the domain is what follows the last @ |
| RecipientFilter.FilterDecides | crates/recipient_filter/src/lib.rs:90-127 | the check decides the declarative rule: not block-listed, and allow-listed if there is an allow list, up to any folding of case that keeps @ apart |
| RecipientFilter.CheckDecidesConfig | crates/recipient_filter/src/lib.rs:70-127 | the compiled filter decides what its configuration says |
| RecipientFilter.PassthroughAdmits | crates/recipient_filter/src/lib.rs:130-132 | skipping the check of an empty filter changes no decision |
| BlockList.SnapshotDecides | crates/store/src/block_list_store.rs:94-133 | a snapshot of well-formed rows decides the declarative rule on the active rows |
| BlockList.SnapshotAgreesWithStaticFilter | crates/store/src/block_list_store.rs:94-133 | the same lists give the same answers in the database and in the static filter |
| BlockList.BlockListStore.Snapshot | crates/store/src/block_list_store.rs:236-277 | cached or loaded, row by row in any order, the snapshot is that of the current table |
| BlockList.BlockListStore.Check | crates/store/src/block_list_store.rs:94-133 | the cached decision equals the decision on the active rows |
| BlockList.BlockListStore.AddEntry | crates/store/src/block_list_store.rs:157-190 | inserts or reactivates exactly one row, keeping its id, and evicts the snapshot |
| BlockList.BlockListStore.RemoveEntry | crates/store/src/block_list_store.rs:194-210 | succeeds exactly on an active entry, deactivates that one, and evicts the snapshot |
| BlockList.InvRun | crates/store/src/block_list_store.rs:236-277 | over every interleaving of readers and writers a cached snapshot was the table at some time |
| BlockList.CacheHitStaleness | crates/store/src/block_list_store.rs:236-277 | with concurrent loads a hit answers for a table state less than one TTL plus one load old |
| BlockList.OutdatedHitIff | crates/store/src/block_list_store.rs:236-277 | while the table does not change, a hit can answer from another snapshot exactly if the cache serves one now or a load that may still finish holds one |
| BlockList.EvictionMakesCurrentIff | crates/store/src/block_list_store.rs:136-139 | after an eviction every hit is current until the next change exactly if no such load is under way |
| BlockList.StaleAfterEviction | crates/store/src/block_list_store.rs:157-210 | the other case is reached from the start: a hit lets through an address that is already blocked |
| Backoff.DelayMonotone | crates/consumer/src/delivery.rs:784-811 | delays never shrink with the attempt and never exceed 30 minutes |
| Backoff.DelayDoubles | crates/consumer/src/delivery.rs:784-811 | the first retry waits twice the base, each further one twice as long up to 30 minutes, and from the tenth on the wait stays the same |
| Backoff.RateLimitDelays | crates/consumer/src/delivery.rs:726-726 | rate-limit waits are one, two and then four minutes |
| RetryLoop.SleepAfter | crates/consumer/src/delivery.rs:710-811 | each sleep of a loop is the wait for the coming attempt, or for the rate limits heard in a row |
| Backoff.AcceptedBaseNeverSaturates | src/config.rs:377-392 | startup accepts exactly the bases below 900 000 ms, and for those no product saturates |
| Backoff.TotalFitsU64 | src/config.rs:397-404 | the 64-bit startup sum cannot overflow |
| RetryLoop.StartupTotalIsTimeSlept | src/config.rs:397-404 | the startup total is the time a loop sleeps over max_retries transient failures |
| RetryLoop.BackoffSpendsBudget | crates/consumer/src/delivery.rs:713-811 | each sleep spends budget in the lexicographic order of attempt and rate-limit count |
| RetryLoop.ReturnsWithinBudget | crates/consumer/src/delivery.rs:639-847 | without "still pending" a loop returns within max_retries * (max_rl_waits + 1) + 1 calls |
| RetryLoop.BudgetIsReached | crates/consumer/src/delivery.rs:639-847 | the decision table by itself allows outcomes that spend the whole budget |
| RetryLoop.ReturnsWithinRareBudget | crates/consumer/src/delivery.rs:639-847 | with at most n rate limits a loop returns within the retries left plus n + 1 calls |
| RetryLoop.StillPendingNeverReturns | crates/consumer/src/delivery.rs:655-660 | on "still pending" alone a loop neither returns nor sleeps |
| Processor.ProcessRecipient | crates/consumer/src/processor.rs:99-265 | table, outcome and message of one attempt are those of the specification that the rows of `Attempts` characterise |
| Attempts.StoppedAttempt | crates/consumer/src/processor.rs:108-192 | an attempt that is stopped at or before its insert fails with the first error, of address, template, sender address, rendering, serialisation and database in this order, and changes and sends nothing |
| Attempts.AttemptOnRow | crates/consumer/src/processor.rs:193-206 | one that finds a row changes and sends nothing; it is done exactly if the row is SENT or BLOCKED |
| Attempts.FreshAttempt | crates/consumer/src/processor.rs:207-264 | one that creates the row is refused exactly if a list blocks the address; otherwise, unless shutdown comes, it sends one message, to this recipient alone with what was rendered and the event's fields, ends as the sender answers, and leaves a row with that status |
| Processor.SendNeedsFreshRow | crates/consumer/src/processor.rs:172-264 | a message goes out only on the call that creates the row; on an existing row a call changes nothing |
| Processor.CallTouchesOneRow | crates/consumer/src/processor.rs:172-264 | an attempt changes no other row and no replay column |
| Processor.ExecuteSend | crates/consumer/src/processor.rs:743-810 | one send after a token, then one mark per target whether or not earlier ones were applied |
| Processor.ProcessGroup | crates/consumer/src/processor.rs:315-710 | table, outcome and message of one group attempt, likewise |
| Attempts.StoppedGroupAttempt | crates/consumer/src/processor.rs:330-486 | a group attempt that is stopped at or before its insert fails with the first error and changes and sends nothing |
| Attempts.GroupAttemptOnRow | crates/consumer/src/processor.rs:488-529 | one that finds the primary's row sends nothing and reports that row |
| Attempts.FreshGroupAttempt | crates/consumer/src/processor.rs:580-710 | one that creates it is refused exactly if the configuration blocks everyone; otherwise, unless shutdown comes, it sends one message with what was rendered and the event's fields and ends as the sender answers, in a fallback if a failed send left a row for everyone |
| Processor.FilterGroup | crates/consumer/src/processor.rs:580-633 | keeps the admitted recipients in order and marks the refused ones BLOCKED |
| GroupSend.FilterRow | crates/consumer/src/processor.rs:580-633 | with its writes applied that loop leaves a refused recipient's row BLOCKED with the reason and every other row as it was |
| GroupSend.ToHeaderExactlyIntended | crates/consumer/src/processor.rs:580-708 | the To: list is the admitted recipients not yet terminal, in order, if and only if the filter admits the first recipient |
| GroupSend.GroupPartition | crates/consumer/src/processor.rs:477-710 | after a successful tracked group send with an admitted first recipient, the To: list is as intended and every recipient's row is SENT or BLOCKED |
| GroupSend.RefusedPrimaryLosesSomeone | crates/consumer/src/processor.rs:656-708 | otherwise a refused address is written to and marked SENT, and an intended recipient gets nothing and keeps a row that is not terminal |
| GroupSend.RowsTerminalIff | crates/consumer/src/processor.rs:477-710 | after such a send every row is terminal exactly if the first recipient is admitted or nobody was left to write to |
| Delivery.ProcessOneRecipient | crates/consumer/src/delivery.rs:623-847 | the loop's table, messages, outcomes and return are those of its recursive specification |
| Delivery.OnFailure | crates/consumer/src/delivery.rs:662-844 | the failure arms follow the decision table and leave the row as recorded, FAILED if shutdown ends the sleep |
| LoopEnds.FailureEndsIff | crates/consumer/src/delivery.rs:662-844 | a failing attempt ends the loop exactly if no attempt can mend it, the policy is no-retry, retries or rate-limit waits are used up or shutdown comes; otherwise the loop goes on with one wait or one retry more |
| LoopEnds.HopelessFailureEnds | crates/consumer/src/processor.rs:1079-1094 | over a whole loop, a template, blocking, not-found, duplicate, unknown-status or permanent mailer error is the last outcome and leaves the row FAILED with its message; under the no-retry policy every error is |
| LoopEnds.HopelessGroupFailureEnds | crates/consumer/src/delivery.rs:900-945 | the same for a group loop and the primary's row |
| LoopEnds.GroupFailureEndsIff | crates/consumer/src/delivery.rs:900-1083 | and for one failing group attempt |
| LoopEnds.FallsBackIff | crates/consumer/src/delivery.rs:867-1083 | a group loop falls back exactly if its last attempt failed with a row for everyone |
| Mailing.LoopMail | crates/consumer/src/processor.rs:241-264 | every message of a loop was made in one of its attempts, for its own recipient alone, with what that attempt rendered and the event's own fields |
| Mailing.LoopTurnsSent | crates/consumer/src/delivery.rs:639-660 | a loop turns its row SENT only if its last attempt was delivered and the mark applied |
| Mailing.DeliveredLoop | crates/consumer/src/delivery.rs:639-660 | and one whose last attempt was delivered has returned and sent its message, with the row SENT if the mark was applied |
| Mailing.LoopTally | crates/store/src/notification_log.rs:442-503 | a row's attempts and failures are counted together, and a recorded delivery raises the attempts alone |
| Mailing.GroupLoopMail | crates/consumer/src/processor.rs:656-708 | every message of a group loop is that of an attempt on the table the loop started with, with what that attempt rendered |
| Delivery.ReturnLeavesSettled | crates/consumer/src/delivery.rs:639-847 | a loop that returns leaves the row SENT, FAILED, BLOCKED or absent, never PENDING, if store writes succeed |
| Delivery.NoRowIff | crates/consumer/src/delivery.rs:662-672 | a recipient ends without a row exactly if it had none and every attempt made failed at or before its insert |
| Delivery.OnlyOwnRow | crates/consumer/src/delivery.rs:639-847 | a whole loop writes its own row only and keeps replay columns |
| Delivery.LooksOnlyAtOwnRow | crates/consumer/src/delivery.rs:577-604 | and depends on its own row only |
| Delivery.LoopSendsAtMostOnce | crates/consumer/src/delivery.rs:639-847 | a whole loop sends at most once, and not at all if the row was there |
| Delivery.LoopFollowsDecisions | crates/consumer/src/delivery.rs:639-847 | the loop runs on until the decision table ends it or a shutdown cuts its last sleep, and ends then |
| Delivery.LoopReturnsWithinBudget | crates/consumer/src/delivery.rs:639-847 | if it hears no "still pending", the composed loop returns within the decision table's budget, shutdowns or not |
| Delivery.LoopHearsOneRateLimit | crates/mailer/src/webhook.rs:131-141 | only the sender answers with a rate limit, so a loop hears at most one, and none if the row was there |
| Delivery.LoopReturnsWithinComposedBudget | crates/consumer/src/delivery.rs:639-847 | so, if it hears no "still pending", the composed loop returns within max_retries + 2 calls: one less without rate-limit waits, one call without retries |
| Delivery.ComposedBudgetIsReached | crates/consumer/src/delivery.rs:639-847 | and that bound is reached by failing calls alone, whatever the configuration |
| FailingCalls.FailuresAreBounded | crates/consumer/src/delivery.rs:655-660 | from any counters and row, and with any "still pending" answers in between: how often the loop can still fail if failures are recorded |
| FailingCalls.LoopFailsAtMost | crates/consumer/src/delivery.rs:639-847 | for a whole loop that is max(2 * max_retries, max_retries + 2), less without rate-limit waits or retries |
| FailingCalls.FailureBudgetIsReached | crates/consumer/src/delivery.rs:639-847 | and that bound is reached, whatever the configuration |
| FailingCalls.LostMarksUnboundIff | crates/consumer/src/delivery.rs:655-672 | if failures may go unrecorded, a loop can fail any number of times and still run exactly if max_retries is not zero |
| Delivery.SpinsOnExistingRow | crates/consumer/src/delivery.rs:655-660 | on a row that is not terminal the loop runs on for any number of iterations without a send or a change |
| Delivery.ReturnsIffCreatingAttemptIsFinal | crates/consumer/src/delivery.rs:639-847 | at any counters, a loop that starts with the attempt that creates the row returns exactly if that attempt ended delivered, refused or given up |
| Delivery.EarlyFailuresOnlyCount | crates/consumer/src/delivery.rs:662-844 | failures at or before the insert change nothing but the counters, or end the loop without a row |
| Delivery.ReturnsIffRowCreationIsFinal | crates/consumer/src/delivery.rs:639-847 | the whole loop after any number of such failures: when it returns, what it sent and how it leaves the row |
| Delivery.DispatchIndividually | crates/consumer/src/delivery.rs:577-607 | the dispatch leaves the table its tasks leave, sends what they send and ends if they do; unless its task panicked every recipient's row is settled, and messages carry the event's content to its recipients only |
| Delivery.TasksAreIndependent | crates/consumer/src/delivery.rs:577-604 | tasks of distinct recipients leave each row as its task alone would and end exactly if each alone would, so their order does not matter |
| Mailing.DispatchMail | crates/consumer/src/delivery.rs:577-607 | every message of a dispatch was made for one of its recipients alone, in one of that recipient's attempts |
| Mailing.DispatchMailsOnce | crates/consumer/src/delivery.rs:577-607 | a dispatch writes to an address at most once, not at all if its row was there, and turns a row SENT only together with a message to exactly that address |
| Delivery.ProcessOneGroup | crates/consumer/src/delivery.rs:867-1083 | the group loop's table, messages and outcomes, and the table its fallback leaves, whatever the attempts answer |
| Delivery.FallbackHasRows | crates/consumer/src/processor.rs:441-533 | the group loop falls back only when every recipient has a row |
| Delivery.FallbackToIndividualSends | crates/consumer/src/delivery.rs:1099-1190 | the fallback sends nothing and adds no row, leaves the table of its recipients' loops and ends if they do; if attempts reach their insert it changes no row and ends only when every row is terminal or its task panicked |
| Delivery.GroupLoopSendsAtMostOnce | crates/consumer/src/delivery.rs:867-1083 | a whole group loop sends at most one message, none if the primary's row was there |
| Delivery.GroupLoopFollowsDecisions | crates/consumer/src/delivery.rs:879-1083 | the group loop runs on until the decision table ends it or a shutdown cuts its last sleep, and ends then |
| Delivery.GroupLoopReturnsWithinBudget | crates/consumer/src/delivery.rs:879-1083 | so, if it hears no "still pending", it hears at most one rate limit and returns or falls back within max_retries + 2 calls |
| Delivery.GroupReturnSettlesPrimary | crates/consumer/src/delivery.rs:879-1083 | a group loop that returns leaves the primary's row settled |
| Fetcher.FetchOneWithRetry | crates/mailer/src/fetcher.rs:172-236 | the attempt loop computes its specification |
| Fetcher.FirstDecisiveAttempt | crates/mailer/src/fetcher.rs:172-236 | a fetch succeeds or fails for good exactly if some attempt does, with no shutdown so far and only retryable errors before |
| Fetcher.FetchMeans | crates/mailer/src/fetcher.rs:172-325 | over the raw answers: a fetch delivers the attachment exactly if some request, after nothing but network errors, 429s, 5xx and broken bodies and with no shutdown so far, gets a body of allowed size; it fails for good exactly if such a request gets another 4xx or too large a body |
| Fetcher.ValidRefIff | crates/common/src/event.rs:414-457 | a reference is valid exactly if it has an HTTP URL, a plain file name and a MIME type and its maximum age, in whole seconds, is not exceeded |
| Fetcher.FetchAttachments | crates/mailer/src/fetcher.rs:84-162 | all attachments in order, or the first validation error, or the representative of the fetch errors |
| Fetcher.RepresentativeIsFirstRetryable | crates/mailer/src/fetcher.rs:144-160 | the surfaced error is the first worth requeueing, or else the first |
| Fetcher.FailsForGoodIff | crates/mailer/src/fetcher.rs:84-162 | the surfaced error is permanent exactly if a reference is invalid, or some attachment is lost for good and every other one is lost or delivered, in terms of the raw answers |
| Fetcher.FetchSucceedsIff | crates/mailer/src/fetcher.rs:84-162 | fetching succeeds exactly if every reference is valid and every attachment is delivered, and gives them in order |
| HandleDelivery.Handle | crates/consumer/src/delivery.rs:218-608 | a completed delivery is settled once and in one way, whether or not the settlement reaches the broker; a deferred message touches neither store nor sender; an acknowledged due event leaves the table, messages and end of its dispatch, and no row PENDING but those of panicked tasks |
| Handled.EachOwnLoop | crates/consumer/src/delivery.rs:577-607 | that dispatch gives every individual recipient the row of its own loop run alone on its own answers, sends the loops' messages, and ends exactly if each loop does or its task panicked |
| Handled.GroupThenOwnLoops | crates/consumer/src/delivery.rs:867-1190 | and for a group it does what the group loop does and, after a fallback, what the loops of the recipients not read as terminal do |
| Handled.FreshRecipientIsServed | crates/consumer/src/delivery.rs:458-607 | a recipient without a row whose first attempt goes well gets exactly one message, with what was rendered, the event's sender, its allowed copies and its attachments in order, and a SENT row, whatever becomes of the others |
| Handled.FreshGroupIsServed | crates/consumer/src/delivery.rs:458-607 | so does a group whose first attempt goes well: one message to those still to be written to, a SENT row for the first and, where each has a row, a terminal one for all |
| HandleDelivery.NeverLostUnlessDone | crates/consumer/src/delivery.rs:361-422 | the broker loses a copy of a message exactly if an acknowledgement of a message that was not deferred, or a dead-lettering, reaches it; a deferred one stays in some queue whatever the broker answers |
| HandleDelivery.SettledIff | crates/consumer/src/delivery.rs:229-456 | a message is dead-lettered exactly if it does not decode, or is due and its attachments cannot be had; it is acknowledged exactly if nothing can be delivered, its deferral is confirmed, or it is due and has its attachments |
| HandleDelivery.InsertSentinelFailedRow | crates/consumer/src/delivery.rs:1198-1275 | one FAILED row for the first recipient, unless its row is terminal |
| HandleDelivery.SentinelFails | crates/consumer/src/delivery.rs:1198-1275 | with both statements applied that row ends FAILED with the reason, and no other row is touched |
| HandleDelivery.FilterCopies | crates/consumer/src/delivery.rs:470-531 | the loop over the copies computes the kept ones |
| HandleDelivery.KeptAreTheAllowed | crates/consumer/src/delivery.rs:470-531 | kept are exactly the valid, unblocked copies, as often as given; other list errors let them pass |
| HandleDelivery.KeptSplits | crates/consumer/src/delivery.rs:470-531 | and in the order given |
| Deferral.HandlingIsPass | crates/consumer/src/delivery.rs:361-430 | handling a scheduled message does to the broker what one step of the deferral machine does, and defers it exactly if it is not due |
| Deferral.DeferralsEnd | crates/consumer/src/delivery.rs:361-430 | over every run, all copies counted: at most two deferrals with an honoured time to live (with a capped one, as many as full caps fit into the wait and one for the rest), plus those that left the broker the original and what the copies these stored still need |
| Deferral.CopiesAddUp | crates/consumer/src/delivery.rs:361-430 | until it is due the message is there in exactly one copy more than deferrals have left two; never in more |
| Deferral.UnconfirmedStays | crates/consumer/src/delivery.rs:361-430 | if no publish is ever confirmed, every deferral leaves the original in the main queue or with a consumer |
| Deferral.DeferralsUnboundIff | crates/consumer/src/delivery.rs:361-430 | any number of deferrals at one instant, each storing one more delayed copy, are possible exactly if a publish may go unconfirmed or a settlement get lost |
| DeliveryProtocol.InvStep | crates/consumer/src/processor.rs:172-264 | every step keeps one owner per row, sends tied to rows, and SENT rows without an owner |
| DeliveryProtocol.AtMostOneSend | crates/consumer/src/processor.rs:172-264 | over all interleavings a recipient is sent to at most once per event |
| DeliveryProtocol.SendsOnlyBeforeTheRow | crates/consumer/src/processor.rs:193-264 | a run that sends again exists exactly while there is no row or its first driver still holds it |
| DeliveryProtocol.OnlyEarlyFailuresUnsend | crates/store/src/notification_log.rs:442-534 | a step takes a row out of SENT exactly if it is an applied failure mark for it, and then its driver failed at or before its insert |
| DeliveryProtocol.SentIsLostIff | crates/consumer/src/delivery.rs:662-844 | without further failures before an insert SENT can be lost exactly while one of the recipient's drivers has such a failure to record or sleeps after one |
| DeliveryProtocol.SentIsAbsorbing | crates/consumer/src/delivery.rs:662-844 | otherwise SENT is absorbing over all interleavings in which this recipient's preparation and inserts succeed from here on |
| DeliveryProtocol.SentIsAbsorbingFromStart | crates/consumer/src/delivery.rs:662-844 | and so it is from the start, over all interleavings in which they always succeed for this recipient |
| DeliveryProtocol.RedeliveryUnsends | crates/consumer/src/delivery.rs:662-672 | that hypothesis is needed: any SENT row can be turned FAILED by one redelivery |
| DeliveryProtocol.SentIsLostFromStart | crates/consumer/src/delivery.rs:662-672 | and this is reached from an empty table |
| DeliveryProtocol.DispatchSettles | crates/consumer/src/delivery.rs:577-607 | however the loops of distinct recipients interleave, statement by statement and with everything else, once all have returned every row is settled, if the store answers them and no retry call reopens their rows |
| DeliveryProtocol.WhoReopens | crates/store/src/notification_log.rs:819-869 | a FAILED or BLOCKED row becomes PENDING through one retry call that claims it, or a loop's unguarded write |
| DeliveryProtocol.OneCallPerReopening | crates/api/src/handlers.rs:758-829 | over any run reopenings and claiming calls match one to one |
| DeliveryProtocol.RevertUndoesOwnReopenings | crates/api/src/handlers.rs:718-744 | over any run a revert changes a row exactly if its own call reopened it earlier and it is still PENDING, and makes it FAILED |
| DeliveryProtocol.PendingIsRecent | src/main.rs:447-479 | with a reaper that runs on time a PENDING row was written within the reaper's timeout plus one period, in every reachable state |
| DeliveryProtocol.BoundedRecovery | crates/store/src/notification_log.rs:1014-1045 | with such a reaper an abandoned PENDING row turns FAILED within that time while redeliveries keep inserting it |
| LoopRefinesProtocol.CallIsRun | crates/consumer/src/processor.rs:99-265 | one attempt is a run of its driver: same table, same sends |
| LoopRefinesProtocol.AttemptIsRun | crates/consumer/src/delivery.rs:639-847 | one attempt with the loop's write after it is a run of its driver |
| LoopRefinesProtocol.ScheduleIsRun | crates/consumer/src/delivery.rs:577-604 | any schedule of loops, attempt by attempt, with wake-ups and shutdowns as moves of their own and any other actions before, between and during sleeps, is a run of the protocol |
| LoopRefinesProtocol.ScheduledLoop | crates/consumer/src/delivery.rs:577-604 | in any schedule that leaves its row to it, a loop's row, sends and return are those of the loop run alone on the answers and shutdown it got |
| LoopRefinesProtocol.ScheduledLoopSettles | crates/consumer/src/delivery.rs:577-607 | so it returns with its row settled, or with none exactly if every attempt failed before its insert |
| Event.RecipientsRoundTrip | crates/consumer/src/processor.rs:276-300 | stored recipient lists decode to themselves |
| Event.AttachmentsRoundTrip | crates/consumer/src/processor.rs:1002-1033 | stored attachment lists decode to themselves |
| Replay.LoopWrites | crates/consumer/src/processor.rs:167-190 | whatever an individual loop goes through, the event's rows carry the columns of the consumer's insert |
| Replay.GroupCallWrites | crates/consumer/src/processor.rs:411-483 | the same for group attempts |
| Replay.GroupLoopWrites | crates/consumer/src/delivery.rs:867-1083 | for whole group loops |
| Replay.FallbackWrites | crates/consumer/src/delivery.rs:1099-1188 | and for the fallback |
| Replay.RebuildIff | crates/api/src/handlers.rs:42-327 | from any rows a rebuild succeeds exactly with the event they ask for: known statuses, some row that is not SKIPPED, stored fields that decode, a valid sender address, attachments not expired, no blocked copy and a payload |
| Replay.RebuildRoundTrip | crates/api/src/handlers.rs:42-327 | from rows the consumer wrote a rebuild succeeds exactly if the listed rows allow it and the stored event is still replayable, and then gives the published event back |
| Replay.RebuiltRecipients | crates/api/src/handlers.rs:123-144 | a rebuilt event is addressed to the event's own recipients whose rows were asked for |
| Replay.BulkRetryReplaysTheFailed | crates/api/src/handlers.rs:794-829 | a bulk retry of at most 500 rows replays the event to exactly the recipients that were FAILED, each once |
| Replay.CapLeavesRowsBehind | crates/store/src/notification_log.rs:700-701 | with more than 500 reset rows some are left without a message |
| Replay.WholeGroupShrinksToPrimary | crates/api/src/handlers.rs:131-144 | a group stored as a whole is rebuilt for its primary alone |
| Replay.RetryApi.RepublishEvent | crates/api/src/handlers.rs:42-327 | succeeds exactly if the event is rebuilt and the publisher reports success; the broker then has the rebuilt event exactly if it stored it, whatever was reported |
| Replay.RetryApi.RepublishOrRevert | crates/api/src/handlers.rs:718-744 | on success the rows stay reset, on failure they are reverted if the database allows; either way the broker has the rebuilt event exactly if it was built and stored |
| Replay.RetryApi.RetryRecipient | crates/api/src/handlers.rs:758-785 | resets one retryable row and publishes; a failed re-enqueue leaves the set of retryable rows as it was, though its event may be queued; without a reset nothing is published |
| Replay.RetryApi.RetryEvent | crates/api/src/handlers.rs:794-829 | the same for all FAILED rows of an event, which it reports |
| Replay.RevertUndoesReset | crates/store/src/notification_log.rs:819-899 | reset then revert restores the set of retryable rows and touches no other row |
| Outbox.SortIsStable | crates/outbox/src/worker.rs:242-251 | sorting keeps the rows, orders them by rising sort key and keeps rows of one key in query order |
| Outbox.NumbersRise | crates/outbox/src/worker.rs:246-251 | in terms of the payloads: of two rows of a sorted batch the later has no smaller priority number, and if only the later has one it is the largest there is |
| Outbox.NumberedFirstIff | crates/outbox/src/worker.rs:246-251 | that exception is real: an older row without a number goes behind a numbered one exactly if the number is not the largest |
| Outbox.EqualsKeepOrder | crates/outbox/src/worker.rs:244-251 | rows with equal numbers, and rows without one, keep the order of the query |
| Outbox.HasEnvelopeIff | crates/outbox/src/worker.rs:380-381 | an envelope can be built exactly if the recipients, or the one recipient, decode |
| Outbox.OutboxDb.SelectWaiting | crates/outbox/src/worker.rs:315-329 | the claiming query: the oldest waiting rows nobody has locked, fewer than the limit only if there are no more |
| Outbox.OutboxDb.FetchPendingBatch | crates/outbox/src/worker.rs:308-353 | exactly the returned rows are claimed |
| Outbox.OutboxDb.PublishAndMark | crates/outbox/src/worker.rs:355-514 | marks only after a broker acknowledgement, only an IN_PROGRESS row, and takes no matching row for success |
| Outbox.OutboxDb.RecordPublishFailure | crates/outbox/src/worker.rs:527-556 | counts the failure and frees or gives up the row, whatever its status |
| Outbox.OutboxDb.PublishBatch | crates/outbox/src/worker.rs:252-276 | the batch in order, stopping only at a failure on a dead channel |
| Batches.DrainStops | crates/outbox/src/worker.rs:252-276 | the batch is handled in order to its end, or to the first row that fails on a dead channel, and the rest is left as claimed; the acknowledged rows are those with an envelope and a confirm |
| Batches.DrainRows | crates/outbox/src/worker.rs:252-276 | each handled row ends as it would alone and no other row changes |
| Batches.RowEnds | crates/outbox/src/worker.rs:486-556 | a claimed row ends PUBLISHED exactly if acknowledged and marked with no failure recorded after it; a recorded failure counts, frees the row or gives it up at the limit; else it stays claimed |
| Outbox.OutboxDb.PollOnce | crates/outbox/src/worker.rs:237-287 | one cycle claims, sorts and publishes a batch, and says whether there was work |
| Outbox.OutboxDb.ReapStaleInProgress | crates/outbox/src/worker.rs:580-595 | frees exactly the overdue claims, claims without a time included |
| OutboxProtocol.InvStep | crates/outbox/src/worker.rs:527-541 | every step keeps the failure counts, locks and acknowledgements in line with the status, removes no row and revives no exhausted one |
| OutboxProtocol.NoRowIsLost | crates/outbox/src/worker.rs:308-353 | over all interleavings, with the reaper on time, late or dead, a committed row is waiting or claimed below the limit, given up at the limit for good, or published with an acknowledged message |
| OutboxProtocol.OnlyRecordsUnpublish | crates/outbox/src/worker.rs:527-541 | a step takes a row out of PUBLISHED exactly if it is an applied failure record for it |
| OutboxProtocol.UnpublishedIffQueued | crates/outbox/src/worker.rs:237-287 | some run takes a published row out of PUBLISHED exactly while a worker queues it, with or without truthful replies, a single worker or a punctual reaper |
| OutboxProtocol.UnpublishingNeedsReap | crates/outbox/src/worker.rs:580-594 | with truthful replies and any number of workers, only if the reaper once took the row from one |
| OutboxProtocol.PublishedIsAbsorbing | crates/outbox/src/worker.rs:237-287 | with one worker at a time and truthful replies no published row is queued, so PUBLISHED is absorbing |
| OutboxProtocol.LostReplyUnpublishes | crates/outbox/src/worker.rs:499-541 | without truthful replies one worker, from the start, takes a row out of PUBLISHED |
| OutboxProtocol.LateRecordUnpublishes | crates/outbox/src/worker.rs:499-541 | with truthful replies and whatever the lock timeout, two workers, from the start, do so after a reap |
| OutboxProtocol.LateRecordUnpublishesOnTime | crates/outbox/src/worker.rs:580-618 | a reaper that is never late does not prevent it |
| OutboxProtocol.RecoveredInTime | crates/outbox/src/worker.rs:580-618 | with a reaper that runs on time a claim is never older than the lock timeout plus one reaper period, so one and a half timeouts if it runs twice a timeout |
| OutboxProtocol.AbandonedRowsWait | crates/outbox/src/worker.rs:580-594 | a claimed row no worker queues is moved by the reaper alone, back to PENDING |
| OutboxProtocol.BatchIsRun | crates/outbox/src/worker.rs:252-276 | a published batch, its answers coming at any rising times, is a run of its worker, so the interleaving results apply to the poll cycle |
| TemplateFile.Slots.StoreSection | crates/anctl/src/cmd/template.rs:107-137 | fills one empty slot, refuses a full one |
| TemplateFile.MarkerLineIff | crates/anctl/src/cmd/template.rs:55-105 | a line opens a section exactly if it holds the marker and white space only |
| TemplateFile.TrimIs | crates/anctl/src/cmd/template.rs:107-137 | trimming leaves what stands between the white space at both ends |
| TemplateFile.ParseJ2 | crates/anctl/src/cmd/template.rs:55-105 | succeeds exactly if each marker stands on one line, with the trimmed text up to the next marker |
| TemplateFile.RoundTrip | crates/anctl/src/cmd/template.rs:55-136 | printed in any order and parsed, three sections come back unchanged exactly if each is trimmed, free of CR LF and free of marker lines |

## Left out

- Other writers of the status table in the interleaving model: `DeliveryProtocol` has
  individual-mode drivers only. A group loop, the row for an oversized event and the SKIPPED row
  are covered alone (`Delivery`, `GroupSend`, `HandleDelivery`).
- Delivery.DispatchIndividually: runs the recipients' tasks in turn; that their order does not
  matter is `Delivery.TasksAreIndependent`, and that any schedule of them gives each recipient
  the same `LoopRefinesProtocol.ScheduledLoop`. A task that panics does so between two
  iterations; a driver that stops at any statement is `DeliveryProtocol`'s `Crash`.
- Delivery.FallbackToIndividualSends: runs its tasks in turn, likewise.
- HandleDelivery.Handle: the recipient text of the row for a skipped event stands without the
  event id, which is part of the key. A redelivery is a further call, and a further driver of
  `DeliveryProtocol`.
- Fetcher.FetchAttachments: the concurrent fetches are taken in reference order.
- Replay.RetryApi.RepublishEvent: publishes once; the publisher's second try, after a first that
  failed before its confirm, is not modelled.
- Replay.RetryApi.RetryEvent: recipients are a set; the response lists them in the order of the
  database's RETURNING clause, which SQL leaves open.
- BlockList.CacheHitStaleness: the cache library appears as insert, evict and expire, and a
  load takes at most a given span; edits of the table by hand are not modelled.
- LoopRefinesProtocol.ScheduledLoop: interleaves attempts, wake-ups and shutdowns; statements of
  different loops interleave in `DeliveryProtocol`, where `DispatchSettles` is proved.
- Deferral.DeferralsEnd: follows one message; that the hold of a copy may come late is modelled,
  not why.
- The length of a sleep: a driver may wake at any time after it falls asleep.
- The choice of the mail transport by sender account.
- Widths of the retry, attempt and failure counters: they are natural numbers; 64-bit
  saturation and the 64-bit startup sum are modelled.
- JSON text, the legacy event shape, metadata, priority beyond the outbox order, and the
  field-by-field building of the outbox envelope: values only, and whether it can be built.
- Address syntax: a predicate. Template rendering, serialisation and the rate limiter: oracles.
- The template cache: same pattern as the block-list cache.
- AMQP topology, connections, heartbeats, idle back-off of the poll loop, authentication,
  metrics, logging and the command line.

# Verified model of the prepaid SMS pipeline

The API accepts a message by charging an account and writing a message row and an outbox event in one
transaction; an outbox relay publishes the event to RabbitMQ; a worker claims the copy, calls the
operator and settles the message. This project models that pipeline in Dafny and proves what it keeps
under every interleaving, crash, lost acknowledgement and failed call, and where its promises end.

`dafny verify dfyconfig.toml` checks the whole project.

## How it is built

- **Delivery** is a step machine over one database, one broker and any number of relays and handlers
  (`Pipeline`). Each step is one atomic call. A handler's uncommitted rows are carried by its program
  counter, so a crash rolls them back; another handler's insert or update of a locked row is not enabled
  until the lock is gone. Every write to the database or the broker ends in one of three ways: done,
  refused, or *unsure* - it took effect and still reported a failure. Copies appear from outside,
  channels drop, handlers crash, leases run out. `NoLoss`, `OperatorCalls`, `SentProvenance`,
  `SentWitnesses`, `DeadLetters`, `DeadLetterReach`, `Leases` and `Recovery` prove properties of all
  its runs.
- **The code itself** is modelled imperatively against that machine. `Worker.Processor` is
  `handleDelivery` with its claim, mark, release and dead-letter calls; `OutboxRelay.Relay` is `pollOnce`
  with its batch claim (`OutboxBatch`), publish, retry and record loops. They work on a `Shared.World` in
  which everybody else may take any steps between two calls; the state stays one that a run of the machine leads to, so
  every theorem about runs holds of the code.
- **Accepting and charging.** `Money` says what one Send or Topup does when it runs alone and what every
  sequence of them keeps. `Transactions` runs any number of them statement by statement under row locks,
  key conflicts and READ COMMITTED and proves the result serializable. `Services` is `Send` and `Topup`
  statement by statement among other open transactions. `EndToEnd` puts both halves over one database.
- **Around it**: the limiter on its sorted set (`RateLimit`), the Redis-first idempotency lookup
  (`Snapshots`, `IdempotencyCache`), publisher confirms under a mutex (`Confirms`), keyset pagination
  (`Pagination`), the two handler pools (`Bulkheads`), and attempt counting (`Retry`).

## What turned out not to hold

- **`sent` does not mean the operator accepted the message.** A redelivered copy that meets an existing
  claim row marks the message sent without a call. `SentWitnesses.SentIsTrueIffNoMishap` is the exact
  condition: of seven named mishaps, "sent implies exactly one success" holds of every run in which only a
  given set of them may happen, if and only if that set is empty. One of the seven is an orderly shutdown:
  `cmd/worker/main.go:105` cancels the context the release of the claim runs under. `failed`, by contrast,
  is exact (`OperatorCalls.FinalStatusIsBacked`).
- **Dead-lettering does not happen with the default maximum.** SUBMISSION_EN.md promises the DLQ after
  five attempts, but the queues are declared without a dead-letter exchange, so no copy carries an
  `x-death` header and a redelivery counts as one attempt however often it happens.
  `DeadLetterReach.DeadLetteringIffMaximumIsOne`: a message can be dead-lettered if and only if the
  configured maximum is one.
- **A failed mark is not retried on the next poll**, as SUBMISSION_EN.md says: no claim reaches the mark
  without publishing a copy of its own first (`Leases.NoMarkWithoutCopy`), so an event whose marks keep
  failing is published once per claim, without end (`Leases.PublishedAgainAtEveryClaim`), though never more
  often (`Leases.CopiesNeverExceedClaims`).
- **The lease is exclusive only while relays are in time.** `Leases.LeaseIsExclusive` needs the relays that
  claim an event to let go of it by `locked_until`. One of them a tick too slow is enough for two others,
  both inside their leases, to hold the event: recording its failure clears a lock that is no longer its own
  (`Leases.LateRelayUnlocksOthers`).
- **A nil from Publish means the message's own ack only with one shared cancellation** and no confirm left
  by a publish that errors; `Confirms.SeparateContextsMixUp` and `Confirms.LeftoverConfirmMixesUp` show
  a caller told nil for a message the broker refused. `Confirms.OwnConfirmIffNoneStale` is the exact
  condition per call.
- **The limit holds in windows 256 ns shorter than configured**, because scores are doubles, and in no
  longer ones: `RateLimit.WindowBoundIff`, for every limit and every window from the limit plus 256 ns up to
  2^58 ns. `RateLimit.WindowBoundExact` says when the whole window holds.
- **Retry-After can be too short.** The limiter ignores a failed removal of the refused call's own member.
  `RateLimit.FailedRemovalMisleads`: a client told five seconds comes back then, alone, and is refused.
  `RateLimit.ComeBack` and `RateLimit.RetryIsEnoughIff` give the exact condition, and that the wait is enough
  whenever no fault has left a member behind, or the oldest member could not be read.

## Assumptions

One clock; limiter calls for an account one at a time at distinct instants; instants and horizons between
2^60 and 2^61 ns (2006 to 2043);
random UUIDs are fresh; a client library hands over confirms in publish order; a confirmed publish is a
durable copy; a negative acknowledgement with requeue keeps the headers and sets the redelivered flag; a
transaction keeps row locks and its key row until it ends. A call that waits for a lock and is cut short
is a failed call.

## Model

| member | source | states |
|---|---|---|
| NoLoss.AcceptedIsNeverLost | internal/worker/processor.go:110-218 | in every reachable state a message still accepted has a pending outbox event, or a copy with its own ids the broker has not been told to forget |
| NoLoss.DrainedMeansFinished | internal/outbox/relay.go:93-162 | when the outbox is published and the queues are empty, every message has a final status |
| NoLoss.TerminalForever | internal/repository/sms.go:123-173 | over any run rows are neither removed nor readdressed, and a final status never changes |
| NoLoss.AcksWork | internal/worker/processor.go:110-121 | every step keeps: a handler that will ack works on a message that is finished or does not exist for its account |
| NoLoss.MarksRelay | internal/outbox/relay.go:144-159 | every relay step keeps: an event being marked published has its message finished or covered by a copy |
| NoLoss.PendingSurvives | internal/repository/outbox_relay.go:79-117 | an event stops being pending only once its message is covered by a copy or finished |
| Recovery.NothingGetsStuck | internal/worker/processor.go:110-218 | from every reachable state, whatever has crashed or failed, every message is finished or can still be sent, or buried when its copy has used up its attempts |
| Recovery.Claiming | internal/worker/processor.go:254-305 | a redelivered copy of an accepted message can get it `sent`, whether or not a claim row was left behind |
| Recovery.Waiting | internal/repository/outbox_relay.go:24-47 | a pending event whose lock was left behind can be leased, published and delivered once the lock has run out |
| Wellformed.MessagesGrow | internal/repository/sms.go:123-173 | no handler step, guarded update or commit of a dead letter, overwrites a final status |
| Wellformed.LockedRowKept | internal/worker/processor.go:227-244 | while a dead-letter transaction holds a message row, no other handler changes what it saw |
| Wellformed.RowLocksWork | internal/worker/processor.go:228-241 | a message row is locked by one open transaction at a time |
| Wellformed.HoldersStep | internal/worker/processor.go:82-103 | a live handler that still holds its copy was told that copy's payload and headers |
| OperatorCalls.OperatorCallsNeverOverlap | internal/worker/processor.go:160-207 | calls for one message never overlap, in any run; results are transient failures followed by at most one success, refusal, crash or running call |
| OperatorCalls.CallersOwnTheClaim | internal/repository/processed_consumer.go:30-44 | a call is made only under a committed claim row that no other handler has inserted or is inserting |
| OperatorCalls.FinalStatusIsBacked | internal/worker/processor.go:183-213 | `failed` means exactly one refusal and no success; `sent` means exactly one success unless a redelivered copy resumed a claim |
| OperatorCalls.DecidedForever | internal/worker/processor.go:294-298 | once a call ended other than transiently nobody calls the operator for the message again |
| OperatorCalls.ExclusiveStep | internal/repository/processed_consumer.go:30-71 | at most one handler owns a message's claim, across inserts, releases and crashes |
| OperatorCalls.DecisiveOnce | internal/worker/processor.go:169-207 | in such a sequence every result but a transient one occurs at most once, and then last |
| SentProvenance.SentMeansDelivered | internal/worker/processor.go:176-213 | in every run without any of seven named mishaps for the message, `sent` means exactly one operator success, its last word |
| SentProvenance.OneHandler | internal/worker/processor.go:82-103 | with one copy of a message, at most one handler works on it |
| SentWitnesses.EveryMishapMatters | internal/worker/processor.go:294-298 | for each of the seven mishaps, a run with that one alone ends `sent` without any operator success |
| SentWitnesses.SentIsTrueIffNoMishap | internal/worker/processor.go:176-213 | `sent` implies exactly one success in all runs confined to a set of permitted mishaps, if and only if the set is empty |
| DeadLetters.DeadLetterKeepsItsCopy | internal/worker/processor.go:227-252 | a dead-lettered message is on the DLQ, or a copy that must be dead-lettered again is still with the broker, whatever failed after the status commit |
| DeadLetters.DlqHoldsOnlyFinished | internal/worker/processor.go:152-158 | a message on the DLQ has a final status |
| DeadLetters.AttemptsNeverFall | internal/worker/retry.go:5-13 | a requeued copy counts at least the attempts it counted before and stays due for dead-lettering |
| DeadLetterReach.DeadLetteringIffMaximumIsOne | internal/broker/rabbitmq.go:60-75 | on queues without a dead-letter exchange a message can become dead-lettered if and only if the maximum is one |
| Leases.LeaseIsExclusive | internal/repository/outbox_relay.go:13-65 | when the relays that claim an event let go by its lock, it is never in two relays' hands, although recording a failure clears the lock unconditionally |
| Leases.LateRelayUnlocksOthers | internal/repository/outbox_relay.go:105-117 | one late relay's recorded failure clears another's lock, and two relays inside their leases hold one event |
| Leases.NoRivalStep | internal/repository/outbox_relay.go:24-47 | while leases are kept no other relay can take any step about an event in hand |
| Leases.NoMarkWithoutCopy | internal/outbox/relay.go:144-159 | a claim that is marking, or looking again after a failed mark, has published a copy of its own |
| Leases.PublishedAgainAtEveryClaim | internal/outbox/relay.go:99-107 | for every n there is a run in which every mark is refused, and the event is claimed and published n times and pending still |
| Leases.CopiesNeverExceedClaims | internal/outbox/relay.go:123-162 | timing aside, the copies ever published of an event never exceed the claims ever made on it |
| Leases.PublishedForever | internal/repository/outbox_relay.go:79-117 | a published event is never leased, counted as failed or reverted |
| Worker.Processor.HandleDelivery | internal/worker/processor.go:110-218 | a copy is put back if and only if one of the handler's own calls failed, its answer was transient, or on its first delivery it met somebody else's claim; otherwise it is acked, and then nothing is left to do; what is done follows from what was found, with any steps of anybody between any two calls; an ack that arrives removes the copy, a nack puts it back; the state is one the machine reaches |
| Worker.Processor.Process | internal/worker/processor.go:123-218 | every path through the body ends at the deferred settle, requeueing exactly with an excuse, having called the operator exactly when it won the claim of an accepted message, and having marked what the answer asks for |
| Worker.Processor.Decode | internal/worker/processor.go:123-158 | an undecodable body is acked, one due for dead-lettering goes there, any other goes to the claim |
| Worker.Processor.ClaimDelivery | internal/worker/processor.go:254-305 | read, insert, second read after a conflict: acquired means the claim is committed and no other handler has it or is inserting it, resume only for a redelivery, done only for a finished or missing message |
| Worker.Processor.GetMessage | internal/repository/sms.go:52-68 | the committed row is what decides claim, skip, resume or requeue, as the two reads of the claim do |
| Worker.Processor.MarkProcessedIfNew | internal/repository/processed_consumer.go:30-44 | the row is new exactly when none is committed, and then nobody else is inserting one |
| Worker.Processor.CommitClaimTx | internal/worker/processor.go:256-304 | when the claim transaction reports success the row is committed |
| Worker.Processor.ReleaseClaim | internal/repository/processed_consumer.go:58-71 | a successful release leaves no claim row; either way the copy is requeued |
| Worker.Processor.SetStatus | internal/worker/processor.go:311-341 | a matching update leaves exactly the new status, and success always leaves the message finished |
| Worker.Processor.MarkDeadLetteredIfAccepted | internal/repository/sms.go:143-157 | reports a match exactly when the message was accepted and its row is now locked |
| Worker.Processor.DeadLetter | internal/worker/processor.go:227-252 | success means the message is finished and the payload is on the DLQ |
| Worker.Processor.CommitDeadTx | internal/worker/processor.go:228-244 | a reported commit has written the matched status and the inserted claim together |
| Worker.Processor.CallOperator | internal/worker/processor.go:169-181 | the recorded last call for the message is the answer acted on |
| Worker.Processor.PublishToDlq | internal/broker/rabbitmq.go:155-157 | success means the payload is on the DLQ; otherwise the copy is requeued |
| Worker.Processor.Settle | internal/worker/processor.go:111-121 | an ack is sent only when nothing is left to do, and removes the copy; a nack that arrives puts the same payload back on its queue, redelivered |
| Worker.Processor.OnDelivery | internal/worker/processor.go:82-103 | a delivery that gets no token is put back unread, one that does is handled as HandleDelivery says; the copy is gone only after an ack |
| Worker.Processor.Deliver | internal/worker/processor.go:167-218 | whoever has the claim calls the operator once and marks sent, marks failed or releases as the answer asks; a resumed copy marks sent without calling |
| Worker.SmoothDelivery | internal/worker/processor.go:160-218 | when no call fails, the message is accepted and the claim free: exactly one operator call, whose answer is its last word; acked unless transient, with the message `sent` or `failed` as answered unless it was finished otherwise before the mark |
| Worker.AckIsSafe | internal/worker/processor.go:110-121 | in a reachable state a handler about to ack has nothing left to do |
| OutboxRelay.Relay.PollOnce | internal/outbox/relay.go:93-121 | claims the oldest eligible events found in the course of the call, up to the limit; while leases are kept, each event let go of is by then: without a failure published, with a confirmed copy of its payload on its own queue; after a failed mark as leased, or published by a mark that did not say so; after any other failure unlocked and retried once more, or as leased only if the recording was refused; every reported failure is that of a call made; with no other relay it stays so and all other events are untouched; a poll sleeps at most 500 ms an event, 25 s at the default batch, inside the 30 s lease |
| OutboxRelay.Relay.ClaimPendingBatch | internal/repository/outbox_relay.go:13-65 | locks only eligible events, different ones, oldest first, as many as the limit allows, and changes no other |
| OutboxRelay.Relay.PublishEvent | internal/outbox/relay.go:123-162 | a reported failure is that of a call made: the look, the decoding, the publish, or five marks; a failed mark comes only after a confirmed publish; no error means published |
| OutboxRelay.Relay.CheckPublished | internal/outbox/relay.go:123-135 | an event published meanwhile is dropped, a failed look or an undecodable payload ends in recording a failure |
| OutboxRelay.Relay.MarkPublishedWithRetry | internal/outbox/relay.go:164-181 | no error only if the event is published; an error only after five attempts none of which succeeded; time slept is 0, 50, 150, 300 or 500 ms by the number of attempts, and has passed |
| OutboxRelay.Relay.MarkPublishedOnce | internal/repository/outbox_relay.go:79-103 | success means published, also when somebody else published it first |
| OutboxRelay.Relay.LookAgain | internal/repository/outbox_relay.go:67-77 | ends the retries when the event is published after all |
| OutboxRelay.Relay.RecordPublishFailure | internal/repository/outbox_relay.go:105-117 | when it takes effect the event is published or unlocked with a retry counted; with leases kept a pending event is unlocked with exactly one retry more, or left alone if the update was refused |
| OutboxRelay.Relay.PublishConfirmed | internal/broker/rabbitmq.go:84-121 | a confirmed publish put the event's own payload on its own type's queue, undelivered |
| OutboxRelay.Relay.Handle | internal/outbox/relay.go:98-119 | a failed mark is not recorded and keeps the lease, any other failure is recorded by the last call made, and the event is as that call left it |
| OutboxRelay.Relay.HandleAll | internal/outbox/relay.go:98-119 | working on one event disturbs neither the finished nor the waiting ones of the batch |
| OutboxRelay.FatesExclude | internal/outbox/relay.go:93-121 | the three fates of an event exclude each other |
| OutboxRelay.TimelyRelaysAreInTime | internal/repository/outbox_relay.go:13-65 | what other relays are supposed not to do while leases are kept is nothing they could do then |
| OutboxRelay.SleepsInsideLease | internal/config/config.go:222-223 | at the default batch size the sleeps of one poll stay inside the default lease |
| Shared.ForeignStep | internal/repository/outbox_relay.go:24-32 | what anybody else does leaves a handler's own state, and a claimed event's task and payload, alone |
| Shared.World.Others | internal/worker/processor.go:82-103 | any interleaving of everybody else keeps the state one a run leads to |
| Transactions.Serializable | internal/service/sms.go:78-181 | any interleaving of sends and topups commits exactly what running the committed ones alone in commit order commits, and every success reported is its reply there |
| Transactions.DenialsAreSerial | internal/service/sms.go:79-112 | every refusal reported, other than that something broke, is the reply of the whole request run alone after some of the committed transactions |
| Transactions.DenialIsApply | internal/repository/account.go:78-152 | a statement that denies a request does so for the reason the whole request is denied for running alone now |
| Transactions.MoneyConserved | internal/repository/account.go:78-152 | in every committed state balances are exact, and ledger, messages, outbox and keys match one to one |
| Transactions.AtMostOncePerKey | internal/repository/idempotency.go:68-121 | sends that share account and key and succeed all answer with one message, the only one ever committed for the key |
| Transactions.InProgressUnreachable | internal/service/sms.go:85-97 | no committed key row holds the placeholder, so the in-progress conflict is never answered |
| Transactions.AbortLeavesNoTrace | internal/service/sms.go:182-186 | a transaction that fails anywhere changes no committed row and frees its key |
| Transactions.CommitIsApply | internal/service/sms.go:78-181 | a transaction about to commit has computed what the whole request computes alone now |
| Transactions.CommitKeepsOthers | internal/repository/account.go:104-123 | a commit disturbs nothing an open transaction has read under its locks |
| Transactions.StatementSeparate | internal/repository/idempotency.go:68-101 | two open transactions never hold the same account row or key row |
| Transactions.StatementInStep | internal/service/sms.go:79-180 | after every statement the rows written so far are those the whole request would have written |
| Money.ReplayValid | internal/service/sms.go:100-163 | every sequence of requests keeps: balance at least zero, equal to its ledger sum, equal to topups less cost times messages; one ledger row and one event per message; one message per key |
| Money.OverflowIsRejected | internal/repository/account.go:96-97 | an int64 sum that overflows wraps to a negative number, and no other does, so the CHECK rejects exactly the overflows |
| Money.SendSucceedsIff | internal/service/sms.go:79-112 | a send succeeds exactly when its key has been used, or the account exists and holds at least one; each error has exactly its cause |
| Money.TopupSucceedsIff | internal/service/account.go:27-55 | a topup succeeds exactly when the amount is positive, the account exists and the sum fits into int64; each error has exactly its cause |
| Money.SameKeySameMessage | internal/service/sms.go:79-98 | two successful sends with one key answer alike, with anything in between |
| Money.OneMessagePerKey | internal/repository/idempotency.go:68-101 | a key names at most one message |
| Money.KeysStay | internal/repository/idempotency.go:103-121 | a committed key is never removed or rewritten |
| Money.BalanceTopup | internal/service/account.go:27-55 | a topup that commits keeps the balance equal to the exact ledger sum |
| Money.BalanceSend | internal/repository/account.go:125-152 | a send keeps the balance exact for every account |
| Money.OutboxGains | internal/repository/outbox.go:19-38 | a new message's event keeps events and messages in bijection |
| Money.LedgerGains | internal/service/sms.go:116-124 | a send's ledger row keeps `send` rows and messages in bijection |
| Services.Services.Send | internal/service/sms.go:59-196 | success: the committed rows are those of the whole request on the rows committed just before, the message exists for the account, and the key names it; refusal: no such account, or less than the cost in it, and the key unused; anything else only if a statement failed or the commit did not report success, and then either none of its rows is there or only the report was lost |
| Services.Services.Topup | internal/service/account.go:27-55 | success: the balance is the old one plus the amount exactly; refusal: no such account, or a sum past int64; anything else only if a statement failed or the commit did not report success, and then no commit took effect or only its report was lost; an invalid amount touches nothing |
| Services.Services.ClaimOrGet | internal/repository/idempotency.go:68-101 | the key becomes this transaction's, or a completed response is found; never a placeholder |
| Services.Services.LockAccount | internal/repository/account.go:104-123 | the row is locked; a send is denied exactly as the whole request would be running alone now |
| Services.Services.UpdateBalance | internal/repository/account.go:78-152 | a send leaves the locked balance less the cost, a topup the int64 sum, never a negative balance; anything else is denied |
| Services.Services.StoreResponse | internal/repository/idempotency.go:103-121 | the transaction's own key row is always found |
| Services.Services.CreateEntry | internal/repository/ledger.go:22-45 | the ledger row of the request joins the transaction; a failure leaves none of its rows |
| Services.Services.CreateMessage | internal/repository/sms.go:23-46 | the message row of the request joins the transaction; a failure leaves none of its rows |
| Services.Services.CreateEvent | internal/repository/outbox.go:19-38 | the pending event with the message's own ids joins the same transaction; a failure leaves none of its rows |
| Services.Services.ReplayResponse | internal/service/sms.go:85-96 | a stored response becomes the result and nothing is written |
| Services.Services.Finish | internal/service/sms.go:78-181 | a reported commit left exactly the rows of the request run alone; a refused one changed nothing; an unreported one left all of them |
| Services.TopupIsExact | internal/service/account.go:33-49 | a topup that succeeds added without wrapping |
| EndToEnd.ChargedIsNeverLost | internal/service/sms.go:139-163 | over services and delivery together a message exists if and only if it was charged, exactly once, and is finished, pending in the outbox or on a copy with its own ids |
| EndToEnd.TransactAgrees | internal/repository/outbox.go:19-38 | a commit adds to delivery exactly the message and event rows it wrote |
| EndToEnd.DeliveryKeepsRows | internal/repository/sms.go:123-173 | delivery adds, removes and readdresses no row |
| IdempotencyCache.LookupRefinesDatabase | internal/idempotency/lookup.go:25-46 | in every reachable state, with any eviction and Redis error, the middleware decides as on a working database alone, except that it reports a server error if and only if the database fails and there is no hit; a hit never depends on the database |
| IdempotencyCache.FilledIsFound | internal/service/sms.go:188-193 | after a cache write that took effect the lookup replays the send's message from Redis alone, the database up or down |
| IdempotencyCache.HitStays | internal/idempotency/cache.go:60-69 | only its eviction takes a hit away |
| IdempotencyCache.HitIsTheRow | internal/idempotency/cache.go:44-58 | a cache hit parses to the response of the committed row of that account and key |
| IdempotencyCache.FastPathAgreesWithSend | internal/middleware/idempotency.go:49-72 | the fast path replays exactly when the key is committed, with the message Send would answer, and never reports a conflict |
| IdempotencyCache.ReplayIsForGood | internal/service/sms.go:188-193 | what was replayed once is replayed for ever, from either store |
| IdempotencyCache.FillBacked | internal/idempotency/cache.go:60-69 | a write after commit stores what the committed row says |
| Snapshots.ResponseRoundTrip | internal/domain/idempotency.go:23-44 | a response reads back alike from its marshalled text and from the JSONB rendering, if and only if it names a message |
| Snapshots.NoResponse | internal/domain/idempotency.go:23-35 | the placeholder, nothing, and an object without a message id are no response |
| Snapshots.ObjectRoundTrip | internal/domain/idempotency.go:39-44 | reading a rendered object gives its fields back |
| Snapshots.UuidRoundTrip | internal/service/sms.go:87-90 | printing and parsing an id gives it back |
| Snapshots.CacheKeyInjective | internal/idempotency/cache.go:40-42 | no two account and key pairs share a cache key, whatever colons prefix and key contain |
| RateLimit.RedisLimiter.Allow | internal/ratelimit/limiter.go:45-84 | the decision is whether the pruned set with this call is within the limit; without faults that is the whole history's decision and the set is its live part plus an allowed call; with faults it is only stricter; a denied client sees a full set and is told to wait for its oldest member |
| RateLimit.RedisLimiter.Execute | internal/ratelimit/limiter.go:50-57 | what the pipeline leaves when it is cut short after any of its commands |
| RateLimit.RedisLimiter.Interrupted | internal/ratelimit/limiter.go:56-61 | an error from the pipeline allows nothing and forgets no live call, whichever commands took effect |
| RateLimit.FullSetFreesOne | internal/ratelimit/limiter.go:68-83 | the wait a refused client is told is enough for a set of at most the limit: the oldest member has left the window by then, although both it and the horizon are rounded |
| RateLimit.WholeWindowFreesAll | internal/ratelimit/limiter.go:70-76 | the wait told when the oldest member cannot be read is enough whatever is in the set |
| RateLimit.RetryIsEnoughIff | internal/ratelimit/limiter.go:63-83 | a refused client that comes back alone is let in however late it comes, if and only if at the earliest time fewer than the limit of the members its refusal left are in the window |
| RateLimit.FailedRemovalMisleads | internal/ratelimit/limiter.go:68 | three calls, the removal of the second one failing: the client waits what it was told, alone, and is refused |
| RateLimit.RedisLimiter.constructor | internal/ratelimit/limiter.go:32-43 | defaults of one second and one hundred calls, and a limiter that can be called at any instant after zero |
| RateLimit.Remembered | internal/ratelimit/limiter.go:51-53 | expiry and pruning forget no live call, and what else is held was left by a fault |
| RateLimit.WindowBound | internal/ratelimit/limiter.go:63-66 | any history of allowed calls has at most the limit in every window 256 ns shorter than configured |
| RateLimit.WindowBoundTight | internal/ratelimit/limiter.go:51-52 | for every limit, one nanosecond more and calls that were all allowed, at instants and horizons in range, exceed the limit by one |
| RateLimit.WindowBoundIff | internal/ratelimit/limiter.go:51-66 | every window of a given length keeps the limit if and only if the length falls short of the configured window by 256 ns |
| RateLimit.WindowBoundExact | internal/ratelimit/limiter.go:63-66 | the whole window holds when instants and window are multiples of the spacing |
| RateLimit.PruningExactIff | internal/ratelimit/limiter.go:51 | pruning keeps exactly the calls in the window if and only if none of them rounds down to the horizon |
| RateLimit.ComeBack | internal/middleware/ratelimit.go:12-47 | two calls in a row: a refused client that waits the header's seconds, alone, is let in unless a fault has left a member behind, and with leftovers exactly when fewer than the limit of them are still in the window; one that comes a second earlier, 512 ns to spare, is refused |
| RateLimit.TooEarly | internal/ratelimit/limiter.go:63-83 | while the lowest member of a full set is in the window there is no room |
| RateLimit.RateLimit | internal/middleware/ratelimit.go:12-47 | the answer is pass, refusal or an internal error as the limiter has room, has none or fails; the header is the least whole number of seconds, from one on, that covers the time the oldest member has left |
| RateLimit.HeaderSeconds | internal/middleware/ratelimit.go:31-34 | the least number of whole seconds, at least one, that is not shorter than the wait |
| RateLimit.TimeToLive | internal/ratelimit/limiter.go:53 | the expiry is the largest number of whole seconds within the window plus one second, and outlasts the window |
| Confirms.NilMeansOwnAck | internal/broker/rabbitmq.go:84-121 | with one shared cancellation and no confirm left by a failed publish, every nil took the broker's ack of its own message |
| Confirms.AnswerIsTaken | internal/broker/rabbitmq.go:111-118 | under the same conditions a waiting call takes the broker's answer to its own message, an ack as nil and a refusal as an error |
| Confirms.OwnConfirmIffNoneStale | internal/broker/rabbitmq.go:111-118 | a call takes its own confirm if and only if no stale one was in the channel when it published |
| Confirms.SeparateContextsMixUp | internal/broker/rabbitmq.go:116-118 | with separate contexts a caller is told nil for a message the broker refused |
| Confirms.LeftoverConfirmMixesUp | internal/broker/rabbitmq.go:107-109 | so it is when a failed publish leaves its confirm behind |
| Confirms.StillWaiting | internal/broker/rabbitmq.go:85-86 | under the mutex nobody publishes or takes a confirm while a call waits for its own |
| Pagination.WalkIsTheListing | internal/repository/ledger.go:47-92 | for any table and limit, n requests return the first n pages of the account's listing, and the walk ends exactly when it has listed all; rows added above the cursor change nothing |
| Pagination.NoRepeat | internal/repository/sms.go:76-121 | however the table grows no row is listed twice or out of order |
| Pagination.NoSkip | internal/repository/sms.go:76-121 | a walk that ends has listed every row present when it began |
| Pagination.CursorIsFound | internal/repository/ledger.go:66-75 | the row a page ends on is found again, so a walk never meets an invalid cursor |
| Pagination.RestOfListing | internal/repository/ledger.go:76-79 | what lies below the cursor is the listing after the page |
| Pagination.Listing | internal/repository/ledger.go:60-63 | the listing is strictly descending and holds every row once |
| Pagination.DescendingUnique | internal/repository/ledger.go:60-63 | there is only one such listing |
| Pagination.ListByAccount | internal/repository/ledger.go:47-92 | returns the clamped first part of the listing below the cursor, or an invalid cursor exactly when the account has no such row |
| Pagination.List | internal/handler/account.go:120-169 | a cursor is returned exactly when the page is full, and names its last row |
| Pagination.ParseLimit | internal/handler/account.go:173-186 | the handler's limit is one the repository's clamp leaves alone |
| Pagination.ParseLimitReads | internal/handler/account.go:173-186 | a written limit from 1 to 100 is the limit, more is 100, and zero, a negative number and one past int64 are 20 |
| Pagination.ParseLimitDefault | internal/handler/account.go:173-186 | nothing and no number are 20 |
| Pagination.RepositoryLimit | internal/repository/ledger.go:53-58 | the repository's clamp is the identity from 1 to 100, 20 below and 100 above |
| Bulkheads.TokensAreHandlers | internal/worker/processor.go:90-103 | in every run tokens taken equal the handlers between acquire and release, never exceed the pool, and a release always finds its token |
| Bulkheads.PoolsAreIsolated | internal/worker/bulkhead.go:27-51 | taking all of one pool's traffic out of a run leaves the other pool's tokens, handlers and room unchanged |
| Bulkheads.Bulkhead.Acquire | internal/worker/bulkhead.go:27-39 | takes one token of the queue's own pool, or none when the context is done |
| Bulkheads.Bulkhead.Release | internal/worker/bulkhead.go:41-51 | returns one token of the queue's own pool and never goes below none |
| Retry.DeliveryAttemptCount | internal/worker/retry.go:5-13 | the exact number of deaths when it is positive and fits, else one for a redelivery |
| Retry.XDeathCount | internal/worker/retry.go:15-30 | the total of all counted tables wraps as one int64 sum does |
| Retry.OneRecord | internal/worker/retry.go:50-71 | what one record's count adds, for every dynamic type it can come in |
| Retry.DeathsAdd | internal/worker/retry.go:25-30 | the deaths of several records add up in any grouping |
| Retry.DueIff | internal/worker/processor.go:220-225 | a first delivery without deaths is never buried, a redelivered one only under a maximum of one, and one with deaths exactly when they reach the maximum |
| Retry.TablesFromSlice | internal/worker/retry.go:40-48 | items that are no table are dropped, the others keep their order |
| Retry.DeadLetterDue | internal/worker/processor.go:220-225 | dead-lettering is due exactly when the machine says so |
| Retry.AttemptsGrow | internal/worker/retry.go:5-30 | a further death record and a requeue never lower the count, short of overflow |
| Retry.OverflowForgets | internal/worker/retry.go:15-30 | a total past int64 reads as a single redelivery |
| Retry.WrapSum | internal/worker/retry.go:25-29 | wrapping after each addition is wrapping once |

## Left out

- Worker.Processor.HandleDelivery: the deferred settle is a call at the end, and a crash of this handler's own process is a step of the machine, not of the method.
- Worker.Processor.CallOperator: the operator's three-way answer is an input; the circuit breaker's own states are not modelled, an open circuit counts as a transient answer, and a call recorded for it may not have gone out.
- OutboxRelay.Relay.ClaimPendingBatch: rows locked by another claim in progress cannot occur, because the claim is one atomic step group; ties in created_at are broken arbitrarily.
- OutboxRelay.Relay.PollOnce: the three fates are stated while leases are kept; when a relay overruns one, the state is still one the machine reaches, and Leases.CopiesNeverExceedClaims and Leases.PublishedForever apply.
- Transactions.Serializable: deadlock is an aborted transaction; the foreign-key locks on accounts are not modelled, so deadlock freedom is not claimed.
- NoLoss.DrainedMeansFinished: no liveness is claimed; endless requeueing is a legal run, and Recovery.NothingGetsStuck states what remains possible.
- RateLimit.RedisLimiter.Allow: calls at one instant share one member and are not counted apart; clock skew between replicas, pipelines out of order and execution delayed past the key's expiry are not modelled; the header's seconds are computed exactly, not in floating point.
- Snapshots.ObjectRoundTrip: objects are flat, with string values that need no escaping; case-insensitive field names are not modelled.
- Snapshots.UuidRoundTrip: only the canonical text form is read.
- Confirms.NilMeansOwnAck: the channel's capacity of one is not modelled, it delays confirms but does not reorder them.
- Retry.XDeathCount: floating-point counts are reals within the int64 range; not-a-number and out-of-range conversions are not modelled.
- Pagination.ListByAccount: both lists share one model; replica lag between pages is not modelled.
- Input validation, E.164 and encoding checks: one yes-or-no input of Send.
- HTTP routing, authentication, tracing, metrics, logging, configuration loading, the operator's HTTP client and the mock operator: no property of the protocol.
- Message bodies, phone numbers, timestamps other than created_at and locked_until, and trace contexts in payloads.
- The service methods that only read, and the upsert of accounts by token: nothing in them goes beyond one query.

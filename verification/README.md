# Crawlix job service: a verified model

This project models the parts of the Crawlix scraping service in which jobs move between the
API, the message broker, the record store and the workers, and the algorithms those parts rest
on. Everything is Dafny 4.11; `dafny verify dfyconfig.toml` checks the whole project.

## What is modelled

**The delivery protocol.** `Delivery.dfy` is a state machine whose actions are single broker
commands, single record or result writes, and one strategy loop; the API, the broker and any
number of workers interleave freely. The death of a worker (an unacknowledged copy goes back to
its queue), infrastructure faults inside a process call, and the watchdog (which abandons a process
call without stopping it) are actions too. `RetryMachine.dfy` is the same retry and dead-letter
protocol without jobs and workers; `DeliverySafety.dfy` shows that every action of the job
protocol is one of its moves, and `WebhookDelivery.dfy` uses it a second time for webhook events.
`QueueConsumer.dfy` is the handler, the process call and the API's cancel as sequential methods
over the platform's fields. Each await lets everybody else act and may end with an exception or
with the watchdog's, and each statement is shown to be the protocol step that is due, so the
results for all runs hold for that code, for as long as its worker lives.
`DeliveryCancellation.dfy` and `DeliveryFaults.dfy` say when a cancel is final,
`DeliveryEvents.dfy` and `DeliveryOutcomes.dfy` what a job announces in runs without faults, and
`DeliveryAnnouncements.dfy` what it announces in any run. `DeliveryCalls.dfy` gives the result of one
delivery that nobody disturbs as a table, and `DeliveryCompletions.dfy` shows that only a scrape
completes a job that may not use the cache.

Results for every run: no published job is lost; attempts stay in 1..maximum and a dead-lettered
copy used them all; without lost connections there is exactly one live copy or normal return per
job, and the work a job causes is bounded; only workers named like the target process a targeted
job; a job of which nothing is left to do has announced itself at least once, and in runs without
faults exactly once, when it is final, with record, result and event in agreement.

**Canonical text, fingerprint and cache.** `StableText.dfy` prints option values, `StableParser.dfy`
parses them back, `Fingerprint.dfy` shows the hashed text to be uniquely decodable, and
`ScrapeCache.dfy` is the cache keyed by it, with its writer and both readers.

**Algorithms.** The strategy retry loop with back-off (`ScrapeLoop.dfy`), queue names and
subscriptions (`QueueNames.dfy`), the fixed-window rate limiter (`RateLimiter.dfy`), the record
store with its bounded index and its pages (`JobStore.dfy`), idempotent enqueueing
(`Enqueue.dfy`), round robin over workers and proxies (`RoundRobin.dfy`), adaptive polling
(`Polling.dfy`) and the overview's time series (`TimeSeries.dfy`). `Sums.dfy` holds sums over
sequences and `Common.dfy` what several modules share.

## Where the code does not do what one might expect

Each of these is proved on the code as it is, with the exact condition or an exact count.

- A cancel is not always final. The API's cancel and the worker's process call both check the
  record before they write it, and the check is not atomic with the write. `CancelIsFinalIff`:
  after cancel has written, the record stays cancelled in every continuation without faults if and
  only if no handler (and no abandoned process call) is past its check with a status write still
  ahead. `CancelIsFinalDespiteFaultsIff`: it stays cancelled in every continuation at all if and
  only if there is no such abandoned call and, unless no worker may process the job, every copy is
  acknowledged or dead-lettered and no message is yet to be published. `CancelRace` and
  `FaultUndoesCancel` are concrete runs in which it is overwritten, and `AtomicCancelIsFinal` shows
  what an atomic check would give.
- A cancelled job is announced more than once: `EventCount` gives one event from the worker and
  one for each finished cancel call.
- The rate limiter admits up to 2n - 1 requests within a sliding minute, not n; `SlidingBound`
  and `BoundAttained` show that this is exact.
- Object keys are printed without escaping, so different option values can print alike: every
  object with two or more entries prints like an object with one entry, whose key contains the
  other entries (`EveryObjectHasTwin`), and so does every value around such an object (`HasTwin`).
  For all keys without quotes the text is canonical and the fingerprint's text is decodable.
- The API accepts any keys in headers and form data (apps/api/src/jobs/dto/create-job.dto.ts:20-46),
  so the scrape cache can give one request the content of another. A hit is right if and only if
  the request it was stored for matches the reader's (`HitIsSoundIff`); this holds for all keys
  without quotes (`HitIsSound`), and for every request with a record of two or more texts there is
  another that does not match it and is answered with its content (`TwinOfJob`, `WrongHit`).
- Queue names coincide exactly when `NamesCoincide` says so: for one routing strategy, either both
  are shared and have the same role, or both are targeted and the sanitized ids followed by the
  role suffixes are the same text. For ids that end in a dash and a process id this means the same
  role and ids that sanitize alike (`NamesDistinct`). So two workers whose ids differ only in
  characters that sanitizing replaces consume each other's jobs, and `OnlyItsTargetIff` says exactly
  when a targeted job stays with its target.
- A job with strategy auto that targets a worker which does not allow http is published to a queue
  the worker does not consume; `AcceptedTargetListens` says exactly when a target listens.
- A list of workers is served evenly in every schedule if and only if every other list that uses
  its rotation key has fewer than two members (`FairIff`). One host's workers share a key for all
  strategies, so their lists can differ; `SharedKeyStarves` is a schedule in which one member gets
  every turn.

## Assumptions

- A connection is lost copy by copy: the other copies its worker holds and the process calls it
  abandoned go on, although the death of a worker process would end them too. So in the "only if"
  halves of `CancelIsFinalIff` and `CancelIsFinalDespiteFaultsIff` the step that undoes a cancel may
  be one of an abandoned call whose worker has died before.
- One read-modify-write of a record is one step. The worker's cache-hit branch starts four writes
  at once; they are taken one after the other.
- Single broker and store commands are atomic and reliable; an expired copy in a retry queue moves
  to the queue's dead-letter routing key with its headers.
- All workers are configured with the same maximum number of delivery attempts, which is positive.
- The digest of the fingerprint is injective, and keys are compared by a strict total order.
- Sleeping for a number of milliseconds advances the clock by at least that number, or by one for
  the delays a timer replaces by one.

## Model

| member | source | states |
|---|---|---|
| DeliverySafety.NoJobLost | apps/worker/src/jobs/queue-consumer.service.ts:161-353 | in every reachable state, with lost connections, faults and watchdog expiries, a published job has a copy in its main, retry or dead-letter queue or with a worker, or one of its process calls returned normally |
| DeliverySafety.AttemptsInRange | apps/worker/src/jobs/queue-consumer.service.ts:206-337 | in every reachable state every copy carries an attempt in 1..maximum, and a copy in the dead-letter queue carries exactly the maximum |
| DeliverySafety.WorkerAffinity | apps/worker/src/jobs/queue-consumer.service.ts:210-255 | in every reachable state a waiting copy is on one of its own job's three queues, and a worker that holds a copy allows the job's routing strategy and is its target if it has one, or has an id that sanitizes like the target's |
| DeliverySafety.OnlyItsTargetIff | packages/shared/src/index.ts:114-192 | a targeted job is held by nobody but its target in all runs if and only if no other worker that allows its routing strategy has an id that sanitizes alike |
| DeliverySafety.RefinesAction | apps/worker/src/jobs/queue-consumer.service.ts:229-352 | every action of the job protocol is one legal move of the generic retry machine on the abstracted state |
| DeliverySafety.InvRun | apps/worker/src/jobs/queue-consumer.service.ts:161-353 | the protocol invariant holds in every state of every run from a state that satisfies it |
| DeliverySafety.RankFalls | apps/worker/src/jobs/job-processor.service.ts:40-376 | every step of a handler leads to a place with a smaller rank, whatever the record and the environment answer |
| DeliverySafety.ExpiryLeadsHome | apps/api/src/infrastructure/queue-publisher.service.ts:107-127 | of a job's queues only the retry queue expires copies, and they go to the job's main queue |
| DeliverySafety.ListenersMayProcess | apps/worker/src/jobs/queue-consumer.service.ts:111-151 | a worker consumes a job's queue if and only if it is the main queue, the worker allows the routing strategy, and the job has no target or one named like the worker |
| DeliverySafety.StrayNeverSends | apps/worker/src/jobs/queue-consumer.service.ts:64-87 | a process call that goes on after the watchdog gave it up never sends a copy to a job queue |
| DeliveryBounds.ExactlyOneOwed | apps/worker/src/jobs/queue-consumer.service.ts:229-338 | while no connection is lost, the copies of a published job that still owe a result plus its normal return count exactly one, and at most maximum-attempts process calls were started |
| DeliveryBounds.OneOwing | apps/worker/src/jobs/queue-consumer.service.ts:254-270 | while no connection is lost, no two copies of one job owe a result |
| DeliveryBounds.WorkIsBounded | apps/worker/src/jobs/queue-consumer.service.ts:206-338 | while no connection is lost, the copies take at most 19 steps per attempt and publication, in any interleaving |
| DeliveryBounds.StepsWithinMeasure | apps/worker/src/jobs/queue-consumer.service.ts:206-338 | the steps taken plus the remaining measure never exceed the initial measure plus what publications add |
| DeliveryBounds.ExecutionsBounded | packages/scraper/src/index.ts:875-964 | a job executes at most 2 * (maxRetries + 1) strategies per process call, watchdog strays included, hence at most that times the maximum attempts while no connection is lost |
| DeliveryBounds.ScrapedByItsWorker | apps/worker/src/jobs/job-processor.service.ts:113-117 | every strategy ever executed for a job was executed by a worker that may process it and with a strategy that worker allows |
| DeliveryCalls.CallDoes | apps/worker/src/jobs/job-processor.service.ts:40-376 | a delivered copy whose handler nobody disturbs ends acknowledged, and record, result, event, executed strategies and next copy are exactly those of a table over the record, the strategies the worker allows, useCache and the cache, the outcome of the strategy loop and the attempt |
| DeliveryCalls.CanBeHandled | apps/worker/src/jobs/queue-consumer.service.ts:144-151 | in every state that satisfies the invariant a copy in its main queue can be delivered to any worker that may process it, and handled with the result of an undisturbed call |
| DeliveryCalls.CancelDoes | apps/api/src/jobs/jobs.service.ts:389-444 | a cancel call that nobody disturbs after its check writes cancelled to record and result and sends job.cancelled if there is a webhook, and changes nothing else |
| DeliveryCalls.FreshJob | apps/api/src/jobs/jobs.service.ts:308-348 | a fresh job is recorded as queued, its first copy waits in its main queue, and its retry queue leads back there |
| DeliveryCalls.AnsweredJob | apps/api/src/jobs/jobs.service.ts:224-252 | a fresh job answered from the cache is completed in record and result and announced by job.completed if it has a webhook |
| DeliveryCalls.InterruptibleIff | apps/worker/src/jobs/queue-consumer.service.ts:64-87 | a handler can be interrupted by a throw or the watchdog exactly until its process call has returned or thrown |
| DeliveryCalls.RecordableIff | apps/api/src/jobs/jobs.service.ts:272-280 | a job can be recorded exactly when it is new and its target, if it has one, is a known worker that supports its strategy |
| DeliveryCompletions.CompletedOnlyByScrape | apps/worker/src/jobs/job-processor.service.ts:120-121 | in every run whatever, the record, the result or an event of a job with useCache false says completed only after a strategy was executed for it |
| DeliveryCompletions.NeverFromCache | apps/worker/src/jobs/job-processor.service.ts:120-121 | in every run whatever, no handler and no abandoned call of such a job stands at a step that answers from the cache, and none completes before a strategy was executed |
| DeliveryEvents.OneCurrentStep | apps/worker/src/jobs/queue-consumer.service.ts:254-270 | in quiet runs each published job keeps exactly one copy that is not handed over |
| DeliveryEvents.EventsMatchStep | apps/worker/src/jobs/webhook-dispatcher.service.ts:90-136 | in quiet runs the worker events published for a job stay exactly those its current copy's place calls for |
| DeliveryEvents.StepTells | apps/worker/src/jobs/job-processor.service.ts:57-107 | a handler step publishes exactly the events by which the expectation at its next place differs from that at its place |
| DeliveryOutcomes.SilentUntilFinal | apps/worker/src/jobs/job-processor.service.ts:312-328 | in quiet runs no worker event has been published for a job while a copy of it waits for its next attempt or is being scraped |
| DeliveryOutcomes.OneEventPerJob | apps/worker/src/jobs/job-processor.service.ts:312-338 | in quiet runs a never-cancelled job whose copies are all done is completed or failed, in its record and its stored result alike, and has published exactly one event if it has a webhook: job.completed or job.failed accordingly |
| DeliveryAnnouncements.AnnouncedAtLeastOnce | apps/worker/src/jobs/queue-consumer.service.ts:229-338 | in every run whatever, lost connections, faults and watchdog expiries included, a published job with a webhook whose copies are all acknowledged or dead-lettered has published at least one worker event |
| DeliveryOutcomes.EventCount | apps/api/src/jobs/jobs.service.ts:420-441 | in quiet runs a job with a webhook whose copies are all done has published one worker event, job.completed, job.cancelled or job.failed by the place of its last copy, and one job.cancelled for each finished cancel call |
| DeliveryOutcomes.SettledStatuses | apps/worker/src/jobs/job-processor.service.ts:40-376 | a process call only returns normally with a completed or a cancelled job |
| DeliveryOutcomes.AllAgreeStep | apps/worker/src/jobs/queue-consumer.service.ts:246-320 | in quiet runs record and stored result of a never-cancelled job stay what its current copy's place requires |
| DeliveryCancellation.CancelIsFinalIff | apps/api/src/jobs/jobs.service.ts:389-444 | after cancel's write the record stays cancelled in all continuations without faults if and only if no handler or stray is past its check with a status write ahead |
| DeliveryCancellation.NeverScrapedAfterCancel | apps/worker/src/jobs/job-processor.service.ts:57-107 | under that condition no strategy is executed for the job afterwards |
| DeliveryCancellation.AtomicCancelIsFinal | apps/api/src/jobs/jobs.service.ts:389-400 | in quiet runs a cancel that writes while the record is still queued and no handler stands between check and first write is final, also between two delivery attempts |
| DeliveryCancellation.CancelRace | apps/worker/src/jobs/job-processor.service.ts:44-110 | a concrete run without faults in which a cancelled record becomes processing |
| DeliveryCancellation.FaultUndoesCancel | apps/worker/src/jobs/queue-consumer.service.ts:242-253 | a concrete run in which a fault during the skip of a cancelled job makes the record queued again, or failed on the last attempt |
| DeliveryFaults.CancelIsFinalDespiteFaultsIff | apps/worker/src/jobs/queue-consumer.service.ts:229-253 | after cancel's write the record stays cancelled in all continuations, deaths of workers, faults and watchdog expiries included, if and only if no stray is past its check and, if any worker may process the job, no copy is waiting or held and none is yet to be published |
| DeliveryFaults.OverRun | apps/worker/src/jobs/queue-consumer.service.ts:161-353 | a cancelled job of which nothing is left to process stays cancelled in every run |
| DeliveryFaults.CanBeUndone | apps/worker/src/jobs/queue-consumer.service.ts:242-253 | any other cancelled job has a run that overwrites the cancel |
| QueueConsumer.Platform.HandleMessage | apps/worker/src/jobs/queue-consumer.service.ts:206-352 | handles one delivered copy: whatever others do during its awaits and wherever an await throws or the watchdog expires, the whole history is a protocol run, only this call's steps, throws and expiries concern the copy, and the copy ends acknowledged unless a step of the catch block throws, which leaves it held; if no await ends in trouble the call takes code steps only, and if moreover nobody else acts it leaves behind exactly the result of an undisturbed call |
| QueueConsumer.Platform.Process | apps/worker/src/jobs/job-processor.service.ts:40-376 | the process call, raced against the watchdog, performs exactly the due protocol steps and ends by returning normally or at the first step of the catch block for its attempt |
| QueueConsumer.Platform.Pause | apps/worker/src/jobs/queue-consumer.service.ts:64-87 | an await inside the process call ends in the catch block exactly when it throws or the watchdog expires, by the protocol's fault or watchdog action |
| QueueConsumer.Platform.AnswerFromCache | apps/worker/src/jobs/job-processor.service.ts:132-167 | a cache hit ends in a normal return as completed after its due steps, the heartbeat last, or in the catch block if one of them throws |
| QueueConsumer.Platform.ScrapeAndStore | apps/worker/src/jobs/job-processor.service.ts:180-342 | a cache miss scrapes with the retry loop and ends completed or in the catch block, by its due steps |
| QueueConsumer.Platform.RetryOrBury | apps/worker/src/jobs/queue-consumer.service.ts:242-338 | the catch block re-queues or buries the copy by its due steps and ends with the next copy sent; if one of its steps throws it stops there with the copy still held |
| QueueConsumer.Platform.RecordAndPublish | apps/api/src/jobs/jobs.service.ts:308-348 | saves a fresh record and then publishes its message, as two protocol actions with others in between |
| QueueConsumer.Platform.Cancel | apps/api/src/jobs/jobs.service.ts:389-444 | cancels exactly when the record is queued at its read, by the protocol's three cancel steps with the awaited actions between them; otherwise changes nothing |
| QueueConsumer.StrategiesDue | apps/worker/src/jobs/job-processor.service.ts:180-328 | whatever outcome meets the retry loop's promises is the one the protocol step uses |
| RetryMachine.NoLoss | apps/worker/src/jobs/queue-consumer.service.ts:229-338 | in a safe state every key is settled or has a copy that is not acknowledged |
| RetryMachine.SafeStep | apps/worker/src/jobs/queue-consumer.service.ts:229-338 | every legal move keeps the state safe: attempts in range, parked copies at the maximum, every handed-over copy followed by a later one |
| RetryMachine.ConservedStep | apps/worker/src/jobs/queue-consumer.service.ts:229-338 | every move but a lost connection keeps live copies plus settled at exactly one per key, and calls within the maximum |
| RetryMachine.UniqueStep | apps/worker/src/jobs/queue-consumer.service.ts:254-270 | every move but a lost connection keeps at most one copy per key that is not handed over |
| RetryMachine.BoundedWork | apps/worker/src/jobs/queue-consumer.service.ts:206-338 | n publications are followed by at most n * maximum * (top + 4) further moves in any run without lost connections |
| RetryMachine.MeasureFalls | apps/worker/src/jobs/queue-consumer.service.ts:206-338 | every move but publications and lost connections makes the summed measure smaller |
| WebhookDelivery.NoEventLost | apps/worker/src/jobs/webhook-dispatcher.service.ts:138-237 | in every reachable state a published event has an unacknowledged copy or was delivered |
| WebhookDelivery.CanBeDelivered | apps/worker/src/jobs/webhook-dispatcher.service.ts:138-237 | from every state in which a copy of an event waits, in the main or the retry queue, some steps deliver the event |
| WebhookDelivery.PostHistory | apps/worker/src/jobs/webhook-dispatcher.service.ts:147-237 | without lost connections an event's requests are n failures, followed by one success exactly when it is settled; n never exceeds the maximum and equals it when the event is dead-lettered |
| WebhookDelivery.WorkIsBounded | apps/worker/src/jobs/webhook-dispatcher.service.ts:147-237 | without lost connections the copies of events take at most five further steps per attempt and publication, in any interleaving |
| WebhookDelivery.WebhookDispatcher.HandleMessage | apps/worker/src/jobs/webhook-dispatcher.service.ts:138-237 | one delivery is the protocol's request and ack, or request, retry or dead-letter copy, and ack; the attempt is read from the header, else the body, and written to both |
| WebhookDelivery.WebhookDispatcher.EnqueueFromResult | apps/worker/src/jobs/webhook-dispatcher.service.ts:90-136 | queues a new event exactly when the job has a webhook and is completed, failed, cancelled or timed out, named job.completed, job.failed, job.cancelled or job.timeout; otherwise changes nothing |
| ScrapeLoop.Execute | packages/scraper/src/index.ts:860-967 | a success at attempt k follows exactly k failed rounds and a wait of delay * (2^k - 1); a failed plan reports maxRetries after delay * (2^maxRetries - 1); the fall-through needs a negative maxRetries; the executed strategies are exactly those of the rounds |
| ScrapeLoop.MeetsUnique | packages/scraper/src/index.ts:886-966 | those promises determine the outcome |
| ScrapeLoop.CompletesIff | packages/scraper/src/index.ts:886-964 | the loop completes if and only if some round from 0 to maxRetries succeeds |
| ScrapeLoop.CompletesExactly | packages/scraper/src/index.ts:158-228 | a request completes exactly when its worker allows it and in some round the first strategy succeeds, or the second one if the request is automatic, both are allowed and the default is not playwright |
| ScrapeLoop.FailedRounds | packages/scraper/src/index.ts:893-945 | failed rounds execute the first strategy and then the fallback, if there is one, each |
| ScrapeLoop.OnlyAllowed | packages/scraper/src/index.ts:179-228 | only strategies the worker allows are executed, at most 2 * (maxRetries + 1) of them |
| ScrapeLoop.ExecutionsBounded | packages/scraper/src/index.ts:893-945 | n rounds execute between n and 2n strategies, only the plan's own |
| ScrapeLoop.ResolvePlan | packages/scraper/src/index.ts:179-228 | there is no plan exactly when nothing is allowed or the strategy is not; a named strategy is tried alone; an automatic request tries the default first if it is allowed, else http if allowed, else playwright, and falls back from http to playwright exactly when playwright is allowed |
| QueueNames.NamesCoincide | packages/shared/src/index.ts:149-227 | for any base and any targets, two queue names are equal if and only if the routing strategies are, and both are shared with the same role or both targeted with the same sanitized id and role suffix as one text |
| QueueNames.NamesDistinct | packages/shared/src/index.ts:170-227 | for ids of the shape host name, dash, process id, with any host name, names are equal if and only if strategy and role are and the targets sanitize alike |
| QueueNames.SuffixedIdCollides | packages/shared/src/index.ts:170-192 | any id with a role's suffix appended has as its main queue that role's queue of the id |
| QueueNames.QueueTexts | packages/shared/src/index.ts:114-227 | the names themselves: base.http or base.playwright, .worker. and the id with its unsafe characters replaced for a target that is not empty, .retry and .dlq for the other two roles |
| QueueNames.SupportsIff | apps/api/src/jobs/worker-registry.service.ts:31-46 | a worker supports everything if its heartbeat lists nothing, and otherwise auto, what is listed, and cloudscraper if http is listed |
| QueueNames.SubscribeAll | apps/worker/src/jobs/queue-consumer.service.ts:105-142 | the start-up loop collects exactly the main queues, shared and own, of the allowed strategies |
| QueueNames.SubscriptionExact | apps/worker/src/jobs/queue-consumer.service.ts:111-151 | a worker consumes a queue if and only if it is the main queue of an allowed strategy that is shared or of a target that sanitizes like the worker's own id |
| QueueNames.AcceptedTargetListens | apps/api/src/jobs/worker-registry.service.ts:31-46 | a worker accepted as a target consumes the queue the job is published to if and only if it allows http or the job is not auto |
| StableText.SamePrintsAlike | packages/shared/src/index.ts:26-46 | values that differ only in the order of entries at any depth, or in null against undefined, have the same text |
| StableText.SortThenPrint | packages/shared/src/index.ts:36-42 | sorting the printed entries is printing the sorted entries |
| StableText.SortSorted | packages/shared/src/index.ts:36-37 | entries with distinct keys come out strictly sorted by key |
| StableText.SortedUnique | packages/shared/src/index.ts:36-37 | a strictly sorted list is determined by its elements |
| StableText.NumberText | packages/shared/src/index.ts:45-45 | numbers are printed as in section 6 of RFC 8259, with a sign only for negative ones and no leading zero |
| StableParser.RoundTrip | packages/shared/src/index.ts:26-46 | a parser reads the text of any value with quote-free keys back as the value with its entries sorted and undefined as null, whatever follows the text |
| StableParser.StringRoundTrip | packages/shared/src/index.ts:45-45 | a string literal escaped as in section 7 of RFC 8259 is read back as the string |
| StableParser.TextIsCanonical | packages/shared/src/index.ts:26-46 | for quote-free keys two values have the same text if and only if they are the same up to order of entries and null against undefined |
| StableParser.EveryObjectHasTwin | packages/shared/src/index.ts:38-40 | every object with distinct keys and two or more entries prints like an object with one entry, and the two are not the same |
| StableParser.HasTwin | packages/shared/src/index.ts:26-46 | every well-formed value that contains such an object at any depth prints like another well-formed value that is not the same |
| Fingerprint.PreimageTexts | packages/shared/src/index.ts:290-300 | the hashed text is the url, the strategy's name and the options' text, separated by colons |
| Fingerprint.UniqueDecoding | packages/shared/src/index.ts:290-300 | for any urls, the text url:strategy:options determines url, strategy and options up to order of entries, for object options whose keys have no quote |
| Fingerprint.NoInnerText | packages/shared/src/index.ts:290-300 | no text that reads from outside to outside string literals can start, after a letter and a colon, inside a longer one |
| Fingerprint.TextReads | packages/shared/src/index.ts:26-46 | every text of a value with quote-free keys can be read with its string literals balanced |
| Fingerprint.ReadingsOppose | packages/shared/src/index.ts:38-45 | any two readings of one text, from outside and from inside a string literal, end on opposite sides |
| ScrapeCache.Cache.Set | apps/worker/src/jobs/scrape-cache.service.ts:62-89 | stores a scrape that completed now or earlier, so that every key holds the non-empty completion stored last, for the writer's time to live from now; empty content is not stored |
| ScrapeCache.Cache.Get | apps/worker/src/jobs/scrape-cache.service.ts:30-60 | misses if an option entry useCache is false; otherwise hits if and only if the completion stored last for a job with the same text was stored within its time to live, and answers with exactly that one |
| ScrapeCache.FoundWhileFresh | apps/worker/src/jobs/scrape-cache.service.ts:62-89 | the last completion stored for jobs with the same text is found exactly while fewer seconds have passed than its job's cacheTtlSeconds entry says, or than the default without one, with its content |
| ScrapeCache.AsksTtl | apps/worker/src/jobs/scrape-cache.service.ts:67-68 | the time to live is the number of the cacheTtlSeconds entry, and the default if there is no such entry |
| ScrapeCache.CachingOff | apps/worker/src/jobs/job-processor.service.ts:120-121 | the cache is used unless there is an entry useCache with value false |
| ScrapeCache.HitIsSoundIff | apps/api/src/jobs/scrape-cache.service.ts:30-81 | for any keys a hit is the content of one completion stored within the time to live, and it has the reader's url, strategy and options if and only if that completion's job matches the reader's |
| ScrapeCache.HitIsSound | apps/api/src/jobs/scrape-cache.service.ts:30-81 | for quote-free keys, of the reader and of all earlier jobs, any hit is the content of an earlier completed scrape with equal url, strategy and options, stored within the reader's time to live and made by a job with caching on |
| ScrapeCache.KeysAlike | packages/shared/src/index.ts:290-307 | for any keys two jobs have the same cache key if and only if the texts of url, strategy and options are the same |
| ScrapeCache.KeysMatch | packages/shared/src/index.ts:290-307 | for quote-free keys two jobs have the same cache key if and only if url and strategy are equal and the options differ in order only |
| ScrapeCache.TwinOfJob | packages/shared/src/index.ts:290-307 | for every job whose headers or form data hold two or more texts there is one that differs from it in that record only, has the same key, time to live and use of the cache, and does not match it |
| ScrapeCache.WrongHit | apps/api/src/jobs/scrape-cache.service.ts:30-81 | right after the scrape of any such job another job that does not match it is answered with its content |
| ScrapeCache.MatchingOptions | apps/worker/src/jobs/scrape-cache.service.ts:67-68 | jobs whose options differ in order only agree on time to live and on using the cache |
| ScrapeCache.LatestIsLatest | apps/worker/src/jobs/scrape-cache.service.ts:62-89 | the reference answer is the last non-empty completion of the log for a job with the same text, if there is any |
| RateLimiter.PublicApiRateLimit.Use | apps/api/src/common/middleware/public-api-rate-limit.middleware.ts:22-77 | counts a limited request in its running window or in a new one of 60000 ms and admits it while the count is within the stored limit, or the global one if none or zero is stored; unlimited keys are neither counted nor stopped; headers report the limit, the rest and the reset time |
| RateLimiter.SlidingBound | apps/api/src/common/middleware/public-api-rate-limit.middleware.ts:47-74 | for requests in time order every half-open minute admits at most 2n - 1 requests of a key with limit n |
| RateLimiter.WindowBound | apps/api/src/common/middleware/public-api-rate-limit.middleware.ts:47-74 | each window admits at most the limit, and exactly the limit once it is used up |
| RateLimiter.BoundAttained | apps/api/src/common/middleware/public-api-rate-limit.middleware.ts:47-74 | for every positive limit n there is a trace with 2n - 1 admissions within one minute |
| JobStore.JobStore.SaveRecord | apps/api/src/jobs/job-store.service.ts:50-62 | stores the record and keeps the index equal to the distinct ids of the save history read backwards, up to its maximum |
| JobStore.SaveRefines | apps/worker/src/jobs/job-store.service.ts:44-56 | remove, push and trim on the bounded index is one more save in the history |
| JobStore.IndexPlace | apps/api/src/jobs/job-store.service.ts:55-61 | a job is listed if and only if fewer than the maximum other jobs were saved since its last save, at the place of their number |
| JobStore.RecentKnown | apps/api/src/jobs/job-store.service.ts:50-62 | the index has no duplicates, is bounded and lists saved jobs only |
| JobStore.JobStore.UpdateStatus | apps/api/src/jobs/job-store.service.ts:122-141 | changes status, error and time of a known job and makes it the newest; an unknown job changes nothing |
| JobStore.JobStore.UpdateProgress | apps/worker/src/jobs/job-store.service.ts:110-131 | changes progress, stage, error and time of a known job and makes it the newest; an unknown job changes nothing |
| JobStore.JobStore.GetIdempotentJob | apps/api/src/jobs/job-store.service.ts:99-106 | answers with the bound job's record exactly while the binding has not expired and the record exists |
| JobStore.JobStore.SaveIdempotentJob | apps/api/src/jobs/job-store.service.ts:108-120 | binds the key to the job for the result time to live |
| JobStore.JobStore.SaveResult | apps/api/src/jobs/job-store.service.ts:64-74 | stores the result of a job for the result time to live |
| JobStore.JobStore.GetResult | apps/api/src/jobs/job-store.service.ts:84-90 | answers with the stored result exactly while it has not expired |
| JobStore.JobStore.ListRecords | apps/api/src/jobs/job-store.service.ts:166-196 | returns the listed records from the offset on, at most the limit, newest first, none dropped; limits below one count as one |
| JobStore.JobStore.GetPaginatedJobs | apps/api/src/jobs/jobs.service.ts:465-495 | returns the page of the listing that the paging specification describes |
| JobStore.PagesPartition | apps/api/src/jobs/jobs.service.ts:465-495 | the pages put together are the whole listing once and in order, pages before the last are full, later ones empty, and a next page is announced exactly when it has records |
| JobStore.PageFacts | apps/api/src/jobs/jobs.service.ts:465-495 | a previous page is announced on all pages but the first, and the first page is shown for a missing page number and for one below one |
| JobStore.JobStore.GetOverviewData | apps/api/src/jobs/job-store.service.ts:204-253 | counts the listed records by status and returns the newest, all of them or as many as the limit says, at least one |
| JobStore.StatusCountsTotal | apps/api/src/jobs/job-store.service.ts:229-245 | the status counts add up to the number of listed records |
| Enqueue.JobsService.EnqueueFromInput | apps/api/src/jobs/jobs.service.ts:158-365 | one call moves records, saves, key bindings, stored results, messages and webhook events exactly as specified, on all branches: live key, cached answer, refused target, new job; only the caller's own cloudscraper is replaced by http |
| Enqueue.JobsService.Retry | apps/api/src/jobs/jobs.service.ts:367-387 | repeats an earlier job's request without its key, and does nothing for an unknown job |
| Enqueue.NewJob | apps/api/src/jobs/jobs.service.ts:158-362 | a call that makes a job saves one record, under the new id, with the strategy asked for, http for cloudscraper or the default for none, and the trimmed texts; it binds the trimmed key for the time to live and answers with the job |
| Enqueue.CachedJob | apps/api/src/jobs/jobs.service.ts:224-268 | a cached answer saves a completed record and a result with the content and completion time of the cache entry, and sends job.completed if there is a webhook |
| Enqueue.QueuedJob | apps/api/src/jobs/jobs.service.ts:272-348 | any other job is saved as queued and its record is what the workers are sent; a target given by id is kept and supports the strategy, and a service or host gives the id of the worker found |
| Enqueue.KnownJob | apps/api/src/jobs/jobs.service.ts:187-205 | a call with a live key changes nothing and is answered with the bound job's status, progress, queueing time and target as they are now |
| Enqueue.RetriedJob | apps/api/src/jobs/jobs.service.ts:367-387 | a retry's record has the earlier job's strategy, targets, webhook and cache use, names that job and has no key |
| Enqueue.TrimUnique | apps/api/src/jobs/jobs.service.ts:177-185 | a text without the spaces at its ends is determined, so the trimmed texts above are |
| Enqueue.OneJobPerKey | apps/api/src/jobs/jobs.service.ts:187-205 | in any run shorter than the time to live that starts with a free key, the calls with the key save one record if any succeeds and none otherwise, publish at most one message or event, change the state at most once, and all that succeed get the same job |
| Enqueue.WhileLive | apps/api/src/jobs/jobs.service.ts:187-205 | while a key is live its calls change nothing and get the job it is bound to |
| Enqueue.EveryJobServed | apps/api/src/jobs/jobs.service.ts:224-348 | in every run each saved job has a message to the workers or a stored result, and only jobs with a stored result have been announced, as completed and to a webhook |
| Enqueue.RejectedBindsNothing | apps/api/src/jobs/jobs.service.ts:272-306 | a call is turned down exactly when it has no live key, no cached answer and no suitable worker, and it then changes nothing |
| Enqueue.KeyExpires | apps/api/src/jobs/job-store.service.ts:108-120 | a later successful call gets the first job if and only if less than the time to live has passed |
| RoundRobin.WorkerRegistry.ResolveWorkerWithRoundRobin | apps/api/src/jobs/worker-registry.service.ts:48-70 | chooses the member of the sorted list whose turn the counter says, and counts only for two or more members |
| RoundRobin.WorkerRegistry.ResolveWorker | apps/api/src/jobs/worker-registry.service.ts:122-167 | finds a worker exactly when a live one has the name and supports the strategy, and only such a one, whose turn it is |
| RoundRobin.SameArrangement | apps/api/src/jobs/worker-registry.service.ts:52-54 | the order of turns does not depend on the order in which live workers are found |
| RoundRobin.EligibleIff | apps/api/src/jobs/worker-registry.service.ts:31-46 | a worker is eligible exactly when it has the service name or host name asked for and supports the strategy, if there is one |
| RoundRobin.RotationKeys | apps/api/src/jobs/worker-registry.service.ts:136-162 | two rotation keys of workers are the same exactly for the same service name, or for two host names that sanitize alike |
| RoundRobin.PoolKeys | packages/shared/src/index.ts:252-270 | two rotation keys of proxies are the same exactly for the same source and, for services, names that sanitize alike |
| RoundRobin.ProxyPolicy.SelectProxy | apps/worker/src/jobs/proxy-policy.service.ts:46-71 | chooses the proxy whose turn the counter says; a single proxy is chosen without counting |
| RoundRobin.ProxyPolicy.ResolveForJob | apps/worker/src/jobs/proxy-policy.service.ts:110-153 | a job is served from the first of its pools, directly only when it has none: a forced environment pool, the service's, the global one, its own proxy, the environment pool on request |
| RoundRobin.Fairness | apps/api/src/jobs/worker-registry.service.ts:64-69 | from any counters and between any calls on other keys or with lists of fewer than two members, the calls with a list serve any two members equally often up to one, and exactly equally often when their number is a multiple of the list's size |
| RoundRobin.FairIff | apps/api/src/jobs/worker-registry.service.ts:56-69 | a list is served evenly in every schedule if and only if every other list on its key has fewer than two members |
| RoundRobin.ExactShare | apps/worker/src/jobs/proxy-policy.service.ts:64-65 | the exact number of turns of a member among m calls from a given counter |
| RoundRobin.SharedKeyStarves | apps/api/src/jobs/worker-registry.service.ts:158-166 | from any counters, a list and any other list of two or more members can take turns on a key so that all turns of the first go to one member, for as long as it goes on |
| Polling.AdaptiveInterval | packages/sdk-node/src/client.ts:110-142 | for steps in any order the interval used is that of the one step in force: the last begun, ties to the last given, and before all of them the earliest, ties to the first given |
| Polling.InForceUnique | packages/sdk-node/src/client.ts:126-142 | at most one step is in force |
| Polling.DefaultInterval | packages/sdk-node/src/client.ts:110-142 | without steps the interval is 120, 200, 300, 450 and 700 ms from 0, 600, 1500, 3000 and 6000 ms on |
| Polling.ResolveAdaptiveInterval | packages/sdk-node/src/client.ts:126-142 | the loop returns the interval of the last step of the list's begun prefix, else the first step's, else 2000 |
| Polling.SortSorted | packages/sdk-node/src/client.ts:118-123 | normalizing keeps the steps and puts them in order of their start |
| Polling.Client.WaitForCompletion | packages/sdk-node/src/client.ts:289-349 | the loop ends after at most the timeout divided by the shortest pause, rounded up, polls; every pause is the fixed interval or that of the step in force; all answers but the last were queued or processing, any other one is reported as it is, a timeout only after the deadline, and an abort, a failed request or a result only when there was one |
| Polling.Client.WaitForResult | packages/sdk-node/src/client.ts:314-336 | the inner loop ends with the result, after the deadline, with an abort, or with a request that throws, and pauses rightly and only before the deadline |
| TimeSeries.GetOverviewTimeSeries | apps/api/src/jobs/jobs.service.ts:534-615 | returns exactly the asked number of contiguous buckets, the last one current, each counting the jobs dated within it, in total, completed and failed |
| TimeSeries.SafeLookback | apps/api/src/jobs/jobs.service.ts:534-548 | the number of buckets is the whole part of the one asked for, from 1 to 120, and 24, 14 or 30 by timeframe if none is |
| TimeSeries.EmptyBuckets | apps/api/src/jobs/jobs.service.ts:566-580 | the cursor loop creates one empty bucket for each step from start to end, in order |
| TimeSeries.Group | apps/api/src/jobs/jobs.service.ts:582-602 | the grouping loop adds each dated job to its bucket if it is shown, and to no other |
| TimeSeries.BucketContains | apps/api/src/jobs/jobs.service.ts:134-152 | a time's bucket starts at a boundary of its hour, half day or day and contains the time |
| TimeSeries.OnlyBucket | apps/api/src/jobs/jobs.service.ts:134-152 | a boundary's bucket contains a time if and only if it is the time's own bucket |
| TimeSeries.TotalsAddUp | apps/api/src/jobs/jobs.service.ts:582-602 | the dispatched totals add up to the jobs dated within the window |
| TimeSeries.OneBucketEach | apps/api/src/jobs/jobs.service.ts:588-593 | a time lies in exactly one bucket if it lies in the window and in none otherwise |
| TimeSeries.OutcomesBounded | apps/api/src/jobs/jobs.service.ts:595-601 | completed plus failed never exceeds dispatched in a bucket |

## Left out

- QueueConsumer.Platform.HandleMessage: does not model the malformed-payload branch, because no producer of the service writes such a message and it carries no job; it describes the handler while its worker lives, and a lost connection is a protocol action that ends the handler.
- QueueConsumer.Platform.AnswerFromCache: takes the four writes the code starts at once one after the other.
- DeliveryOutcomes.OneEventPerJob: holds for runs without lost connections, faults and watchdog expiries; each of them can repeat an event in the code, none can drop the only one.
- DeliveryCancellation.NeverScrapedAfterCancel: says nothing about continuations with faults or watchdog expiries, in which the record can be queued again.
- StableParser.HasTwin: gives one twin for every value with two entries in some object, not all of them; a key can also contain the brackets of a nested value.
- Fingerprint.UniqueDecoding: assumes keys without quotes, because the code prints keys unescaped.
- ScrapeCache.Cache.Get: does not model entries that are not valid JSON, and treats the 64-bit digest as injective; ages are counted from the moment of storing, as the store does.
- ScrapeCache.HitIsSound: assumes keys without quotes, although the API accepts any keys in headers and form data; with them the claim is false of the code, as WrongHit shows.
- ScrapeCache.KeysMatch: assumes keys without quotes for the same reason; KeysAlike holds for all keys.
- Enqueue.JobsService.EnqueueFromInput: takes the four writes that the cached branch starts at once one after the other, and its calls to the other services do not throw.
- Enqueue.OneJobPerKey: calls are serialized; two calls that look the key up at the same time can both create a job in the code.
- Polling.Client.WaitForCompletion: does not model intervals that are not numbers.
- TimeSeries.BucketContains: assumes a fixed offset from the epoch's time; daylight-saving changes are not modelled.
- RoundRobin.Fairness: reads the counter, and not the members' health; a worker that stops between two calls changes the list.
- Default values of a job's retry, delay and timeout options and of a client's polling interval and timeout: they come in with the request or the call.
- Progress, stage and proxy fields of records, heartbeats and counters in the delivery protocol: their updates do not touch the status and would be steps that change nothing there.
- Expiry of results and records in the store of the delivery protocol: a process call never reads them again.
- Numbers other than integers in options, keys compared by locale, and strings with lone surrogates.
- HTTP fetching, page driving and the browser pool: a strategy execution succeeds or fails arbitrarily.
- Authentication, request validation, signing of webhooks, health endpoints, logging, the web interface and the overview's short-lived cache.
- A webhook message that is not valid JSON: the dispatcher's handler throws on it.

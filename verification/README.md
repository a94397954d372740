# Delivery of display quotes: a verified model

Quotes shown by a web terminal travel from a browser page to a tick table: an observer in the
page finds and reads the quote cells, the extension's service worker queues what was read in a
persistent outbox and posts it, and a local collector leases each pair to one document,
normalizes the quote through an adapter and stores raw rows and ticks. Every stage has bounded
buffers, retries and its own idea of order, and each can be restarted on its own. This project
models the stages as state machines, proves the classes that implement them against these
machines, and proves what holds over all their runs, alone and composed.

## How it is organized

| file | content |
|---|---|
| Base.dfy | options, the instrument registry, cyclic scanning |
| DomScan.dfy, ScanLaws.dfy, DomObserver.dfy | the page scan; what it finds, from the page alone; the acquire / emit / stale machine and its class |
| OutboxModel.dfy, OutboxLists.dfy, OutboxLaws.dfy, OutboxTheorems.dfy | the outbox machine, facts on queues, its invariants, its theorems |
| OutboxCodec.dfy | what the outbox writes to extension storage and reads back |
| OutboxAnswers.dfy, PersistentOutbox.dfy | what an answer does to its event; the outbox class, whose drain loop refines the machine and terminates |
| AdapterModel.dfy, AdapterLaws.dfy, AdapterRules.dfy, CacheLaws.dfy | the normalizer with its cache, its class, and its laws; exactly how each envelope is answered; what the cache is needed for |
| FairQueue.dfy | the collector's per-pair queues under asyncio suspension |
| CollectorModel.dfy, CollectorLaws.dfy, SessionLaws.dfy, LeaseLaws.dfy, IngestLaws.dfy, StoreLaws.dfy, CollectorApp.dfy | sessions, leases, ingest and stores; the laws, message by message and over runs; the classes |
| LostTicks.dfy, DocumentIdentity.dfy, SingleSource.dfy | what fails: lost ticks and their exact extent; a document with two connections; the concrete runs behind both |
| Delivery.dfy, DeliveryOrder.dfy, DeliveredTicks.dfy, StoredQuotes.dfy | outbox, network and collector composed |

Machines are total step functions folded over a list of steps; a step that is not possible in a
state changes nothing. A class carries the fields of the original object, and each method's
postcondition gives the whole new state as the machine's step. The theorems are about `Run`.

## Assumptions

- Event ids are unique (apps/browser_bridge/src/service-worker.ts:190); an enqueue of a used id does not happen.
- A document id determines its session and its connection (apps/browser_bridge/src/bridge-protocol.ts:26-40): `connOf`, and sessions are identified with documents. `DocumentIdentity.TwoConnectionsRepeatASequence` shows what happens otherwise.
- One write to extension storage is atomic, and so is each store of the collector. One handler of the collector is one step with respect to the others; A request may be handled after its client gave up on it (apps/browser_bridge/src/service-worker.ts:62-87), any number of times and at any later moment: the step `Late`. Stores may fail at the lookup, before the pipeline, between adapter and raw store, between raw store and tick, and after everything.
- Quotes of this browser's documents reach the collector through its outbox only: `Exclusive`. `DeliveryOrder` and `StoredQuotes` need it in the whole run, `DeliveredTicks.HeldBack` and `DeliveredTicks.DeliveredTickStoredExactlyWhen` between two attempts; `Delivery.DeliveryIsSound`, `DeliveredTicks.RetriedTickStoredExactlyWhen` and `DeliveredTicks.LostForEver` do not.
- The last load or alarm request of a drain and the clearing of `draining` are one step.
- The digest used as cache key is injective, so the digested tuple is the key.

Clock readings are arbitrary integers, one for each reading of the code unless noted below; where
a theorem needs clocks to agree, its precondition says so.

## Where the code and its documents differ

- docs/ARCHITECTURE.md:40 and docs/DATA_FLOW.md:15 say that raw input is stored before normalization. The pipeline runs the adapter first (apps/collector/src/forex_collector/pipeline.py:30) and stores afterwards (line 41), so a failing raw store advances the adapter and the retry yields no tick; and a failing tick store leaves a raw row that makes every retry a duplicate. `LostTicks.TickIsLost` gives both cases, `LostTicks.RetryPublishesExactlyWhen` and `DeliveredTicks.RetriedTickStoredExactlyWhen` their exact extent; the model follows the code. Raw rows do precede their ticks in the store.
- docs/DATA_FLOW.md:30-32 promises no second durable row for a repeated event id. This holds (`StoreLaws.AtMostOneRowPerEvent`), and it is at-most-once: see above.
- docs/ARCHITECTURE.md:35 says that capacity is reserved per pair. With fewer than five places the total runs out first: `OutboxTheorems.RefusalIsByOwnGroup` gives the exact condition.
- An event that names no instrument but whose body does changes its group when it is read back from storage (apps/browser_bridge/src/outbox.ts:97). `OutboxCodec.EventRoundTrip` gives the exact condition; the service worker builds no such event.

## Model

| member | source | states |
|---|---|---|
| `Delivery.DeliveryIsSound` | apps/collector/src/forex_collector/main.py:657-748 | End to end, for every interleaving of enqueues, drains, lost requests, lost answers, requests handled after their client gave up on them, worker crashes, collector restarts and failing stores: an event counted as acknowledged has its raw row or was a standby observation; each event id has at most one raw row and one tick, never a tick without its raw row; per document and pair the stored sequences strictly increase |
| `StoredQuotes.StoredTicksWereEnqueued` | apps/browser_bridge/src/content.ts:38-54 | In every run of browser, network and collector, each stored tick of this browser's documents is a quote that was enqueued, with the same event id, document, pair, number, bid and ask |
| `Delivery.AnsweredExactlyWhen` | apps/browser_bridge/src/service-worker.ts:92-102 | An event in flight is acknowledged exactly when it was handled without a failure and the answer arrived, rejected exactly when refused for good, and otherwise to be tried again |
| `DeliveryOrder.NumberedQuotesNeverArriveOutOfOrder` | apps/browser_bridge/src/content.ts:38-54 | If quotes of each document and pair are enqueued in numbered order and travel through the outbox only, then after any run, requests handled late included, the adapter never answers SEQ_OUT_OF_ORDER to the event out for delivery; only repeats can occur. When it does answer so is `AdapterRules.SequenceAnsweredExactlyWhen` |
| `DeliveryOrder.LateInOrder` | apps/browser_bridge/src/service-worker.ts:62-87 | A request handled after its client gave up on it carries a number at or below everything pending and everything to come of its document and pair, so it keeps the order invariant |
| `DeliveryOrder.OutIsLeast` | apps/browser_bridge/src/outbox.ts:236-251 | The quote out for delivery carries the least number pending for its document and pair |
| `DeliveryOrder.NotBehindIsInOrder` | adapters/ic_markets/src/ic_markets_adapter/adapter.py:285-318 | A display quote at or beyond everything known live and everything stored is never ruled out of order |
| `Delivery.OutIsPending` | apps/browser_bridge/src/outbox.ts:282-292 | The event out for delivery is still pending and the first of its group |
| `OutboxTheorems.DeliveriesAreStutteringFifo` | apps/browser_bridge/src/outbox.ts:236-326 | In every run the deliveries of a group, repeats collapsed, are a prefix of its accepted order, contain all that left, and exceed it by at most the one event in line |
| `OutboxTheorems.QueueKeepsItsOrder` | apps/browser_bridge/src/outbox.ts:191-323 | In every run the stored queue is, across groups, the accepted events in their order but for those that left; a retry changes no place |
| `OutboxTheorems.InFlightStaysHead` | apps/browser_bridge/src/outbox.ts:275-295 | The event out for delivery stays the head of its group until its own commit, whatever is enqueued meanwhile |
| `OutboxTheorems.OncePerDrain` | apps/browser_bridge/src/outbox.ts:260-273 | One drain delivers no event twice |
| `OutboxTheorems.Conservation` | apps/browser_bridge/src/outbox.ts:143-150 | produced = acknowledged + pending + dropped and rejected <= dropped, in total and per instrument, in every durable state |
| `OutboxTheorems.TotalsAreSums` | apps/browser_bridge/src/outbox.ts:143-150 | Every total counter is the sum of the four per-instrument counters and the discovery share |
| `OutboxTheorems.ExactlyOneFate` | apps/browser_bridge/src/outbox.ts:191-215 | Every produced event is exactly one of pending, acknowledged, rejected, refused |
| `OutboxTheorems.CapacityIsReserved` | apps/browser_bridge/src/outbox.ts:195-209 | Every group holds at most max(1, maxSize / 5) events and all together at most maxSize, in every reachable state |
| `OutboxTheorems.RefusalIsByOwnGroup` | apps/browser_bridge/src/outbox.ts:202-205 | "An enqueue is refused only because its own group is full" holds in all reachable states if and only if maxSize >= 5; below that a run that fills the outbox with other groups is built |
| `OutboxTheorems.FullMeansOwnGroupFull` | apps/browser_bridge/src/outbox.ts:202-205 | With a place per group, a refusal means that the own group is full (sums the group partition) |
| `OutboxTheorems.BoundedBypass` | apps/browser_bridge/src/outbox.ts:236-251 | A due, unattempted head stays due, unattempted and the drain goes on until it is served; the groups served before it lie between the cursor and it, each further on than the last: at most four, all different |
| `OutboxTheorems.MoveKeepsWaiting` | apps/browser_bridge/src/outbox.ts:236-251 | Ranking: each selection of another group brings the waiting group strictly closer to the cursor |
| `OutboxTheorems.DrainEnds` | apps/browser_bridge/src/outbox.ts:263-272 | A decision ends the drain exactly when nothing was loaded, or every head is absent, attempted or not due; then the alarm is the later of now and the earliest head |
| `OutboxTheorems.HeadTimesAreHeads` | apps/browser_bridge/src/outbox.ts:253-258 | groupHeads lists exactly the first event of each group |
| `OutboxTheorems.BackoffIsCapped` | apps/browser_bridge/src/outbox.ts:313 | Retry delays start at 0.5 s, double, and are 30 s exactly from the sixth attempt on |
| `OutboxLaws.RunKeepsGood` | apps/browser_bridge/src/outbox.ts:156-326 | All outbox invariants together are kept by every run of enqueue, load, decide, answer, commit, schedule and crash |
| `PersistentOutboxClass.PersistentOutbox.DrainLoop` | apps/browser_bridge/src/outbox.ts:228-326 | With finitely many enqueues arriving in its windows the loop terminates; what it did is a run of the machine; it delivers each event at most once, stops only where it may, and asks for at most one alarm, the right one. The j-th delivery met the j-th answer: exactly the deliveries that returned acknowledged joined the acknowledged events, in order, exactly those that returned neither acknowledged nor retryable the rejected ones, and every other one, a throw included, is pending with one attempt more and its next attempt 0.5, 1, 2, 4, 8, 16 or 30 s after its answer. When the loop ends, every group head of its last load is due later than its last decision or was put back by this drain |
| `PersistentOutboxClass.PersistentOutbox.Deliver` | apps/browser_bridge/src/outbox.ts:275-323 | One round: of the events that were pending only the delivered one changed; it is postponed in its place, or it left and the others closed up; what arrived meanwhile is behind them |
| `OutboxAnswers.CommitSettles` | apps/browser_bridge/src/outbox.ts:275-323 | The same of one commit: which history the event joins, and where and until when it waits |
| `OutboxTheorems.DrainClears` | apps/browser_bridge/src/outbox.ts:260-323 | In every run from the start of a drain on, an attempted event that is still pending is out for delivery or was put back after that start |
| `PersistentOutboxClass.PersistentOutbox.Enqueue` | apps/browser_bridge/src/outbox.ts:191-215 | True exactly when fewer than maxSize events are pending and fewer than max(1, maxSize / 5) of the event's pair (or of none); then it is the last of the queue, and otherwise it is counted as dropped; counters are those of the machine |
| `OutboxTheorems.ReservedPlacesAreUsable` | apps/browser_bridge/src/outbox.ts:195-209 | In every reachable state of an outbox with five places or more, a new event whose group has fewer than maxSize / 5 pending is accepted, at the end |
| `PersistentOutboxClass.PersistentOutbox.SelectNext` | apps/browser_bridge/src/outbox.ts:236-251 | The loop over cyclic offsets picks the head of the nearest ready group and moves the cursor just past it |
| `PersistentOutboxClass.PersistentOutbox.Settle` | apps/browser_bridge/src/outbox.ts:282-323 | The commit of an acknowledgement, a rejection or a retry changes queue and counters as the machine's commit does |
| `PersistentOutboxClass.PersistentOutbox.Choose` | apps/browser_bridge/src/outbox.ts:263-273 | Empty, chosen head, or alarm: the decision on a loaded snapshot |
| `RoundRobin.NextIsNearest` | apps/browser_bridge/src/outbox.ts:237-250 | The cyclic scan finds something exactly when something is ready, and what it finds is nearest to the cursor |
| `RoundRobin.ServingOthersComesCloser` | apps/collector/src/forex_collector/fair_queue.py:27-38 | Serving a nearer group moves every other one closer by exactly the distance skipped |
| `OutboxCodec.EventRoundTrip` | apps/browser_bridge/src/outbox.ts:78-108 | A stored event reads back unchanged if and only if it names its instrument or its body names none; otherwise it comes back in the group its body names |
| `OutboxCodec.ListRoundTrip` | apps/browser_bridge/src/outbox.ts:166-180 | The stored queue reads back unchanged, in order, if and only if each of its events does; nothing is lost in any case |
| `OutboxCodec.ParsesExactlyWhen` | apps/browser_bridge/src/outbox.ts:78-108 | An entry read from storage is kept if and only if it has its six fields, each of its kind; its pair is the first named by the entry, its body, or the body's payload |
| `OutboxCodec.BridgeEventsSurvive` | apps/browser_bridge/src/service-worker.ts:178-233 | Every event the service worker builds survives storage |
| `OutboxCodec.StatsRoundTrip` | apps/browser_bridge/src/outbox.ts:110-141 | All counters survive storage, in total and per instrument |
| `OutboxCodec.MissingStatsAreZero` | apps/browser_bridge/src/outbox.ts:124-141 | Storage that holds no counters reads as all zero |
| `FairQueue.NoLostWakeUp` | apps/collector/src/forex_collector/fair_queue.py:21-43 | At every suspension point, with any number of putters and getters, the event is set exactly when some pair queue is non-empty, and a getter is left waiting only when all are empty |
| `FairQueue.QueuesAreBoundedFifos` | apps/collector/src/forex_collector/fair_queue.py:11-55 | Per pair the items taken are a prefix of the items put and the rest is queued in order; depths stay within total / 4 and their sum within total |
| `FairQueue.PutSucceedsExactlyWhen` | apps/collector/src/forex_collector/fair_queue.py:11-23 | In every run a put succeeds if and only if fewer than total / 4 items of its pair are queued; then the item is last of its pair and every waiting getter is woken |
| `FairQueue.JoinMeansAllWorkDone` | apps/collector/src/forex_collector/main.py:505-523 | With workers calling task_done once per item, join returns exactly when every item put was taken and finished |
| `FairQueue.ServedWithinFourGets` | apps/collector/src/forex_collector/fair_queue.py:25-43 | Once a pair holds an item, its head is among the next four items taken, whatever happens in between |
| `FairQueue.GetServesOrComesCloser` | apps/collector/src/forex_collector/fair_queue.py:27-38 | One get serves the pair's head, or leaves it in place and strictly closer |
| `FairQueue.FairInstrumentQueue.Put` | apps/collector/src/forex_collector/fair_queue.py:21-23 | Done exactly when fewer than total / 4 items of the pair are queued: appends and sets the event, or stays suspended |
| `FairQueue.FairInstrumentQueue.Get` | apps/collector/src/forex_collector/fair_queue.py:25-43 | Takes the nearest head or suspends with the event cleared; the branch that sets the event again is unreachable |
| `FairQueue.RunKeepsGood` | apps/collector/src/forex_collector/fair_queue.py:11-46 | The queue invariant (FIFO split, bound, unfinished = depth + in flight, wake-up) over every run |
| `AdapterLaws.PublishesExactlyWhen` | adapters/ic_markets/src/ic_markets_adapter/adapter.py:143-660 | A tick with this bid and ask is published if and only if the envelope is well formed, its quote is complete and plausible, its sequence exceeds the live one (or, without one, the stored one), its times and delays are tolerated, and its identity is not cached; independent of the order of the checks |
| `AdapterRules.CheckAnsweredExactlyWhen` | adapters/ic_markets/src/ic_markets_adapter/adapter.py:180-422 | Each of the fifteen checks of structure, provider time, sides and prices is the answer, alone and without a tick, if and only if the envelope fails it by itself and fails none listed before it |
| `AdapterRules.SequenceAnsweredExactlyWhen` | adapters/ic_markets/src/ic_markets_adapter/adapter.py:285-318 | A quote that is otherwise fine and not cached is answered [SEQ_OUT_OF_ORDER] if and only if its sequence is below the one known of its key (the live one, else for display quotes the stored one), and [SEQ_REPEATED] if and only if it is that one, each without the provider-time warning |
| `AdapterRules.TimeAnsweredExactlyWhen` | adapters/ic_markets/src/ic_markets_adapter/adapter.py:502-535 | Such a quote is answered [TIME_OUT_OF_ORDER] if and only if its sequence does not stay behind, its time went back behind the live quote's, and it is no numbered display quote |
| `AdapterRules.RepeatAnsweredExactlyWhen` | adapters/ic_markets/src/ic_markets_adapter/adapter.py:424-454 | [DUP_STRONG_KEY] is the answer if and only if the quote passes every check and its identity is in the purged cache |
| `AdapterRules.PassingAnswers` | adapters/ic_markets/src/ic_markets_adapter/adapter.py:424-660 | The whole answer to a quote that passes every check: duplicate, stale rule, the warnings up to the first one the configuration forbids, or the tick with every warning that applies in order; every field of the tick, the live quote, and the cache entry |
| `AdapterLaws.WarningsAreExact` | adapters/ic_markets/src/ic_markets_adapter/adapter.py:455-612 | Each warning of a published tick is there if and only if its condition holds (missing provider time, clock went back, jump, spread, negative or excessive delay) |
| `AdapterLaws.CacheIsBounded` | adapters/ic_markets/src/ic_markets_adapter/adapter.py:81-89 | After every call the cache holds at most max(1, configured) - 1 entries |
| `AdapterLaws.PurgeIsExact` | adapters/ic_markets/src/ic_markets_adapter/adapter.py:81-89 | A purge drops exactly the leading entries older than the lifetime and of the others all but the last max - 1 |
| `AdapterLaws.CacheSettingsAreInvisible` | adapters/ic_markets/src/ic_markets_adapter/adapter.py:424-501 | On streams whose envelopes carry sequences (all display streams, and numbered provider streams) every cache size and lifetime publishes the same ticks |
| `AdapterLaws.OrderedRunIgnoresCache` | adapters/ic_markets/src/ic_markets_adapter/adapter.py:424-501 | ... namely those of an adapter without a cache; invariant: a cached identity has a live quote of its key with at least its sequence |
| `AdapterLaws.KeysDoNotInterfere` | adapters/ic_markets/src/ic_markets_adapter/adapter.py:91-97 | On such streams a key's ticks depend only on its own envelopes and disconnects, under any interleaving |
| `CacheLaws.SizeMattersExactlyWhen` | adapters/ic_markets/src/ic_markets_adapter/adapter.py:440-454 | After every stream that carries sequences, for every envelope and configuration: what it publishes when it then comes twice is independent of the cache size if and only if it carries a sequence itself, no bid and ask of it can be published then, it is a partial whose own publication is too old for it, or the lifetime is negative; so quotes without a sequence need the cache, snapshots and partials alike |
| `CacheLaws.RepeatIsPublishedExactlyWhen` | adapters/ic_markets/src/ic_markets_adapter/adapter.py:424-501 | In every run, a published quote that comes again at once is published again if and only if it has no sequence and the cache keeps nothing (size at most 1 or negative lifetime), and, for a partial, a quote of its own age is not too old |
| `CacheLaws.UnnumberedQuotesNeedTheCache` | adapters/ic_markets/src/ic_markets_adapter/adapter.py:336-379 | Both kinds occur: an unnumbered snapshot sent twice yields 2 ticks without room in the cache and 1 with it; an unnumbered partial sent twice after a numbered snapshot yields 3 and 2 |
| `AdapterLaws.TouchedQuoteStaysSuppressed` | adapters/ic_markets/src/ic_markets_adapter/adapter.py:440-454 | LRU retention from the last touch, publication or duplicate hit: while fewer than max - 1 other identities are published or repeated, no call comes after the entry's lifetime, and its session is not disconnected, the entry stays cached; the quote coming again is answered as a duplicate and is thereby touched again |
| `AdapterLaws.PublishedQuoteStaysSuppressed` | adapters/ic_markets/src/ic_markets_adapter/adapter.py:440-454 | In particular, counted from its publication, the quote is not published again in that time |
| `AdapterLaws.StateIsLastTick` | adapters/ic_markets/src/ic_markets_adapter/adapter.py:653-660 | The stored quote of a key is exactly the last tick since its last disconnect, and every tick lies in the broad range with bid <= ask |
| `AdapterLaws.PartialKeepsOtherSide` | adapters/ic_markets/src/ic_markets_adapter/adapter.py:336-379 | A partial tick changes one side and keeps the other from the key's last tick, which is no older than the limit |
| `AdapterLaws.TicksKeepOrder` | adapters/ic_markets/src/ic_markets_adapter/adapter.py:472-535 | Per key since its last disconnect: display ticks have strictly increasing sequences; ticks of provider-only keys never go back in order time |
| `IcMarketsAdapterClass.IcMarketsAdapter.PurgeSeen` | adapters/ic_markets/src/ic_markets_adapter/adapter.py:81-89 | The two loops drop the expired prefix and then the oldest entries down to the bound |
| `IcMarketsAdapterClass.IcMarketsAdapter.OnDisconnect` | adapters/ic_markets/src/ic_markets_adapter/adapter.py:91-97 | Deleting while iterating removes exactly the session's quotes and cache entries and keeps the order of the others |
| `IcMarketsAdapterClass.IcMarketsAdapter.Process` | adapters/ic_markets/src/ic_markets_adapter/adapter.py:143-660 | State, cache and output after process are those of the step function the laws are about |
| `CollectorLaws.SessionsConfineEverything` | apps/collector/src/forex_collector/main.py:162-191 | After every handler: at most 100 sessions, every lease holder is one of them, every adapter key belongs to one of them, at most 400 quotes |
| `CollectorLaws.RefreshKeepsFresh` | apps/collector/src/forex_collector/main.py:162-174 | A refresh removes exactly the sessions silent for longer than the expiry time, keeps the others in order, and forgets exactly the removed sessions' quotes |
| `CollectorLaws.EligibleExactlyWhen` | apps/collector/src/forex_collector/main.py:176-183 | Eligible if and only if recent, observer ready, and target neither missing nor ambiguous |
| `SessionLaws.TouchReports` | apps/collector/src/forex_collector/main.py:357-437 | What a message leaves of its sender: an observation makes the session ready and the observed pair READY and keeps every other pair; a heartbeat sets readiness and all pairs; a discovery message changes neither; what a new session does not report is not ready and MISSING; connection and time are the message's |
| `SessionLaws.TouchSparesOthers` | apps/collector/src/forex_collector/main.py:357-453 | Another session's entry is there afterwards, unchanged, if and only if it was there, was heard of within the expiry time at both refreshes, and is not the first longest silent one of a full table that a new session displaces |
| `SessionLaws.PlacesAreKept` | apps/collector/src/forex_collector/main.py:379-437 | A listed session keeps its place in the table and a new one comes last |
| `SessionLaws.ObserverKeepsOtherPairs` | apps/collector/src/forex_collector/main.py:424-436 | An observation of one pair costs its sender no lease of another pair it is a source of |
| `SessionLaws.OthersKeepTheirPairs` | apps/collector/src/forex_collector/main.py:357-453 | No message costs another session a lease, while that session is a source of the pair before and after and is not displaced |
| `SessionLaws.ExpiryReleasesExactly` | apps/collector/src/forex_collector/main.py:162-174 | Expiry releases exactly the pairs held by the sessions that expire |
| `SessionLaws.GreetingIsCurrent` | apps/collector/src/forex_collector/main.py:657-680 | A quote is decided on sessions that are fresh, and by lease holders heard of recently, at the time it was received |
| `IngestLaws.NotReadyForgets` | apps/collector/src/forex_collector/main.py:637-655 | After a heartbeat that is not ready the adapter has forgotten exactly that session's quotes and those of expired sessions, and the session holds no pair |
| `CollectorLaws.EvictionTakesOldest` | apps/collector/src/forex_collector/main.py:438-447 | An eviction removes the first of the longest silent sessions, exactly its quotes, and leaves the leases to the next refresh |
| `LeaseLaws.FailoverPicksSmallest` | apps/collector/src/forex_collector/main.py:185-191 | A refresh keeps an eligible holder whoever else is eligible; otherwise it picks the smallest eligible id, or none if there is none |
| `LeaseLaws.LeaseIsSticky` | apps/collector/src/forex_collector/main.py:670-692 | If two successive normalized observations of a pair come from different sessions, at some refresh between them the first was not eligible |
| `LeaseLaws.HeldUntilIneligible` | apps/collector/src/forex_collector/main.py:185-191 | As long as every refresh finds the holder eligible it stays the holder |
| `LeaseLaws.NotReadyHoldsNothing` | apps/collector/src/forex_collector/main.py:637-655 | In every run, a session that reports itself not ready holds no lease when its heartbeat has been recorded |
| `LeaseLaws.ObserverBecomesEligible` | apps/collector/src/forex_collector/main.py:357-447 | A session that sends an observation is an eligible source of that pair afterwards, however it reported itself before, and the pair has a lease; in a full table too, when it is listed or some session was not heard of later |
| `LeaseLaws.HeartbeatDecides` | apps/collector/src/forex_collector/main.py:357-447 | Under the same condition a recent heartbeat alone decides eligibility: ready and target neither missing nor ambiguous, if and only if |
| `StoreLaws.StoredSequencesIncrease` | apps/collector/src/forex_collector/main.py:702-748 | Across retries, disconnects, evictions, failing stores and restarts the stored ticks of each document and pair strictly increase in storage order |
| `DocumentIdentity.TwoConnectionsRepeatASequence` | apps/browser_bridge/src/bridge-protocol.ts:26-40 | The assumption is needed: for every document, every two different connections and every two numbers, a sequence is stored twice although the numbers increase over each connection |
| `StoreLaws.ProcessStaysAhead` | adapters/ic_markets/src/ic_markets_adapter/adapter.py:285-318 | Invariant behind it: a live adapter sequence is at least the stored maximum, and what is published is beyond everything stored |
| `StoreLaws.LastSequenceIsMax` | packages/storage/src/storage/postgres.py:93-111 | last_observation_sequence is the maximum of the stored sequences, and is one of them |
| `StoreLaws.AtMostOneRowPerEvent` | apps/collector/src/forex_collector/main.py:681-701 | In every run each event id has at most one raw row and one tick, and no tick without its raw row |
| `StoreLaws.IngestStores` | apps/collector/src/forex_collector/pipeline.py:26-109 | An ingest answered with success, whatever failed before, has its raw row or was a standby observation |
| `IngestLaws.IngestAnswersExactlyWhen` | apps/collector/src/forex_collector/main.py:680-748 | The answer to a quote: standby if and only if the sender holds no lease, duplicate if and only if a raw row has its id, failed if and only if something failed on the way |
| `IngestLaws.IngestStoresExactly` | apps/collector/src/forex_collector/pipeline.py:26-109 | Exactly which rows a quote adds, for every fault: the raw row when it got past the raw store, and the tick, with the quote's id, document, pair, number, bid and ask, when one was published and got past the tick store |
| `IngestLaws.IngestLogsExactly` | apps/collector/src/forex_collector/main.py:680-692 | The log the lease laws speak of: exactly the quotes that get to the adapter are logged as normalized for their sender, exactly those of other sessions as standby |
| `IngestLaws.StoredTicksWereSent` | apps/collector/src/forex_collector/pipeline.py:26-109 | In every run of the collector each stored tick carries a quote that was sent, unchanged |
| `IngestLaws.DiscoveryDoesExactly` | apps/collector/src/forex_collector/main.py:790-825 | The same for discovery messages: answers, rows and sessions |
| `LostTicks.AttemptStoresExactlyWhen` | apps/collector/src/forex_collector/main.py:657-748 | In every run, for every message and fault: after an attempt the event has a tick if and only if it had one, or the handler got to the adapter and past the tick store with a complete, plausible message beyond the live sequence (without one, the stored one) and within the tolerated delay |
| `LostTicks.RetryPublishesExactlyWhen` | apps/collector/src/forex_collector/pipeline.py:30-80 | Over all faults and any steps of other events between a published first attempt and its retry: a tick is stored if and only if the first attempt got past the tick store, or it failed before the raw store and the retry holds the lease, gets past the tick store, is still beyond all that is known, and is in time |
| `LostTicks.TickStoredExactlyWhen` | apps/collector/src/forex_collector/pipeline.py:30-80 | The same when no quote of the document and pair came between, with "beyond all that is known" reduced to: the key lost its live quote (disconnect, expiry, eviction, restart) |
| `LostTicks.AfterRawLosesForEver` | apps/collector/src/forex_collector/pipeline.py:41-80 | A failure between raw and tick store loses the tick in every continuation, retries included, even when the key lost its live quote |
| `LostTicks.RawWithoutTickIsFinal` | apps/collector/src/forex_collector/main.py:693-701 | A raw row without its tick stays without, whatever happens |
| `LostTicks.FailedStoreLosesTheTick` | apps/collector/src/forex_collector/pipeline.py:30-80 | Ticks are not exactly-once: a first attempt that failed between adapter and tick store, and a retry that (after a failure before the raw store) still finds the quote live, store no tick; once the raw row is there nothing ever does |
| `LostTicks.TickIsLost` | apps/collector/src/forex_collector/pipeline.py:30-80 | Concrete losses on an empty collector: with the raw store failing once the retry yields the row alone; with the tick store failing no continuation yields the tick; without a failure the sample yields its tick |
| `DeliveredTicks.RetriedTickStoredExactlyWhen` | apps/collector/src/forex_collector/pipeline.py:30-80 | The exact extent of the loss on the whole path, for every run of browser, network and collector: a quote published by one handled request, in time or late, gets its tick by the next one handled if and only if the first got past the tick store, or failed before the raw store and the second holds the lease, gets past the tick store, is in time and still beyond everything known of its key |
| `DeliveredTicks.DeliveredTickStoredExactlyWhen` | apps/browser_bridge/src/outbox.ts:260-326 | The shorter form between two attempts of the outbox when no request is handled late in between: "beyond everything known" becomes: the key lost its live quote |
| `DeliveredTicks.HeldBack` | apps/browser_bridge/src/outbox.ts:236-251 | Why it is shorter: while a quote waits for its next attempt the outbox keeps it at the head of its group, so unless a request is handled late the collector is asked nothing about its event, or about its document and pair |
| `DeliveredTicks.LostForEver` | apps/collector/src/forex_collector/pipeline.py:41-80 | A published quote whose handled request, in time or late, failed between raw and tick store never gets its tick, in every continuation of browser, network and collector |
| `DeliveredTicks.AllAskedMove` | apps/browser_bridge/src/service-worker.ts:92-102 | The collector's part of every run of the whole path is a run of the collector |
| `LostTicks.RunKeepsCovered` | adapters/ic_markets/src/ic_markets_adapter/adapter.py:91-97 | In every run of the collector a cached identity has a live quote of its key with at least its sequence |
| `LostTicks.RepeatedSequenceIsSuppressed` | adapters/ic_markets/src/ic_markets_adapter/adapter.py:472-501 | A quote with the live sequence yields no tick |
| `CollectorAppClass.CollectorApp.ExpireBridgeSessions` | apps/collector/src/forex_collector/main.py:162-174 | The deleting loop equals the fold over the listed sessions |
| `CollectorAppClass.CollectorApp.Elect` | apps/collector/src/forex_collector/main.py:185-191 | The per-pair loop sets every lease as specified |
| `CollectorAppClass.CollectorApp.TouchBridgeSession` | apps/collector/src/forex_collector/main.py:357-453 | Refresh, record, evict, refresh: the table, leases and adapter afterwards |
| `CollectorAppClass.CollectorApp.IngestBridgeHeartbeat` | apps/collector/src/forex_collector/main.py:637-655 | A heartbeat records the session and, when not ready, disconnects and releases it |
| `CollectorAppClass.CollectorApp.Process` | apps/collector/src/forex_collector/pipeline.py:26-109 | Adapter first, then raw, then tick, stopping where a store fails |
| `CollectorAppClass.CollectorApp.IngestProvider` | apps/collector/src/forex_collector/main.py:657-788 | Standby, duplicate, failed or processed, with the whole state afterwards |
| `CollectorAppClass.CollectorApp.IngestDiscovery` | apps/collector/src/forex_collector/main.py:790-825 | Duplicate, failed or stored, with the whole state afterwards |
| `CollectorAppClass.Storage.HasRaw` | packages/storage/src/storage/postgres.py:83-91 | True exactly when a raw row has this id |
| `CollectorAppClass.Storage.StoreRaw` | packages/storage/src/storage/postgres.py:35-81 | Insert if absent |
| `CollectorAppClass.Storage.LastObservationSequence` | packages/storage/src/storage/postgres.py:93-111 | The greatest stored sequence of the document and pair, or none |
| `DomScan.CollectCandidates` | apps/browser_bridge/src/dom-observer.ts:116-151 | The nested scan with both break limits collects exactly the candidates among the first 512 rows of the qualifying tables among the first 32 |
| `DomScan.FindQuoteTargets` | apps/browser_bridge/src/dom-observer.ts:116-165 | Every pair's discovery result is the judgement on those candidates |
| `ScanLaws.DiscoveredExactlyWhen` | apps/browser_bridge/src/dom-observer.ts:116-165 | The whole scan from the page alone: among the first 512 rows of the first 32 tables that are visible and have visible symbol, bid and ask headers, a pair is missing if and only if no visible row quotes it, and found if and only if some do and all show the same prices; the target is the first such row with its cells |
| `ScanLaws.CandidateExactlyWhen` | apps/browser_bridge/src/dom-observer.ts:66-149 | A row quotes a pair with these cells if and only if it is visible, its cell in the column of the first visible header reading "symbol" reads the pair's name, and its cells in the columns headed "bid" and "ask" hold a readable, uncrossed price in that order; letter case does not matter |
| `ScanLaws.HeadsExactlyWhen` | apps/browser_bridge/src/dom-observer.ts:66-73 | A column is headed by the first visible header that reads the word, counted among visible headers |
| `ScanLaws.PriceIsDecimal` | apps/browser_bridge/src/dom-observer.ts:75-101 | A price text is compared as the number it is written as: whole part and decimals |
| `DomScan.FoundWhenCandidatesAgree` | apps/browser_bridge/src/dom-observer.ts:152-164 | FOUND if and only if candidates exist and all show the same bid and ask; the target is the first of them and readable; MISSING if and only if there are none |
| `DomScan.PriceExactlyWhen` | apps/browser_bridge/src/dom-observer.ts:84-87 | A text counts as a price if and only if it is digits, a dot, and as many digits as the pair allows |
| `DomObserver.HandedOnIsPlausible` | adapters/ic_markets/src/ic_markets_adapter/adapter.py:393-422 | Across components: in every adapter state, a snapshot with the prices of a quote the observer hands on is never answered with a price rule (not positive, out of range, crossed) |
| `DomObserver.MutationSchedulesExactlyWhen` | apps/browser_bridge/src/dom-observer.ts:303-313 | While watching, a page change leaves a reacquisition scheduled if and only if one was, a pair has no live quote, or a row or table left the page |
| `DomScan.KeysIdentifyQuotes` | apps/browser_bridge/src/dom-observer.ts:158 | Two quotes have the same comparison text only if they are the same quote |
| `DomObserver.RunKeepsGood` | apps/browser_bridge/src/dom-observer.ts:171-339 | The observer invariant over every run of start, mutations, timers and stop |
| `DomObserver.StateFollowsTheLog` | apps/browser_bridge/src/dom-observer.ts:217-241 | In every run a pair has a last quote exactly while FOUND, READY or STALE; it is the last quote handed on, nothing was lost since, and its time is that emission's |
| `DomObserver.SamePriceOnlyAcrossALoss` | apps/browser_bridge/src/dom-observer.ts:232-237 | In every run the same price is handed on twice in a row only across a lost or replaced target |
| `DomObserver.EmissionFollowsThePage` | apps/browser_bridge/src/dom-observer.ts:217-241 | After an emission the last entry of each targeted pair is what the page shows now; an unreadable target is lost and a reacquisition is scheduled |
| `DomObserver.EmissionSchedulesExactlyWhen` | apps/browser_bridge/src/dom-observer.ts:217-241 | An emission leaves a reacquisition scheduled if and only if one was, or some target could not be read |
| `DomObserver.AcquisitionSettles` | apps/browser_bridge/src/dom-observer.ts:258-321 | An acquisition reads every target it finds and so schedules no further one; after the timer none is scheduled |
| `DomObserver.TargetReadExactlyWhen` | apps/browser_bridge/src/dom-observer.ts:104-114 | A target is read if and only if its row and both cells are visible and the cells hold a quote |
| `DomObserver.AcquireFollowsThePage` | apps/browser_bridge/src/dom-observer.ts:268-321 | After an acquisition the status says exactly what the page holds, the last quote is the agreed one, and FOUND is left exactly on a kept target whose price was already handed on |
| `DomObserver.MarkingIsExact` | apps/browser_bridge/src/dom-observer.ts:323-338 | A pair turns STALE exactly when its last emission is older than the limit; nothing else changes |
| `DomObserver.BrokenPairsAreRetried` | apps/browser_bridge/src/dom-observer.ts:303-313 | While watching, a pair without a live quote has a reacquisition scheduled, or gets one at the next change of the page |
| `DomObserver.RestartEmitsAgain` | apps/browser_bridge/src/dom-observer.ts:192-207 | After a stop, a start hands every found pair's price on again |
| `DomObserver.StoppedIsQuiet` | apps/browser_bridge/src/dom-observer.ts:197-207 | After a stop no mutation and no reacquisition timer changes anything; last quotes, statuses and what was handed on stay |
| `MultiQuoteObserverClass.MultiQuoteObserver.EmitCurrentQuotes` | apps/browser_bridge/src/dom-observer.ts:217-241 | The loop over the three maps makes the emission step |
| `MultiQuoteObserverClass.MultiQuoteObserver.AcquireTargets` | apps/browser_bridge/src/dom-observer.ts:268-321 | Scan, rebuild of the target map against the previous one, and emission make the acquisition step |
| `MultiQuoteObserverClass.MultiQuoteObserver.OnPageMutation` | apps/browser_bridge/src/dom-observer.ts:303-313 | Schedules exactly when a target left the document or a pair is missing or ambiguous |
| `MultiQuoteObserverClass.MultiQuoteObserver.MarkStale` | apps/browser_bridge/src/dom-observer.ts:323-338 | The marking loop makes the staleness step |
| `MultiQuoteObserverClass.MultiQuoteObserver.StopObserving` | apps/browser_bridge/src/dom-observer.ts:197-207 | Clears targets, watching and the pending reacquisition; keeps last quotes and states |

## Left out

- HTTP, token and loopback checks, FastAPI validation, Chrome messaging and fetch timeouts: I/O; a delivery has one of four outcomes (acknowledged, refused for good, to be retried, lost).
- Redis, Prometheus metrics, SQL text, migrations and quality rows: foreign calls; raw and tick tables are lists with insert-if-absent. The raw table's key is id and receive time, as in the code.
- Redaction and frame validation (apps/browser_bridge/src/schema.ts, redaction.py): text filtering that no property here needs; a payload arrives parsed.
- Health views, reconnect counters, replay counters, `snapshot`, popup, options page, contract generation, load tests: thin code with easy properties.
- Prices are exact reals with the number of digits they were written with; binary floating point of the page and of delay fields is not modelled. JSON numbers in storage are integers; non-finite ones are not modelled.
- `normalized_at`, delay fields, trace ids, hashes of payloads, severities, action texts and quality classifications: not used for any decision. A tick's published receive time (the browser's for display quotes) is derived and not kept.
- Upper and lower case cover ASCII letters only. Booleans given as sequence numbers are not modelled.
- PersistentOutbox: works on its stored queue and counters directly; that storage returns what was saved is the codec's theorem. Delivery callbacks (`onDelivery`) and `snapshot` are not modelled. A decision reads the clock once.
- OutboxTheorems.BoundedBypass: speaks of one drain without a worker crash in between; a crash ends the drain.
- LostTicks.RetryPublishesExactlyWhen: speaks of one retry after steps of other events; every further attempt, in whatever state the earlier ones left, is covered by AttemptStoresExactlyWhen.
- DeliveredTicks.RetriedTickStoredExactlyWhen: speaks of two requests with none of the same event handled between them; a third one starts from whatever the second left, and LostTicks.AttemptStoresExactlyWhen covers each single attempt in every state.
- DeliveredTicks.DeliveredTickStoredExactlyWhen: excludes late requests between the two attempts, since a late one of an older quote may publish once the live quote is gone; the general form includes them.
- FairInstrumentQueue.constructor: the ValueError for fewer than four places is its precondition.
- CollectorApp: no handler is suspended halfway, so the code's own hazard of overlapping ingests of one document that race a disconnect is outside the model; the queue between ingest and worker is modelled on its own in FairQueue.
- MultiQuoteObserver: one clock reading per emission pass; the list of observed roots of the mutation observers is not modelled, so a target mutation may occur at any time while watching. Intervals left behind by starting twice are covered, as the staleness timer may fire at any time.
- DomScan: elements are abstract (visible or not, normalized text, connected or not); nesting is resolved into each table's own headers and rows and each row's own cells.

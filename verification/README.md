# The purchase pipeline of the flash sale

The repository sells a limited stock of units to buyers who may each take one per sale. A request asks
Redis first; the Lua script is the gate. A reservation is handed to a RabbitMQ queue and answered at once;
a worker drains the queue and writes batches to Postgres. When Redis cannot answer, or the sale was never
loaded into it, or the broker will not take the message, the request is written to Postgres directly.

Three stores hold what should be one truth, and nothing spans them with a transaction. This project models
the pipeline in four layers and proves what holds across them.

| layer | files | what it holds |
|---|---|---|
| gate | `Gate`, `RedisServer`, `RedisProvider`, `Emails` | reservation script, warm, sweep, reconnect handler, buyer key |
| store | `Store`, `StoreTheorems`, `Database`, `Sales` | tables and constraints, the two writers, reading sales, the invariant checker |
| drain | `Drain`, `DrainTheorems`, `DrainWorker` | the batching consumer against an AMQP channel |
| system | `Api`, `ApiTheorems`, `PurchasesService`, `System`, `SystemSafety`, `SystemFast`, `SystemInStep`, `SystemProgress`, `SystemRefinement`, `SystemLimits` | the endpoint, and every interleaving of it with everything else |

Code that updates state in place is a class or a method with loops (`RedisServer.Server`,
`Database.PurchaseDatabase`, `DrainWorker.BatchConsumer`, `PurchasesService.Service`,
`RedisProvider.ReconnectHandler`, `PurchasesService.Warm`). Each method is proved equal to a function on the
state before it, and the theorems are about those functions.

## Main results

* **Exactly-once effect.** Over every run, with crashes, redelivery and commits whose reply was lost, the
  purchases are the initial ones, plus published messages, plus direct writes, and nothing else; all of them
  once queue and dead queue are empty. Each sale gave up one unit per new buyer (`SystemSafety.ExactlyOnceEffect`).
* **The fast path refines the Postgres-only path.** Every answer is the one the tables alone would have
  given, and after draining rows and stock are identical, but for one unit per reservation whose caller dropped
  it (`SystemRefinement.FastPathRefinesPostgresOnly`).
* **Drift law and backing.** Why a batch may rely on stock promised by Redis, and exactly when it may not, for
  batches of any mix of sales (`SystemFast.DriftLawOverRuns`, `GuardAcceptsIff`, `BackingIsKeptOverRuns`,
  `QueuedWritesCanCommit`, `StarvedSaleHoldsBackTheBatch`).
* **Reservations are honoured.** After `reserved`, a fallback is never sold out; when exactly it is refused
  (`SystemFast.ReservationsAreHonoured`, `SystemInStep.UnsweptReservationsSucceed`).
* **What the endpoint answers**, for every row, set of keys and pair of clocks, whichever of Redis and the broker are
  up (`ApiTheorems.ColdRequest`, `WarmRequest`).
* **One reservation per buyer.** Exactly when the gate keeps that rule (`SystemFast.ReservesOncePerBuyerIff`).
* **The cumulative ack is safe.** `ack(last, multiple)` settles the written batch and nothing else, on every
  run (`DrainTheorems.CumulativeAckSettlesTheBatch`, `EveryRunSettlesOnceInOrder`).
* **Batches fill up, and are tried as often as configured.** A partial batch waits for the timer, every flush has one
  of three triggers, and a batch is given up with its `maxAttempts`-th failure and not before
  (`DrainTheorems.PartialBatchesWait`, `EveryFlushWasTriggered`, `EveryBatchGetsAllItsAttempts`).
* **A batch equals its entries one by one**, and where batches are cut does not matter
  (`StoreTheorems.BatchEqualsFold`, `AnyPartitionGivesTheSameDatabase`).
* **Progress.** Draining takes boundedly many steps and ends with nothing stranded
  (`DrainTheorems.DrainingIsBounded`, `QuietMeansDrained`, `SystemProgress.EveryRunCanBeDrained`). A consumer gets
  stuck exactly when it accepted a body that does not parse (`DrainTheorems.BrokenIffMalformedAccepted`).

## Hypotheses

* Every Postgres transaction and every Redis script or `MULTI` is one atomic step.
* *Warm at quiescence.* `redis:warm` reads stock and buyers in separate queries and ignores queued messages
  (`packages/redis/src/scripts/warm.ts:19-28`). The store's own safety allows any racing warm whose stock is at
  least the present stock and whose buyers are among the present buyers, which is what earlier reads give. The
  drift law and the refinement start from a warm with nothing of the sale on its way.
* *Standing.* Backing is stated over every run from a cold start, for each sale that has *standing*
  (`SystemFast.StandingOf`). Every sale starts with it. A warm, a restart of Redis, a request that goes round the gate,
  and the late commit of a message given up before the standing began cost a sale its standing; the next moment at which
  nothing of the sale is on its way and Redis holds no more of it than the table gives it back, as a warm at quiescence
  does (`SystemInStep.QuiescentWarmGivesStanding`). Sweeps never cost it, and neither does a request round the gate for
  a buyer it has counted already, while the gate knows all buyers (`SystemInStep.KnowingRunsKeepStanding`).
* *Redis restarts.* Redis runs with an append-only file (`k8s/base/redis/statefulset.yaml:22`) and may lose its latest
  writes in a crash. A restart may therefore bring back any keyspace whose windows are those of the tables. The store's
  safety, the exactly-once effect and the ack hold through it; the drift law, the standing of a sale and the refinement
  assume that Redis kept its writes since the warm.
* *One consumer.* One consumer is attached to the queue at a time (`k8s/base/worker/deployment.yaml:9`), and a fresh
  one follows a lost channel. Transactions of an earlier one may still commit.
* *Well-formed messages.* A body that does not parse makes `flush` throw and blocks the promise chain. Progress
  needs well-formed bodies, the safety of the ack does not; `DrainTheorems.BrokenIffMalformedAccepted` and
  `BrokenChainSettlesNothing` say exactly why.
* *Batch size.* A batch is whatever is pending when a flush starts. `batchSize` triggers flushes; it bounds what they
  take exactly when there is a prefetch limit no larger than it (`DrainTheorems.BatchSizeBoundsBatchesIff`), which the
  defaults of 200 and 500 do not meet.
* *Unconfirmed publish.* The channel is not a confirm channel; the broker is taken to keep what `sendToQueue` took.
* *Dead letters.* A dead-lettered batch may have committed, its reply lost, or may still commit later. Acked implies
  written; dead-lettered does not imply unwritten.
* *Emails* are compared after lower-casing ASCII letters, in Redis and in citext alike.
* *The refinement* reads one clock value per request, on the API and, when it falls back, on the database; it
  compares requests that reach the gate of a sale that is neither bypassed, re-warmed nor swept meanwhile. Answers
  may get lost, and callers may drop their reservation before it is published or written.
* A request whose Redis reply is lost after the script ran is an `Ask`, an `Abandon` and a `Bypass`
  (`SystemInStep.LostReplyKeepsKnown`).

## Where the code and its comments part ways

* `packages/database/src/write-purchases.ts:52-56` says that Redis guaranteed the stock. After a single purchase
  that bypassed a live gate this is false: `SystemLimits.BypassCanStarveABatch` is a run of four steps in which two
  buyers are told success for one unit and the queued write can no longer commit. `SystemFast.GuardAcceptsIff` says for
  every state under the drift law when the guard does accept, and `SystemFast.QueuedWritesCanCommit` that it always
  does for sales with standing. A starved sale also holds back every other sale in its batch
  (`SystemFast.StarvedSaleHoldsBackTheBatch`).
* `apps/api/src/redis/redis.provider.ts:19-24` says that purchases go to Postgres after a reconnect. The sweep it starts
  is neither atomic nor awaited: until the page with the stock or meta key is deleted, the gate keeps answering
  (`RedisProvider.SweepTakesEffectWithStockOrMeta`). Stock stays safe, because backing survives a partial sweep. The
  rule of one reservation per buyer does not.
* `apps/api/src/purchases/purchases.service.ts:41-46` says that Redis has confirmed the buyer. A gate that still
  gives out reservations keeps to that exactly when its buyers set holds everyone the table or an open promise knows
  (`SystemFast.ReservesOncePerBuyerIff`). A sweep that has removed only the buyers key breaks that
  (`SystemLimits.PartialSweepReservesTwice`), and so does a warm that raced with a purchase, with no sweep and all
  three keys present (`SystemLimits.StaleWarmReservesTwice`). A buyer reserved again is answered `already_purchased` by
  a fallback exactly when the buyer has a row (`SystemFast.ReservationsAreHonoured`); a publish that succeeds answers
  success twice, and the second message writes nothing. From a warm at quiescence the rule holds as long as the keys are
  left alone and whoever goes round the gate has been counted by it (`SystemInStep.KnowingGateReservesOnce`).
* `apps/api/src/redis/redis.provider.ts:23-24` says that the sweep does not fire on the first connect. It does when an
  earlier attempt has failed, because a close event precedes the first ready event
  (`RedisProvider.FirstReadySweepsIff`).
* `packages/database/src/write-purchases.ts:17-20` says redelivery is safe because conflicts are skipped. The window
  trigger fires before the conflict check, so a redelivered entry is still judged by it; redelivery is safe because the
  row it first wrote already passed the same check (`StoreTheorems.RedeliveryHasNoEffect`).
* The gate's window is half-open, the trigger's is closed; a fallback write can therefore still succeed at the
  very moment the sale ends (`SystemInStep.UnsweptReservationsSucceed`).

## Model

| member | source | states |
|---|---|---|
| SystemSafety.StoreIsAlwaysSafe | apps/api/src/purchases/purchases.service.ts:75-104 | on every run of both writers, with racing warms, sweeps, crashes and bypasses: units left plus units sold constant, stock within its checks, rows in their period, no row lost or altered, and the load test's checker keeps its verdict |
| SystemSafety.ExactlyOnceEffect | packages/database/src/write-purchases.ts:17-65 | purchases are exactly initial plus published plus directly written keys once nothing is outstanding or dead, at most those before; stock fell by the number of new buyers |
| SystemSafety.AckedImpliesWritten | packages/queue/src/drain.ts:60-63 | at every point of every run an acked message's key is in the table, and stays there |
| SystemSafety.QueuedWritesNeverTripTheTrigger | packages/database/drizzle/0004_check_purchase_within_sale_period.sql:10-32 | messages admitted by the gate pass the trigger and the foreign key however late their batch is written; only a stock guard can turn them down |
| SystemSafety.PhasesMoveForwardOverRuns | apps/api/src/sales/sales.utils.ts:4-15 | along every run with a growing clock a sale's phase never moves back |
| SystemSafety.SoldOutIffAllUnitsSold | apps/api/src/sales/sales.utils.ts:4-15 | at every point of every run a sale is shown sold out exactly while its window is open and its buyers make up all its units, and active exactly while they do not |
| SystemSafety.CachedRowsWereRead | apps/api/src/sales/sales.service.ts:45-62 | every cached row is the row the table held at some earlier point of the same run |
| ApiTheorems.ColdRequest | apps/api/src/purchases/purchases.service.ts:50-104 | with Redis down or the sale cold: not found exactly for an unknown sale, else the answer fixed by cancellation, API clock, database clock, duplicate and stock in this order, with only success touching the tables, and neither Redis nor queue touched |
| ApiTheorems.WarmRequest | apps/api/src/purchases/purchases.service.ts:29-49 | a rejection changes nothing; a reservation takes one unit and adds the buyer, and is queued with the request's clock value and answered success, or written directly and answered by the table |
| ApiTheorems.DecisionMeans | packages/redis/lua/reserve-purchase.lua:7-32 | each code of the script over what its keys hold, fields that are missing or do not parse included |
| SystemSafety.StepKeepsSafe | packages/queue/src/drain.ts:32-112 | every step of the pipeline keeps the cross-store invariant and only moves the tables forward |
| SystemSafety.AckTakesTheBatch | packages/queue/src/drain.ts:60-63 | the ack takes exactly the written entries off the broker |
| SystemSafety.WorkerKeepsEntries | packages/queue/src/drain.ts:49-98 | without an ack, every outstanding entry stays outstanding or is appended to the dead queue, whatever the worker does |
| SystemFast.DriftLawIsKept | packages/redis/lua/reserve-purchase.lua:21-32 | no step that leaves a sale's keys alone changes the equality of stock plus buyers in Redis and in Postgres, not even a bypassing purchase |
| SystemFast.DriftLawOverRuns | packages/redis/src/sync.ts:18-40 | the drift law holds from a warm until the sale's keys are next replaced or removed, over every run |
| SystemFast.GuardAcceptsIff | packages/database/src/write-purchases.ts:45-62 | under the drift law of its sales, a batch of any mix of sales commits if and only if for each of them its buyers and the table's together do not outnumber the units Redis accounts for; always when Redis knows them all |
| SystemFast.StarvedSaleHoldsBackTheBatch | packages/database/src/write-purchases.ts:45-62 | entries of backed sales that could commit are rolled back when one entry of a sold-out sale is in their batch, and the error names that sale |
| SystemFast.BackingIsKept | packages/redis/lua/reserve-purchase.lua:25-32 | without a bypass, Redis stock plus promised unwritten buyers, dead-lettered ones included, never exceeds Postgres stock, through every step including partial sweeps, leaks, dead letters and late commits |
| SystemFast.BackingIsKeptOverRuns | packages/redis/src/sync.ts:42-66 | at every point of every run, a sale with standing is backed |
| SystemFast.GatedRunsKeepStanding | apps/api/src/purchases/purchases.service.ts:29-49 | a sale only ever reached through the gate keeps its standing |
| SystemFast.StandingIsBacked | packages/redis/src/sync.ts:42-66 | on every run from a cold start a sale with standing is backed since its mark |
| SystemFast.BackedBatchCommits | packages/database/src/write-purchases.ts:52-61 | with its sales backed, any batch of promised entries commits, messages given up since included; the throw is unreachable |
| SystemInStep.QuiescentWarm | packages/redis/src/scripts/warm.ts:17-45 | a warm from current reads, with nothing of the sale on its way, is possible and leaves Redis saying what the table says |
| SystemInStep.QuiescentWarmGivesStanding | packages/redis/src/scripts/warm.ts:17-45 | such a warm gives the sale its standing back |
| SystemInStep.JustWarmedIsInStep | packages/redis/src/scripts/warm.ts:17-45 | such a warm establishes the drift law, the gate's knowledge of every buyer and the isolation of reservations |
| SystemFast.KnownIsBacked | packages/redis/lua/reserve-purchase.lua:25-32 | under the drift law, a gate that knows every buyer backs every promise |
| SystemInStep.KnownIsKept | apps/api/src/purchases/purchases.service.ts:29-56 | it goes on knowing them through every step that leaves the keys alone, requests round the gate for a counted buyer included |
| SystemInStep.KnowingRunsKeepStanding | apps/api/src/purchases/purchases.service.ts:50-54 | no run of such steps costs the sale its standing |
| SystemInStep.KnowingGateReservesOnce | packages/redis/lua/reserve-purchase.lua:21-32 | from a warm at quiescence, over every such run, the gate never reserves for a buyer with a row or a promise |
| SystemInStep.LostReplyKeepsKnown | apps/api/src/purchases/purchases.service.ts:50-54 | a reservation whose reply is lost and whose request goes to Postgres is such a run |
| SystemInStep.InStepIsKept | apps/api/src/purchases/purchases.service.ts:29-56 | every step that neither bypasses, warms nor sweeps the sale keeps gate, promises and table in step |
| SystemFast.FallbackKeepsThePromise | apps/api/src/purchases/purchases.service.ts:40-48 | for a backed sale the direct write after a reservation and a failed publish is never sold out: outside the sale's period it is not active, inside it is a duplicate exactly when the buyer has a row already, and else it succeeds |
| SystemFast.QueuedWritesCanCommit | packages/database/src/write-purchases.ts:45-62 | at every moment of every run from a cold start, any batch of messages of sales with standing can commit, whatever mix of sales it is; messages given up since the sale's mark can be replayed too |
| SystemFast.ReservationsAreHonoured | apps/api/src/purchases/purchases.service.ts:40-48 | the same for every open reservation of a sale with standing, on every run from a cold start, sweeps of Redis included |
| SystemFast.ReservesOncePerBuyerIff | packages/redis/lua/reserve-purchase.lua:7-32 | the gate reserves for nobody who has a row or an open promise if and only if it reserves for nobody at all (cold, window closed, or no stock) or its buyers set holds everyone with a row or a promise |
| SystemFast.PromisesCanCommitIff | packages/database/src/write-purchases.ts:45-62 | in every state, whatever Redis holds, all batches of a sale's promised entries can commit if and only if its buyers still owed a unit do not outnumber the table's stock |
| SystemInStep.UnsweptReservationsSucceed | apps/api/src/purchases/purchases.service.ts:40-48 | from a warm at quiescence, while the sale's keys are left alone and nothing goes round the gate, the fallback of an open reservation succeeds exactly when the database clock is in the sale's period, and is not active otherwise |
| SystemProgress.DrainingWritesEverything | packages/queue/src/drain.ts:49-98 | with every sale backed, draining ends within a linear bound and then every published message is in the table or was dead-lettered before |
| SystemProgress.EveryRunCanBeDrained | packages/queue/src/drain.ts:49-98 | the same after any run from a cold start without foreign messages at whose end every sale has standing and a consumer is running |
| SystemProgress.RunsWithoutJunkStayClean | packages/queue/src/drain.ts:54-56 | as long as only the pipeline publishes, no run ever breaks the flush chain |
| SystemRefinement.FastPathRefinesPostgresOnly | apps/api/src/purchases/purchases.service.ts:29-104 | after any run up to a warm at quiescence, every answer equals that of the Postgres-only path run sequentially, calls without an answer are successes there, and drained tables are identical but for one row and one unit per reservation its caller dropped |
| SystemRefinement.StepKeepsSim | apps/api/src/purchases/purchases.service.ts:29-104 | each comparable step of the pipeline is matched by one request of the reference or by nothing |
| SystemRefinement.GateAnswersLikeTheReference | packages/redis/lua/reserve-purchase.lua:7-32 | in related states the script's code and the Postgres-only path's answer agree, for every email and time |
| SystemLimits.EndpointIsSteps | apps/api/src/purchases/purchases.service.ts:29-56 | one call of the endpoint is one or two steps of the pipeline, with the same answer and the same effect on every store |
| SystemLimits.BypassCanStarveABatch | packages/database/src/write-purchases.ts:52-61 | a run with one bypass in which two buyers are told success for one unit and the queued batch cannot commit |
| SystemLimits.PartialSweepReservesTwice | packages/redis/src/sync.ts:50-63 | a run without a bypass in which a sweep of the buyers key alone lets a buyer reserve again: the fallback answers already purchased, a publish answers success for a message that writes nothing |
| SystemLimits.StaleWarmReservesTwice | packages/redis/src/scripts/warm.ts:19-42 | a run without a sweep, all keys present and standing intact, in which a warm from old reads lets a buyer reserve again |
| StoreTheorems.BatchCommitsIff | packages/database/src/write-purchases.ts:27-62 | a batch commits if and only if every entry names a sale and a moment in its period and every sale can supply its new buyers; which failure is reported when |
| StoreTheorems.RejectionNamesAStarvedSale | packages/database/src/write-purchases.ts:45-61 | the sale named by the error is the first, in the order of the returned rows, that cannot supply its new buyers |
| StoreTheorems.CountOrderIsFirstOccurrence | packages/database/src/write-purchases.ts:40-45 | the count map is iterated in the order in which the returned rows first named its keys |
| StoreTheorems.WriteOneMeans | apps/api/src/purchases/purchases.service.ts:75-104 | answer and tables of the single-row write over the row and the clock alone |
| StoreTheorems.DisjointBatchesShareFate | packages/database/src/write-purchases.ts:45-62 | messages of different sales in one batch commit together exactly when each part could alone |
| StoreTheorems.CommittedBatchAbsorbs | packages/database/src/write-purchases.ts:28-64 | a committed batch adds exactly its new keys, keeps old rows, takes one unit per new key from that key's sale, and returns their number |
| StoreTheorems.FirstWriterWins | packages/database/src/write-purchases.ts:28-38 | each new row is that of the first entry with its key, so a repeat inside a batch never overwrites |
| StoreTheorems.NewRowsComeFromEntries | packages/database/src/write-purchases.ts:28-38 | every new row carries email and time of one entry of the batch |
| StoreTheorems.InsertRowsCounts | packages/database/src/write-purchases.ts:36-43 | the returned rows name each sale once per new buyer of it |
| StoreTheorems.DecrementAllMeaning | packages/database/src/write-purchases.ts:45-62 | the decrement loop succeeds exactly when each guard accepts on the untouched table, and what it leaves; otherwise it names the first guard that would reject |
| StoreTheorems.DecrementOrderIrrelevant | packages/database/src/write-purchases.ts:40-62 | the iteration order of the count map changes neither the verdict nor the stock |
| StoreTheorems.CommittedBatchAdvances | packages/database/src/write-purchases.ts:17-20 | a committed batch keeps total minus remaining equal to the purchase count, per sale |
| StoreTheorems.WriteOneAdvances | apps/api/src/purchases/purchases.service.ts:72-89 | so does every answered single-row write |
| StoreTheorems.CommittedBatchKeepsSchema | packages/database/drizzle/0002_add_sales_and_purchases.sql:6-26 | a committed batch leaves every CHECK, the foreign key, the unique key and the period satisfied |
| StoreTheorems.WriteOneKeepsSchema | packages/database/drizzle/0002_add_sales_and_purchases.sql:6-26 | so does every answered single-row write |
| StoreTheorems.ReplayIsInvisible | packages/database/src/write-purchases.ts:17-20 | entries whose keys are all present are rewritten without a trace, with 0 returned |
| StoreTheorems.RedeliveryHasNoEffect | packages/database/src/write-purchases.ts:17-20 | any reordered, repeated or partial redelivery of a committed batch commits, changes nothing and returns 0, whatever was written in between |
| StoreTheorems.BatchBoundariesDoNotMatter | packages/database/src/write-purchases.ts:27-65 | writing a + b commits exactly when writing a, then b does, with equal tables and counts |
| StoreTheorems.AnyPartitionGivesTheSameDatabase | packages/queue/src/drain.ts:49-63 | every way of cutting one message sequence into batches gives the same database |
| StoreTheorems.SingletonBatch | apps/api/src/purchases/purchases.service.ts:75-104 | the single-row writer and a batch of one agree on every state: outcome, error and tables |
| StoreTheorems.BatchEqualsFold | packages/database/src/write-purchases.ts:27-65 | a batch commits exactly when no entry would be refused on its own in turn; then tables and success count are those of the single writes |
| Store.CountBySaleCounts | packages/database/src/write-purchases.ts:40-43 | the map holds each returned sale once, with the number of its rows |
| Database.CountInserted | packages/database/src/write-purchases.ts:40-43 | the counting loop builds that map, with its insertion order |
| Database.PurchaseDatabase.InsertOnConflictDoNothing | packages/database/src/write-purchases.ts:28-38 | the insert runs the trigger on every row, skips conflicts, and returns the sales of the rows it added |
| Database.PurchaseDatabase.DecrementEach | packages/database/src/write-purchases.ts:45-62 | the guarded decrements in order, stopping at the first rejection |
| Database.PurchaseDatabase.WritePurchaseBatch | packages/database/src/write-purchases.ts:21-66 | the transaction has the effect of WriteBatch, and on any failure restores every row and every decremented sale |
| Database.PurchaseDatabase.WritePurchase | apps/api/src/purchases/purchases.service.ts:75-104 | insert, decrement and error mapping have the effect of WriteOne, and leave no trace on any outcome but success |
| Sales.PhaseMeans | apps/api/src/sales/sales.utils.ts:4-15 | exactly when each of the four phases is shown |
| Sales.ListingAgreesWithPhase | apps/api/src/sales/sales.service.ts:64-98 | under the schema checks the three filters partition the uncancelled sales, each part being the one the displayed phase names, and every listing shows a sale with the same phase |
| Sales.LookupMeans | apps/api/src/sales/sales.service.ts:45-62 | a hit is served as cached and changes nothing; a miss reads the table and stores what it found and nothing else |
| Sales.PhasesOnlyMoveForward | apps/api/src/sales/sales.utils.ts:4-15 | phases only move forward as the clock and the purchases advance |
| Sales.StaleRowIsHarmless | apps/api/src/sales/sales.service.ts:45-62 | a stale cached row answers existence and openness like the table, is never ahead in phase, and unknown ids are never cached |
| Sales.CacheKeepsLagging | apps/api/src/sales/sales.service.ts:45-62 | cached rows remain earlier states of their sale however the tables advance |
| Sales.Verify | packages/load-test/scripts/verify.ts:39-71 | each assertion of the checker and its overall verdict |
| Sales.SelectionCountsBuyers | packages/load-test/scripts/verify.ts:39-40 | the number of selected rows, of distinct emails and of buyer keys coincide |
| Sales.NoDuplicatesIff | packages/load-test/scripts/verify.ts:39-57 | the duplicate check passes exactly when no two rows carry the same email |
| Sales.VerifyPassesIffNoUnitLost | packages/load-test/scripts/verify.ts:39-71 | on a lawful snapshot the checker passes if and only if units left plus buyers make up the stock |
| Gate.ExactWinners | packages/redis/lua/reserve-purchase.lua:14-32 | for every sequence of calls the buyers answered reserved are exactly the first stock-many contenders in call order, stock falls by their number, and they are the keys added |
| Gate.ContendersAre | packages/redis/lua/reserve-purchase.lua:14-23 | the contenders are distinct, no earlier buyer, and exactly the keys of in-window calls |
| Gate.SoldOutStaysSoldOut | packages/redis/lua/reserve-purchase.lua:25-28 | once stock is gone no sequence of calls changes anything or reserves |
| Emails.NormalizePointwise | packages/redis/src/normalize-email.ts:1-4 | lower-casing keeps length and order; nothing is trimmed |
| Emails.NormalizeIdempotent | packages/redis/src/normalize-email.ts:1-4 | a stored key is its own key |
| Emails.KeysAgreeWithCaseInsensitiveEquality | packages/redis/src/normalize-email.ts:1-4 | two emails get the same Redis key exactly when they are equal without regard to case, as citext compares |
| Emails.KeysAreSmall | packages/redis/src/normalize-email.ts:4 | no key holds a capital letter |
| RedisServer.Server.ReservePurchase | packages/redis/lua/reserve-purchase.lua:7-32 | the script answers and updates as Reserve does, on the normalised email |
| RedisServer.Server.SyncSale | packages/redis/src/sync.ts:16-40 | the transaction replaces all three keys, an empty buyer set being no key |
| RedisServer.Server.FlushSaleKeys | packages/redis/src/sync.ts:46-66 | the cursor loop leaves exactly what no page named and returns how many keys went away |
| RedisServer.CompleteScanClearsEverything | packages/redis/src/sync.ts:42-66 | a complete scan, however its pages overlap, leaves nothing, and every request then finds its sale cold |
| RedisProvider.ReconnectHandler.OnReady | apps/api/src/redis/redis.provider.ts:25-33 | a sweep starts exactly when the connection was closed and has not been ready since |
| RedisProvider.FirstReadySweepsIff | apps/api/src/redis/redis.provider.ts:25-33 | the first ready event starts a sweep exactly when an earlier attempt was closed |
| RedisProvider.ReadyForgets | apps/api/src/redis/redis.provider.ts:29-31 | what comes after a ready event alone decides whether the next one sweeps |
| RedisProvider.ReconnectHandler.OnClose | apps/api/src/redis/redis.provider.ts:25-28 | a lost connection is remembered until the next ready |
| RedisProvider.SweepTakesEffectWithStockOrMeta | packages/redis/src/sync.ts:50-63 | a page turns a sale cold exactly when it names its stock or meta key, and no later page undoes that |
| DrainTheorems.CumulativeAckSettlesTheBatch | packages/queue/src/drain.ts:60-63 | acking the last message with multiple settles the batch, all of it and nothing else |
| DrainTheorems.WithoutRemovesOnlyTheTag | packages/queue/src/drain.ts:73 | a nack without multiple takes off the delivery of its tag and no other |
| DrainTheorems.GivingUpSettlesTheBatch | packages/queue/src/drain.ts:72-74 | the nack loop dead-letters exactly the batch, in order |
| DrainTheorems.StepKeepsInv | packages/queue/src/drain.ts:44-111 | every event keeps arrival order equal to settlement order and a wake-up outstanding for pending work |
| DrainTheorems.EveryRunSettlesOnceInOrder | packages/queue/src/drain.ts:44-111 | on every run the unacked deliveries in tag order are in-flight, pending, ignored after stop; no tag is settled twice |
| DrainTheorems.PrefetchBoundsTheBatch | packages/queue/src/drain.ts:42-52 | on every run the batch in flight and the pending messages never outnumber a prefetch limit, and a full batch has its flush queued already |
| DrainTheorems.PartialBatchesWait | packages/queue/src/drain.ts:78-98 | n deliveries in a row to a worker at rest leave the timer armed and no flush queued while n is short of a batch, and one flush and no timer when n fills it |
| DrainTheorems.FlushesHaveTriggers | packages/queue/src/drain.ts:78-111 | a step queues a flush exactly if it is a fired timer, a confirmed cancellation or a delivery that completes a batch; only a delivery short of a batch arms the timer |
| DrainTheorems.EveryFlushWasTriggered | packages/queue/src/drain.ts:78-111 | over every run on one channel, flushes started and queued are exactly the triggers seen |
| DrainTheorems.EveryBatchGetsAllItsAttempts | packages/queue/src/drain.ts:59-76 | whatever runs meanwhile, a batch stays in flight and unsettled while fewer than maxAttempts attempts have failed, and is dead-lettered with the failure of that number |
| DrainTheorems.BatchSizeBoundsBatchesIff | packages/queue/src/drain.ts:50-52 | under every configuration, no flush of any run takes more than batchSize messages if and only if 0 < prefetch <= batchSize |
| DrainTheorems.DefaultBatches | packages/queue/src/constants.ts:6-10 | with the defaults a flush can take more than 200 messages, and never more than 500 |
| DrainTheorems.InternalStepDecreases | packages/queue/src/drain.ts:59-98 | every step of the consumer's own decreases a linear measure |
| DrainTheorems.DrainingIsBounded | packages/queue/src/drain.ts:59-98 | left to itself the consumer takes at most that many steps, whatever each attempt returns |
| DrainTheorems.QuietMeansDrained | packages/queue/src/drain.ts:78-98 | when no step is left and no body broke the chain, nothing is pending, in flight or scheduled, and a running consumer has emptied the queue |
| DrainTheorems.WellFormedNeverBreaks | packages/queue/src/drain.ts:54-56 | with well-formed bodies no step can break the chain |
| DrainTheorems.BrokenIffMalformedAccepted | packages/queue/src/drain.ts:54-56 | a run at rest has a broken chain if and only if the consumer accepted a body that does not parse |
| DrainTheorems.StepSettlesOnlyParsed | packages/queue/src/drain.ts:54-74 | a body that does not parse is never acknowledged or dead-lettered |
| DrainTheorems.OneBadBodyBreaksTheChain | packages/queue/src/drain.ts:54-56 | under every configuration one bad body breaks a fresh consumer within three events |
| DrainTheorems.BrokenChainSettlesNothing | packages/queue/src/drain.ts:54-56 | over every run from a broken chain, short of losing the channel, nothing is ever settled again, and losing it puts the bad body back into the queue |
| DrainTheorems.StopAcceptsNothing | packages/queue/src/drain.ts:86-103 | over every run on one channel after stop was called, nothing more is accepted and each further delivery is ignored |
| DrainTheorems.StopOnlyMovesForward | packages/queue/src/drain.ts:101-110 | stop is called, confirmed and awaited in this order and never undone |
| DrainTheorems.DeliveriesUntilCancelled | packages/queue/src/drain.ts:101-103 | the broker delivers until the cancellation is confirmed |
| DrainTheorems.StopDrains | packages/queue/src/drain.ts:101-110 | when stop has resolved nothing is pending or scheduled, and the settled batches are the accepted messages in order, each once |
| DrainTheorems.StopResolves | packages/queue/src/drain.ts:101-110 | after stop the steps left are bounded, and only a resolved stop is quiet |
| DrainWorker.AmqpChannel.AckMultiple | packages/queue/src/drain.ts:62 | a cumulative ack settles every outstanding delivery up to its tag |
| DrainWorker.BatchConsumer.OnDelivery | packages/queue/src/drain.ts:86-98 | the consume callback: drop after stop, push, then flush at the batch size or arm the timer |
| DrainWorker.BatchConsumer.OnTimer | packages/queue/src/drain.ts:80-83 | the timer disarms itself and queues a flush |
| DrainWorker.BatchConsumer.BeginFlush | packages/queue/src/drain.ts:49-59 | a flush takes all of pending, and either has nothing to do, throws, gives up or starts writing |
| DrainWorker.BatchConsumer.GiveUp | packages/queue/src/drain.ts:72-74 | the nack loop nacks each message of the batch once, in order |
| DrainWorker.BatchConsumer.AttemptSucceeded | packages/queue/src/drain.ts:60-63 | success acks the last message cumulatively and ends the flush |
| DrainWorker.BatchConsumer.AttemptFailed | packages/queue/src/drain.ts:64-74 | failure counts an attempt, or gives the batch up after the last |
| DrainWorker.VerdictMeans | packages/queue/src/drain.ts:59-76 | a flush acknowledges iff one of the allowed attempts succeeds before the channel is lost, and dead-letters iff all fail on a channel that is not lost |
| DrainWorker.BatchConsumer.Retry | packages/queue/src/drain.ts:59-70 | the retry loop stops at the first attempt that writes and can acknowledge, or with the last; an acknowledgement on a lost channel counts as a failed attempt |
| DrainWorker.BatchConsumer.Finish | packages/queue/src/drain.ts:60-74 | the batch is settled under one verdict, or, on a lost channel, the nack throws and settles nothing |
| DrainWorker.BatchConsumer.Await | packages/queue/src/drain.ts:61-67 | whatever is published, delivered, fires or is stopped while a flush awaits, the batch in flight and everything settled stay as they are |
| DrainWorker.BatchConsumer.Flush | packages/queue/src/drain.ts:49-76 | a flush, with any arrivals, timers and stop calls between its attempts and the channel lost at any of them, settles exactly its batch: acked if an allowed attempt can, else dead-lettered, or nothing and a broken chain once the channel is gone; all that was accepted meanwhile is pending; a batch that does not parse is left alone |
| DrainWorker.BatchConsumer.RequestStop | packages/queue/src/drain.ts:101-103 | stop is remembered before the consumer is cancelled |
| DrainWorker.BatchConsumer.OnCancelConfirmed | packages/queue/src/drain.ts:104-109 | the timer is cleared and a last flush is chained |
| PurchasesService.SalesService.FindRow | apps/api/src/sales/sales.service.ts:45-62 | a hit is served, a found row is stored, a missing row never is |
| PurchasesService.Service.WriteSynchronously | apps/api/src/purchases/purchases.service.ts:75-104 | the direct write answers and changes the tables as WriteOne does |
| PurchasesService.Service.Record | apps/api/src/purchases/purchases.service.ts:58-70 | the Postgres-only path: unknown sale, closed sale, or the direct write |
| PurchasesService.Service.Purchase | apps/api/src/purchases/purchases.service.ts:29-56 | the endpoint dispatches on the gate's answer and touches nothing else |
| PurchasesService.FoldedEmailsAreTheBuyers | packages/redis/src/scripts/warm.ts:25-42 | lower-casing the stored emails of a sale gives exactly its buyer keys |
| PurchasesService.WarmLoadsWhatCanStillSell | packages/redis/src/scripts/warm.ts:18-22 | a warm loads exactly the sales that a direct purchase could still succeed on, now or later |
| PurchasesService.SyncedSale | packages/redis/src/sync.ts:13-40 | after a sync Redis says of the sale what the table says, and of every other sale what it said before |
| PurchasesService.Warm | packages/redis/src/scripts/warm.ts:17-45 | with nothing else running, every uncancelled sale that has not ended ends up in step with the tables, whatever Redis held, and no other sale is touched |

## Left out

- Sleep between attempts, timer durations and defaults: time is abstract; a timer may fire at any moment once armed, and only the number of attempts is kept.
- JSON and bytes: a body is a purchase write or does not parse. A body that parses into something else is not modelled.
- Numbers: Postgres `integer` and the doubles of JavaScript and Lua are unbounded integers here; times are whole milliseconds.
- Connection code, reconnect back-off, health and readiness: a dependency is up or down for a request, and a lost channel returns its messages.
- Row locks, deadlocks, isolation anomalies and statement timeouts: a failing transaction is a failing write attempt without effect.
- The cursor loop of SCAN: its pages are a parameter, so the loop's termination and SCAN's own guarantee are not proved.
- The 1 second lifetime of the row cache: a cached row may be dropped at any moment. Rows written to the cache out of order by concurrent misses are not modelled.
- Concurrency inside one call of a class method: the classes run each request and warm alone; `System` is where they interleave.
- PurchasesService.Warm: reads tables that nobody changes meanwhile; a racing warm is the `WarmSale` step of `System`, whose stock and buyers come from earlier reads.
- SystemRefinement.FastPathRefinesPostgresOnly: compares one sale at a time, and a dead-lettered message counts as still on its way.
- SystemSafety.ExactlyOnceEffect: direct writes are counted beside published messages, since both writers fill one table.
- Cancelling a sale, creating or editing one: nothing in the pipeline does; sale rows change in remaining stock alone.
- Unicode case folding: only ASCII letters are folded.
- Row ids, prices, product columns, `created_at` and `updated_at`, and the joins that read them.
- The detail strings of the checker, log messages and `onDeadLettered`.
- `findByEmail`, `findById`, controllers, DTOs, the web application, seeds, load-test scripts, containers and deployment: wrappers and configuration without state of their own.

# Market workbench: a verified model

This Dafny project models the stateful core of a trading workbench and proves properties of it: the
pipeline that carries live candles from the exchange to the chart and to storage, the ledger that follows
positions from executions, and the zone tables behind the strategy. Every property is stated for all
inputs, all runs or all reachable states.

| module | what it models |
|---|---|
| `Options`, `PyText` | missing values, and the text operations that keys are built from |
| `ChartEvents` | live candle events, their keys, the broker payload and its two decoders |
| `Publisher` | the broker publisher: two bounded lanes, one worker, retries |
| `Pipeline` | the publisher's log delivered to the worker |
| `DurableWriter` | the worker that stores finals and reconciles: dedupe row and candle row in one transaction, then ack |
| `LiveCandles` | the live state behind the chart's websocket and the gateway that feeds it |
| `ShadowCompare` | the store that compares the two transports of the same candles |
| `PositionLedger` | executions applied to the in-memory record of a position and to its database row |
| `QtyGrid` | snapping quantities to the lot grid |
| `ZoneProjection` | the zone table and the read table derived from it |
| `ZoneIds`, `ZoneSides` | the two text forms of a zone's key, and its side |
| `SmoothPartition` | splitting a quantity into parts with as many distinct sizes as possible |
| `Backfill` | paging through the exchange's history, and its dry-run plan |
| `ProcessTree` | the load sampler's closure over a process table |

Objects that the program updates in place are classes. Each has a function giving its state as a value,
and each method is proved to take that value to what a step function says; runs are sequences of steps,
and the run properties are lemmas by induction over them. Where the program interleaves, a run is any
sequence of steps: deliveries with their faults, executions with the outcome of their database calls,
enqueuing between the two halves of a publish attempt.

Some statements are exact conditions, because the plain claim is not true of the code:

* `smooth_partition` with one part and more than one unit raises its internal error.
* A reconcile wins over a final only if it is committed last.
* A manual position key is reused: the record is replaced while the row accumulates. And the record, not the
  row, loses fills to shared labels and trimming. Alert and row agree exactly when both amounts cancel.
* Keys of two exchanges can collide when one exchange name is the other, a colon and an upper-case rest.
* A daily payload without its tf reads as interval 0 in the gateway, while the storage worker reads a day.
* Two take-profits of one record in the same second share a label, and the second overwrites the first.
* A stored candle is written at most twice per exchange, but two exchanges share a row.
* The comparison counts no mismatch of partials exactly when bybit shifts into no exchange name of a NATS payload.
* A stop-loss closes a record without touching its size, so only other closed records have size zero.
* Ending a zone by its key leaves its projection row stale until its next sync, and so can a database error
  between a zone's write and its sync.
* A one-bar window is planned as one page but never read; a remainder shorter than a bar is planned as a bar.
* A backfill in pages of one bar writes nothing from a start off the interval grid.
* Zone order ids do not parse back for empty symbols, symbols with a dash, or negative numbers.

`dafny verify dfyconfig.toml` checks the whole project.

## Model

| member | source | states |
|---|---|---|
| `DurableWriter.FinalReconcileStore.WriteEvent` | backend/app/api/services/chart_nats_final_durable.py:371-453 | one transaction: an id already in the dedupe table is a duplicate and changes nothing; a rollback, or the injected failure before the commit, changes nothing; a commit adds the dedupe row and upserts the candle row together, also when the call then fails; the answer says which of these happened |
| `DurableWriter.FinalDurableConsumer.HandleMessage` | backend/app/api/services/chart_nats_final_durable.py:641-683 | one delivery: ack only after a commit or a confirmed duplicate, nak on any error, term or nak on an invalid message, and the counters that go with each outcome |
| `DurableWriter.FinalDurableConsumer.HandleInvalid` | backend/app/api/services/chart_nats_final_durable.py:685-698 | an invalid message is counted, then terminated or refused as configured |
| `DurableWriter.TablesAreFoldOfEffects` | backend/app/api/services/chart_nats_final_durable.py:371-453 | over every run of deliveries, redeliveries, rollbacks and failures, both tables are the fold of the committed log |
| `DurableWriter.EffectsAreDistinct` | backend/app/api/services/chart_nats_final_durable.py:383-407 | the committed log of a run never holds two deliveries with one event id |
| `DurableWriter.DedupeIsTheLog` | backend/app/api/services/chart_nats_final_durable.py:383-407 | the dedupe table holds exactly the ids of the committed log |
| `DurableWriter.AckedIsStored` | backend/app/api/services/chart_nats_final_durable.py:654-666 | a valid message that is acked has its id in the dedupe table at that moment, and in every later state |
| `DurableWriter.StoredIff` | backend/app/api/services/chart_nats_final_durable.py:371-453 | an id is in the dedupe table after a run exactly when it was before, or some delivery brought it in a transaction that was not lost; never the id at which a test makes the store fail |
| `DurableWriter.AnswerIff` | backend/app/api/services/chart_nats_final_durable.py:654-683 | after any run a valid message is acked, refused or left silent exactly as its own fault and ending say, and whether an earlier delivery stored its id |
| `DurableWriter.DuplicateIsInvisible` | backend/app/api/services/chart_nats_final_durable.py:403-406 | removing a delivery whose id was already committed changes no table of the rest of the run |
| `DurableWriter.SameAsDuplicateFreeRun` | backend/app/api/services/chart_nats_final_durable.py:371-453 | the tables after a run are those after the run of its committed deliveries alone, each delivered once and without faults |
| `DurableWriter.RetriesAreOneEvent` | backend/app/api/services/chart_broker_shadow.py:696-710 | the payloads of two publish attempts decode to the same stored event |
| `DurableWriter.RowIsLastWrite` | backend/app/api/services/chart_nats_final_durable.py:412-440 | after a run the row of a bar has the prices, volume and turnover of the last committed event for it, and the source of its type; or it is untouched |
| `DurableWriter.StoredAsPublished` | backend/app/api/services/chart_nats_final_durable.py:400-440 | end to end with the worker's own decoder: after any run, the row of a bar whose last committed delivery the publisher built from an event holds open, high, low and close of that event, the volume that was sent and no turnover; and every committed delivery of the publisher has its dedupe row with its type, keys, subject and sequence |
| `DurableWriter.ReconcileWinsOnlyIfLast` | backend/app/api/services/chart_nats_final_durable.py:455-458 | a bar shows the reconcile source exactly when a reconcile was its last committed delivery, so a delayed final overwrites it |
| `DurableWriter.DefaultIdFromPayload` | backend/app/api/services/chart_nats_final_durable.py:315-326 | a payload without ids of its own is stored under candle key and event type |
| `DurableWriter.DefaultIdFromPublisher` | backend/app/api/services/chart_broker_shadow.py:167-210 | so is every payload the publisher builds |
| `DurableWriter.OneFinalOneReconcile` | backend/app/api/services/chart_nats_final_durable.py:315-326 | for any decoder that gives such ids, two committed deliveries for one candle are of different event type |
| `DurableWriter.AtMostTwoWrites` | backend/app/api/services/chart_nats_final_durable.py:315-326 | and no candle is written three times |
| `DurableWriter.EachCandleAtMostTwice` | backend/app/api/services/chart_nats_final_durable.py:268-340 | with the worker's own decoder, for bodies the publisher built or without ids of their own, every candle key is written at most twice: once by a final, once by a reconcile |
| `DurableWriter.EachRowAtMostTwice` | backend/app/api/services/chart_nats_final_durable.py:412-440 | the row names no exchange: among published events no row is written three times from one exchange |
| `DurableWriter.FourWritesOfOneRow` | backend/app/api/services/chart_nats_final_durable.py:412-440 | finals and reconciles of one bar from two exchanges are four writes of one row |
| `DurableWriter.DelayedFinalOverwrites` | backend/app/api/services/chart_nats_final_durable.py:412-440 | a reconcile followed by the delayed final of its bar: the row shows the final |
| `DurableWriter.CountersBalance` | backend/app/api/services/chart_nats_final_durable.py:641-698 | over every run each message seen is acked, refused, terminated or was cut off, and no more writes are reported than committed |
| `DurableWriter.NextCounts` | backend/app/api/services/chart_nats_final_durable.py:641-698 | each further message moves every counter by exactly what happened to it: a write when the commit was reported, a duplicate when an earlier delivery had stored the id |
| `SmoothPartition.ClosedFormIsLargest` | backend/core/utils/smooth_partition.py:43-45 | (1 + isqrt(1 + 8m)) // 2 is at least d exactly when d(d-1)/2 fits into m |
| `SmoothPartition.GreedyPass` | backend/core/utils/smooth_partition.py:56-68 | the in-place layer loop computes the recursive greedy distribution and its remainder |
| `SmoothPartition.SpendRemainder` | backend/core/utils/smooth_partition.py:70-78 | the clean-up loop changes nothing when there is no remainder or no layer, and otherwise moves budget into weight |
| `SmoothPartition.RebuildPass` | backend/core/utils/smooth_partition.py:80-84 | the backward accumulation computes the parts from the differences |
| `SmoothPartition.PartitionSteps` | backend/core/utils/smooth_partition.py:43-89 | the integer core: it returns the specified parts exactly when k is at least 2 or n equals k, and otherwise fails the sum check; the order check never fires |
| `SmoothPartition.Partition` | backend/core/utils/smooth_partition.py:28-41 | the guards, in order, then the core on the whole number of steps, scaled back |
| `SmoothPartition.StepsOf` | backend/core/utils/smooth_partition.py:33-37 | a total is a whole number of steps exactly when the quotient is that integer |
| `SmoothPartition.GreedyConserves` | backend/core/utils/smooth_partition.py:62-68 | what the layers add to the sum plus what is left is the budget |
| `SmoothPartition.GreedySpendsAll` | backend/core/utils/smooth_partition.py:62-71 | the layers leave nothing whenever there is a layer, so the clean-up loop never iterates |
| `SmoothPartition.RebuildSum` | backend/core/utils/smooth_partition.py:80-86 | the sum of the parts is the number of parts plus the weighted sum of the differences |
| `SmoothPartition.PartsSum` | backend/core/utils/smooth_partition.py:86-87 | the parts sum to n exactly under the condition above; a single part of several units sums to 1 |
| `SmoothPartition.PartsShape` | backend/core/utils/smooth_partition.py:80-89 | the parts never increase, strictly decrease exactly on the first D* - 1 steps, and their differences never increase |
| `SmoothPartition.PartsAreOrdered` | backend/core/utils/smooth_partition.py:88-89 | the same between any two positions |
| `SmoothPartition.LastPartIsOne` | backend/core/utils/smooth_partition.py:80-82 | the last part is 1 |
| `SmoothPartition.PartsAttainDStar` | backend/core/utils/smooth_partition.py:43-45 | the parts have exactly D* distinct values |
| `SmoothPartition.DistinctValuesCost` | backend/core/utils/smooth_partition.py:43-44 | any positive sequence with d distinct values sums to at least d(d+1)/2 plus one for each further entry |
| `SmoothPartition.DStarIsOptimal` | backend/core/utils/smooth_partition.py:43-45 | every sequence of k positive integers with sum n has at most D* distinct values |
| `SmoothPartition.PartsAreOptimal` | backend/core/utils/smooth_partition.py:43-89 | the result is a positive sequence with sum n, and no other has more distinct values |
| `SmoothPartition.PartsAreGreedy` | backend/core/utils/smooth_partition.py:56-84 | which optimal split it is: a sequence is the result exactly when it sums to n, ends with 1, and its layers are chosen greedily, that is, none is longer than D* - 1, one of that length is always there, and all shorter than j together cost less than one of length j |
| `SmoothPartition.DocumentedSplit` | backend/core/utils/smooth_partition.py:56-84 | for instance 44 in 3 parts is 29, 14 and 1 |
| `SmoothPartition.OnePartIsNotFilled` | backend/core/utils/smooth_partition.py:60-87 | two units in one part: the core raises the internal error |
| `ShadowCompare.CompareStore.RecordEvent` | backend/app/api/services/chart_ingest_shadow.py:278-295 | one event: final ordering, filing in its own map, then comparison or a missing mark |
| `ShadowCompare.CompareStore.DetectFinalOrdering` | backend/app/api/services/chart_ingest_shadow.py:297-317 | duplicate finals and late partials per transport, counted before the key is remembered |
| `ShadowCompare.CompareStore.MarkMissingCounterpart` | backend/app/api/services/chart_ingest_shadow.py:319-332 | a missing counterpart is counted once per pending key |
| `ShadowCompare.CompareStore.Compare` | backend/app/api/services/chart_ingest_shadow.py:334-363 | one comparison: verdict, lag, drift and reason counters, whichever side came first |
| `ShadowCompare.CompareStore.CompareEventFields` | backend/app/api/services/chart_ingest_shadow.py:365-436 | mismatching fields, reasons and drift of a pair; partial pairs only drift |
| `ShadowCompare.CompareStore.RememberIn` | backend/app/api/services/chart_ingest_shadow.py:498-508 | an insertion moves the key to the end and evicts the oldest until the limit holds |
| `ShadowCompare.CompareStore.RecordBotHttpEvent` | backend/app/api/services/chart_ingest_shadow.py:206-208 | an event of the bot transport is counted and filed against the shadow map |
| `ShadowCompare.CompareStore.RecordShadowEvent` | backend/app/api/services/chart_ingest_shadow.py:210-212 | an event of the shadow transport is counted and filed against the bot map |
| `ShadowCompare.Remember` | backend/app/api/services/chart_ingest_shadow.py:498-508 | the bounded map keeps its order sound, holds the new entry, and loses nothing while there is room |
| `ShadowCompare.PairOfOneKey` | backend/app/api/services/chart_ingest_shadow.py:376-394 | two constructed events under one key can differ in symbol alone, and not even there unless one exchange name shifts into the other |
| `ShadowCompare.PairCounts` | backend/app/api/services/chart_ingest_shadow.py:334-436 | the comparison of two constructed events of one key, field by field: finals mismatch exactly when open, high, low or close differ by more than max(0, price tolerance) or both volumes exist and differ by more than theirs, and partials only drift under the same condition; both mismatch if the key hides two symbols, which takes exchange names that shift |
| `ShadowCompare.FiledHoldsLatest` | backend/app/api/services/chart_ingest_shadow.py:498-508 | a bounded memory holds a key exactly when fewer than limit other keys were inserted since, and with its last value |
| `ShadowCompare.NextReport` | backend/app/api/services/chart_ingest_shadow.py:278-363 | what one more report counts, in terms of all reports before it and with any eviction: duplicate finals and late partials, then the fields of the pair if the other side still holds the key, and a missing counterpart otherwise |
| `ShadowCompare.RecordKeepsPending` | backend/app/api/services/chart_ingest_shadow.py:288-294 | a key in both maps is in neither pending map, also after evictions |
| `ShadowCompare.RunKeepsEverything` | backend/app/api/services/chart_ingest_shadow.py:278-436 | over every run: the maps stay sound, bounded and paired; compared = match + mismatch = lag samples = volume comparable + volume missing; the type and flag reasons stay 0 |
| `ShadowCompare.MismatchesAreFinal` | backend/app/api/services/chart_ingest_shadow.py:354-363 | over every run in which no exchange name of one side shifts into one of the other, every mismatch is a final mismatch |
| `ShadowCompare.EveryStoreAgrees` | backend/app/api/services/chart_ingest_shadow.py:278-436 | in every state reachable from an empty store these relations hold |
| `ShadowCompare.EveryMismatchIsFinal` | backend/app/api/services/chart_ingest_shadow.py:354-363 | and so mismatch_total equals final_mismatch_total in every state such runs reach from an empty store |
| `ShadowCompare.MismatchesAreFinalIff` | backend/app/api/services/chart_ingest_shadow.py:354-363 | for the store alone, fed with any two sets of exchange names, this holds exactly when no name of one side shifts into one of the other |
| `ShadowCompare.FeedsOnlyFinalsIff` | backend/app/api/services/chart_ingest_shadow.py:531-560 | for what the builders report, bybit on the bot and ingest transport and any names on the NATS transport, it holds exactly when bybit shifts into no NATS name |
| `ShadowCompare.ColonFreeFeeds` | backend/app/api/services/chart_nats_shadow.py:78-92 | in particular when the payloads name exchanges without colons |
| `ShadowCompare.ShiftParts` | backend/app/api/services/chart_ingest_shadow.py:376-381 | for two names that shift, a bot partial of one and a NATS partial of the other, under one key and with non-empty symbols, are counted as a mismatch that is not final |
| `ShadowCompare.PendingIsExact` | backend/app/api/services/chart_ingest_shadow.py:288-332 | from any exact state, while all keys fit, the pending maps are exactly the keys each side lacks |
| `ShadowCompare.PendingOfRun` | backend/app/api/services/chart_ingest_shadow.py:288-332 | in particular for every run from an empty store whose keys fit |
| `LiveCandles.LiveState.UpsertLiveEvent` | backend/app/api/ws/chart_candles.py:694-746 | one locked update: refused for a remembered bar or a non-advancing partial, otherwise numbered, cached unless older than the cached bar, and remembered when final |
| `LiveCandles.LiveState.RememberFinalizedBar` | backend/app/api/ws/chart_candles.py:390-397 | the set and the queue hold the same distinct bars, within the limit; a new bar evicts the oldest |
| `LiveCandles.LiveState.BroadcastReconcile` | backend/app/api/ws/chart_candles.py:749-782 | a reconcile takes the next number and touches no other state |
| `LiveCandles.NewestIsLastOfGreatest` | backend/app/api/ws/chart_candles.py:706-737 | the reference: the last accepted event among those of the greatest bar start |
| `LiveCandles.MaxSeqIsGreatest` | backend/app/api/ws/chart_candles.py:740-743 | the reference: the greatest accepted source sequence |
| `LiveCandles.RunRefines` | backend/app/api/ws/chart_candles.py:694-743 | after every run the cache, the sequence marks and the memory are those of the accepted history |
| `LiveCandles.CacheIsNewest` | backend/app/api/ws/chart_candles.py:706-737 | the cached event has the greatest bar start accepted for its key, and is the last of those |
| `LiveCandles.SilenceAfterFinal` | backend/app/api/ws/chart_candles.py:702-704 | between an accepted final and any later update of its bar lie at least as many finals as the memory holds |
| `LiveCandles.RememberedUntilLimit` | backend/app/api/ws/chart_candles.py:390-397 | until then every update of the bar is refused |
| `LiveCandles.PartialsAdvance` | backend/app/api/ws/chart_candles.py:716-723 | an accepted partial with a sequence exceeds every sequence accepted before it |
| `LiveCandles.AcceptsIff` | backend/app/api/ws/chart_candles.py:702-723 | an update is accepted exactly when its bar is not remembered and it is final, has no sequence, or has one above every sequence sent before for its chart |
| `LiveCandles.Gateway.HandleMessage` | backend/app/api/services/chart_nats_active_gateway.py:304-391 | one message: schema drop, inactive drop, reconcile or update, and each way it can be cut off or fail, before the lock, in the fan-out or at the ack, with its counters and its effect on the state |
| `LiveCandles.ActionIsPrepared` | backend/app/api/services/chart_nats_active_gateway.py:345-353 | the gateway's update of an event is the request that the live state prepares |
| `LiveCandles.GatewayIsARun` | backend/app/api/services/chart_nats_active_gateway.py:304-370 | any interleaving, redelivery and failure of both lanes is a run of the live state |
| `LiveCandles.GatewayRefines` | backend/app/api/services/chart_nats_active_gateway.py:304-370 | from a fresh start, the state is that of the history of what was sent |
| `LiveCandles.GatewayPromises` | backend/app/api/ws/chart_candles.py:694-743 | so for any messages: no update of a finalized bar before the memory has taken in as many other finals as it holds, sequenced partials advance, and the cache is the last update of the greatest bar start |
| `LiveCandles.GatewayRemembers` | backend/app/api/ws/chart_candles.py:702-704 | and updates of a finalized bar are refused until then |
| `LiveCandles.NextMessage` | backend/app/api/services/chart_nats_active_gateway.py:304-370 | the history is determined by the messages alone: each one that is decoded and active, and not cut off before the lock, sends one update or one reconcile note with these fields, or nothing, exactly as the condition of AcceptsIff says |
| `LiveCandles.GatewayAccounts` | backend/app/api/services/chart_nats_active_gateway.py:304-391 | over every run, messages seen are fan-outs, drops and the calls that were cut off; and acks, naks, terms and the messages never settled |
| `LiveCandles.NextCounts` | backend/app/api/services/chart_nats_active_gateway.py:304-391 | each further message moves every counter by exactly what happened: a fan-out when it sent something and the sending was not cut off, a drop when it sent nothing |
| `PositionLedger.PositionBook.OpenExecution` | backend/core/ws/handlers/execution_handler.py:312-475 | an entry extends the open record of its key by weighted average, or replaces the record, and is upserted into the row |
| `PositionLedger.PositionBook.TakeProfitFill` | backend/core/ws/handlers/execution_handler.py:504-631 | a take-profit: fill recorded, size lowered to what the fills imply, row closed at size zero |
| `PositionLedger.PositionBook.CloseFill` | backend/core/ws/handlers/execution_handler.py:633-859 | a market close: reconciled size, label, fill kind, and the close of record and row when nothing is left |
| `PositionLedger.PositionBook.StopLossFill` | backend/core/ws/handlers/execution_handler.py:993-1146 | a stop-loss closes record and row and leaves the size alone |
| `PositionLedger.PositionBook.FundingFill` | backend/core/ws/handlers/execution_funding.py:48-69 | a funding payment is booked as profit without fee or quantity in both ledgers |
| `PositionLedger.PositionBook.SaveStore` | backend/core/persistence/execution_store.py:110-121 | saving trims the kept records in memory to the newest fills |
| `PositionLedger.PositionBook.HandleExecution` | backend/core/ws/handlers/execution_handler.py:238-1163 | one execution: branch by order type, target record, effects on both ledgers, saving, funding, and the net profit of the final alert |
| `PositionLedger.PositionBook.HandleMessage` | backend/core/ws/handlers/execution_handler.py:233-238 | the executions of a message are handled in order |
| `PositionLedger.StepIsBoth` | backend/core/ws/handlers/execution_handler.py:238-1163 | which parts of an execution happen: nothing without an order key or for an exit without a record, otherwise an entry or exit and then a payment |
| `PositionLedger.EntryBooks` | backend/core/ws/handlers/execution_handler.py:312-475 | an entry, column by column: sums and weighted price of the open record or a new record, the accumulating row, and no other record or row |
| `PositionLedger.ExitBooks` | backend/core/ws/handlers/execution_handler.py:504-1146 | an exit, column by column: label, kind, remaining size, close and exit time by order type, one fill in record and row, the finalized columns, the alert exactly when the record closed, and no other record or row |
| `PositionLedger.PaymentBooks` | backend/core/ws/handlers/execution_funding.py:39-69 | a funding payment, column by column |
| `PositionLedger.Newest` | backend/core/trading/execution_store_ops.py:211-224 | an open record of the symbol and side, if there is any |
| `PositionLedger.ResolveIsComplete` | backend/core/trading/execution_store_ops.py:192-236 | in a store that lists its keys a record is found exactly when one is open for the symbol and side |
| `PositionLedger.OpenRecordsAreFound` | backend/core/trading/execution_store_ops.py:192-236 | and so in every reachable state, where the two remembered order ids are therefore never needed |
| `PositionLedger.LatestRecordIsFound` | backend/core/trading/execution_store_ops.py:192-224 | in every reachable state that record is the order key's own while it is open, and otherwise exactly the one listed first among those with the latest entry time |
| `PositionLedger.ClosesTheLatest` | backend/core/ws/handlers/execution_handler.py:504-510 | so that is the record an exit concerns, on the side it reduces |
| `PositionLedger.PaysTheLatest` | backend/core/ws/handlers/execution_funding.py:12-42 | and a funding payment, on the side it was paid |
| `PositionLedger.BeforeIsLexicographic` | backend/core/trading/execution_store_ops.py:222-223 | times compare as texts do |
| `PositionLedger.NewestFirstSorts` | backend/core/persistence/execution_store.py:115-120 | the fills are ordered by time, newest first, and are the same fills |
| `PositionLedger.TiesKeepOrder` | backend/core/persistence/execution_store.py:115-120 | fills of one time stay in their order |
| `PositionLedger.TrimKeepsNewest` | backend/core/persistence/execution_store.py:112-121 | trimming keeps exactly the allowed number of fills and drops none that is newer than one it keeps |
| `PositionLedger.PutSums` | backend/core/ws/handlers/execution_handler.py:536-542 | recording a fill adds it to the sums and takes out the fill its label held |
| `PositionLedger.TakeProfitNetMoves` | backend/core/ws/handlers/execution_handler.py:513-542 | the net of a record moves by a take-profit exactly when its label was new or held a fill of zero net: two in one second lose one |
| `PositionLedger.OnlyEntriesRaiseSizes` | backend/core/ws/handlers/execution_handler.py:504-1146 | no take-profit, close, stop-loss or funding step raises any size, whatever labels, saving and database do |
| `PositionLedger.BookedKeepsStory` | backend/core/persistence/positions_repo.py:78-145 | booking and finalizing keep the row equal to the totals, and write their net |
| `PositionLedger.WeightedAverage` | backend/core/persistence/positions_repo.py:171-176 | both ways of averaging keep price times quantity equal to the value entered |
| `PositionLedger.StepKeepsStories` | backend/core/ws/handlers/execution_handler.py:312-1160 | with new labels, room for every fill, execValue equal to price times quantity and database calls that succeed, every execution moves record, row and reference totals alike |
| `PositionLedger.RunKeepsStories` | backend/core/ws/handlers/execution_handler.py:233-1163 | so does every run with these properties |
| `PositionLedger.RowsRun` | backend/core/persistence/positions_repo.py:78-185 | over every run whose database calls succeed, whatever labels, lists and values it has, the rows hold the sums of everything booked under their keys, and the row of a closed record is finalized with their net |
| `PositionLedger.RunTraces` | backend/core/ws/handlers/execution_handler.py:312-1163 | over every run at all, a record's entries are those since it was started, and its net is that of what was filled since, less what overwriting and trimming took out |
| `PositionLedger.ClosedRecordsAgreeWithRows` | backend/core/ws/handlers/execution_common.py:50-54 | over every run whose database calls succeed, pnl_net of a closed record's row is the record's pnl minus fees, plus the pnl_net at which the row stood when the record was started, plus the net of the fills that overwriting and trimming took out of the record; the two agree exactly when these two amounts cancel, and the first is zero for a key never reused |
| `PositionLedger.ProperRunLosesNothing` | backend/core/ws/handlers/execution_handler.py:513-542 | with new labels, room for every fill and execValue equal to price times quantity, the second amount is zero |
| `PositionLedger.SameSecondDiverges` | backend/core/ws/handlers/execution_handler.py:513-542 | one take-profit order filled twice in a second, then a stop-loss: the key is never reused, the record nets 4 and the row 9, and before the stop-loss the size is 2 with one lot left |
| `PositionLedger.EntriesAgree` | backend/core/trading/execution_store_ops.py:26-33 | in every reachable state a record's entry price times its entry quantity is the value entered since it was started; over every run whose database calls succeed its row's is that entered since the row was made |
| `PositionLedger.SizesFollowFills` | backend/core/trading/execution_store_ops.py:26-36 | over runs with new labels, room for every fill and execValue equal to price times quantity, the size is max(entered - closed, 0), where the quantity of a stop-loss does not count as closed |
| `PositionLedger.ClosedMeansEmptyIff` | backend/core/ws/handlers/execution_handler.py:1019-1020 | in every reachable state an open record has a positive size, and a closed one has size zero exactly when no stop-loss filled it |
| `PositionLedger.AlertIsRowNet` | backend/core/ws/handlers/execution_common.py:47-54 | after every run whose database calls succeed, the net profit an alert reports is pnl_net of the row, less what the row stood at when the record was started and the net of the fills the record lost; they agree exactly when these cancel |
| `PositionLedger.LeftoverUntilReused` | backend/core/ws/handlers/execution_handler.py:334-338 | what was booked in the row but not since the record was started stays the same until an entry starts a new record under the key, and then it is the row's net |
| `PositionLedger.ReuseDiverges` | backend/core/persistence/positions_repo.py:169-185 | two manual round trips of profit 5: the second alert reports 5 and the row 10 |
| `PositionLedger.StopLossLeavesSize` | backend/core/ws/handlers/execution_handler.py:1019-1020 | the stop-loss branch closes a record and leaves it a positive size |
| `QtyGrid.LotsAreFixed` | backend/core/utils/qty_utils.py:19-22 | a whole number of lots is a fixed point exactly when it is non-negative or epsilon is zero |
| `QtyGrid.LotArithmetic` | backend/core/trading/execution_store_ops.py:36 | max(snapped, 0) of any difference of lots is exact, so sizes can be counted in lots |
| `QtyGrid.SnapsToLots` | backend/core/utils/qty_utils.py:19-22 | a snapped quantity is a whole number of lots, less than a step below quantity plus epsilon, or above it where that is negative |
| `Publisher.EventPublisher.EnqueueEvent` | backend/app/api/services/chart_broker_shadow.py:381-412 | an item is accepted into its lane, or refused with the counters of its kind |
| `Publisher.EventPublisher.NextItem` | backend/app/api/services/chart_broker_shadow.py:469-481 | finals before partials, oldest first |
| `Publisher.EventPublisher.PublishItem` | backend/app/api/services/chart_broker_shadow.py:685-737 | attempts until one is acknowledged or max(1, retries) have failed, with their counters and the copies that reached the broker |
| `Publisher.AttemptsAreSteps` | backend/app/api/services/chart_broker_shadow.py:685-737 | these attempts are steps of a run, so the run properties cover them |
| `Publisher.RunKeeps` | backend/app/api/services/chart_broker_shadow.py:381-737 | over every interleaving of enqueuing and publishing, lanes, deliveries and counters keep their relations |
| `Publisher.EveryFinalIsAccountedFor` | backend/app/api/services/chart_broker_shadow.py:696-737 | every accepted final is queued, in flight, published, or counted as a final failure; between attempts, attempts plus counted refusals are successes plus failures, every attempt belongs to an item, and the dropped partials are those a full lane refused |
| `Publisher.AcceptedIff` | backend/app/api/services/chart_broker_shadow.py:381-412 | an item is accepted exactly when the publisher was started and its lane has fewer than max(1, limit) items that were accepted and not yet taken |
| `Publisher.FinalsGoFirst` | backend/app/api/services/chart_broker_shadow.py:469-481 | each lane is a queue, and a partial is taken only when every final accepted so far was |
| `Publisher.BrokerLogIsInOrder` | backend/app/api/services/chart_broker_shadow.py:685-737 | the broker gets one block of copies per item, in the order taken, one for every attempt that was acknowledged or lost its acknowledgement; an item is given up only after max(1, retries) attempts of its kind |
| `Publisher.RetriesShareAnId` | backend/app/api/services/chart_broker_shadow.py:102-116 | copies of a final share a message id, and ids agree exactly when the idempotency keys do |
| `Pipeline.PublishedOnceStoredOnce` | backend/app/api/services/chart_nats_final_durable.py:371-453 | for any publisher run and any deliveries from its broker log, the tables are those of the committed deliveries run once each; each of those stores an enqueued final or reconcile under its own id, no two share an id, and neither a candle key nor the row of one exchange is written three times |
| `Pipeline.AckedCopyIsStored` | backend/app/api/services/chart_nats_final_durable.py:654-666 | a published event whose copy was acked has its id in the dedupe table ever after |
| `Pipeline.DeliveredWasEnqueued` | backend/app/api/services/chart_broker_shadow.py:469-521 | every message in the broker log is a copy of an item that was enqueued |
| `ChartEvents.MakeEvent` | backend/core/ws/chart_events.py:81-103 | an event exists exactly when type and final flag agree and the candle normalizes, and then confirm equals the final flag |
| `ChartEvents.IdempotencyKeyIdentifies` | backend/core/ws/chart_events.py:109-118 | equal idempotency keys force type, interval, bar, final and confirm flag, and exchange and symbol too unless one exchange name shifts into the other; a name without colons never does |
| `ChartEvents.ExchangesCollideIff` | backend/core/ws/chart_events.py:109-118 | some events of two exchanges share a key exactly when one name is the other, a colon and an upper-case rest |
| `ChartEvents.ShiftCollides` | backend/core/ws/chart_events.py:109-118 | two such names have colliding partials of different, non-empty symbols |
| `ChartEvents.ColonsCanCollide` | backend/core/ws/chart_events.py:109-110 | for instance x and x:1 |
| `ChartEvents.CriticalMessageIds` | backend/app/api/services/chart_broker_shadow.py:102-116 | two finals or reconciles share a message id exactly when their identities agree |
| `ChartEvents.PartialMessageIds` | backend/app/api/services/chart_broker_shadow.py:102-116 | two partials share a message id exactly when keys, sequences, emission and publish times agree |
| `ChartEvents.GatewayRoundTrip` | backend/app/api/services/chart_nats_active_gateway.py:46-91 | the gateway decodes a published payload to the event, except for source, reason and a zero sequence |
| `ChartEvents.GatewayReadsFlatFields` | backend/app/api/services/chart_nats_active_gateway.py:55-70 | without the candle dictionary, or its volume, the gateway reads the same event with the publisher's volume only |
| `ChartEvents.GatewayReadsInterval` | backend/app/api/services/chart_nats_active_gateway.py:77 | without tf it reads the same event from the interval token, except a daily one, whose token reads as 0 |
| `ChartEvents.GatewayReadsFinalFlag` | backend/app/api/services/chart_nats_active_gateway.py:72 | it takes the final flag from the type and refuses only a partial that is flagged final |
| `ChartEvents.StorageRoundTrip` | backend/app/api/services/chart_nats_final_durable.py:268-340 | the worker decodes exactly the published finals and reconciles it can store, and carries their fields over |
| `ChartEvents.StorageReadsFinalFlag` | backend/app/api/services/chart_nats_final_durable.py:268-283 | the worker accepts the flag exactly when it is true, non-zero or one of four words |
| `ChartEvents.StorageReadsRest` | backend/app/api/services/chart_nats_final_durable.py:291-338 | without tf it reads the same event from the interval token, daily ones included, and it takes a turnover unless that is zero |
| `ChartEvents.ConsumersAgree` | backend/app/api/services/chart_nats_final_durable.py:268-340 | both consumers read one payload alike; their keys agree exactly when the exchange has no leading white space |
| `ZoneProjection.ZoneTables.Upsert` | backend/core/persistence/zone_state_repo.py:11-86 | the zone upsert and then the sync of its row: nothing, the zone only, or both, as the database lets it |
| `ZoneProjection.ZoneTables.MarkBrokenByClose` | backend/core/persistence/zone_state_repo.py:89-165 | the zones past their stop are ended and their rows synced one by one; without an error exactly those zones are returned, after one none is although all are ended |
| `ZoneProjection.ZoneTables.SyncRows` | backend/core/persistence/zone_projection_repo.py:124-158 | syncing rows in turn, up to an error, sets each to the payload of its zone |
| `ZoneProjection.ZoneTables.DeactivateByKey` | backend/core/persistence/zone_state_repo.py:311-362 | an open active zone is switched off and synced; the answer says whether there was one, and there is none after an error, even when the zone is already off |
| `ZoneProjection.ZoneTables.MarkBrokenByKey` | backend/core/persistence/zone_state_repo.py:419-465 | an open zone is ended without a sync; the answer says whether there was one, and is false after an error |
| `ZoneProjection.ZoneTables.UpsertState` | backend/app/db/crud.py:293-341 | switch and override of an existing zone with its row, in one commit; nothing changes when the zone is missing or the commit fails |
| `ZoneProjection.ZoneTables.BulkUpsertZones` | backend/app/db/crud.py:343-391 | base columns of each box in turn with their rows, in one commit; it raises and changes nothing when a zone or row would be added twice; no boxes need no commit |
| `ZoneProjection.BandIsOrdered` | backend/core/persistence/zone_projection.py:28-42 | the drawn band spans entry, overridden or not, and stop, is upside down exactly for an override on the wrong side of the stop, and is active exactly while its zone is and has not ended |
| `ZoneProjection.SeedAgrees` | backend/app/db/projection_ddl.py:43-79 | the SQL derives the same row as the Python |
| `ZoneProjection.SeedCompletes` | backend/app/db/projection_ddl.py:25-88 | seeding yields the view exactly when the rows already there were right |
| `ZoneProjection.ApplyFrame` | backend/core/persistence/zone_projection_repo.py:83-158 | each write writes certain zones, sets certain rows to the payloads of their zones, and touches nothing else |
| `ZoneProjection.WhatIsWritten` | backend/core/persistence/zone_state_repo.py:11-465 | what every write makes of a zone, column by column; of several boxes with one key the last decides |
| `ZoneProjection.RowsShowLastSync` | backend/core/persistence/zone_projection_repo.py:83-158 | after any writes, with any errors between zone statement and sync, the projection is the payloads of the zones as last synced |
| `ZoneProjection.StaleRows` | backend/core/persistence/zone_state_repo.py:66-76 | a row is missing or wrong exactly when its zone was never synced, or would have been drawn differently when it was; only zones written since their last sync can be |
| `ZoneProjection.StaleExactlyAfterKeyBreaks` | backend/core/persistence/zone_state_repo.py:419-465 | without such errors the stale rows are exactly those of open zones ended by key and not synced since |
| `ZoneProjection.ProjectionIsAView` | backend/core/persistence/zone_projection_repo.py:83-158 | while every write syncs what it writes, every zone has a row and it is the payload of the zone |
| `ZoneProjection.WriteKeepsViewIff` | backend/core/persistence/zone_state_repo.py:66-142 | a write keeps the view exactly when it syncs all it writes, or is an upsert that changes neither end, entry nor stop |
| `ZoneProjection.TornWrites` | backend/core/persistence/zone_state_repo.py:66-142 | one witness each: a missing row after an insert, an active row after a deactivation, an unbroken row after a break |
| `ZoneProjection.KeyBreakKeepsViewIff` | backend/core/persistence/zone_state_repo.py:419-465 | ending by key keeps the view exactly when no open zone has the key |
| `ZoneProjection.BreakByCloseEnds` | backend/core/persistence/zone_state_repo.py:102-124 | a close ends exactly the open zones of its symbol and interval past their stop, long ones with the close below it and short ones with the close above, and changes no other zone, however many rows are synced |
| `ZoneProjection.UpsertKeepsUserState` | backend/core/persistence/zone_state_repo.py:40-57 | the upsert keeps the override, and the switch while the zone is open |
| `ZoneIds.OrderRoundTrip` | backend/core/utils/zone_ids.py:37-91 | a printed order id parses back exactly for a non-empty, dash-free symbol and non-negative numbers |
| `ZoneIds.SuffixReads` | backend/core/utils/zone_ids.py:55 | the suffix is the clock's last five digits |
| `ZoneIds.OrdersAgreeIff` | backend/core/utils/zone_ids.py:36-58 | two order ids agree exactly when zone and last five digits of the clock do |
| `ZoneIds.BoxReadsBack` | backend/core/utils/zone_ids.py:36-126 | ids printed from a box read back the box's own zone, with the default for a missing symbol |
| `ZoneIds.ParentRoundTrip` | backend/core/utils/zone_ids.py:102-126 | a printed parent id parses back exactly for a symbol without a bar |
| `ZoneIds.ParentIdentifies` | backend/core/utils/zone_ids.py:19-34 | different zones have different parent ids |
| `ZoneIds.Triangle` | backend/core/utils/zone_ids.py:19-126 | from order id to parent id is printing the parent directly, exactly when the order id parses back |
| `ZoneIds.PrintersAgree` | backend/core/utils/zone_ids.py:19-58 | both printers refuse the same boxes |
| `ZoneIds.ParsedSymbols` | backend/core/utils/zone_ids.py:61-126 | whatever parses names a symbol free of the separator |
| `Backfill.BackfillInterval` | backend/core/tools/backfill_candles.py:321-419 | guards, then paging: writes are in the window and never twice for any well-behaved exchange; for a complete one exactly the bars of the window up to the last, in as few pages as the start allows, except that one-bar pages from an unaligned start end at once |
| `Backfill.PageThrough` | backend/core/tools/backfill_candles.py:380-417 | the loop alone, from any start up to a bound, with termination, and its pages and bars for a complete exchange |
| `Backfill.PlanMatchesRun` | backend/core/tools/backfill_candles.py:109-134 | for a start on the interval grid, the plan's pages are those the run reads, and its bars those the run writes, exactly under stated conditions on the window |
| `Backfill.WholeBars` | backend/core/tools/backfill_candles.py:126-130 | for a window of m whole bars the plan is m bars in ceil(m/limit) pages; from an aligned start the run reads the same for m of at least 2, and nothing for a single bar |
| `Backfill.PlanIsChecked` | backend/core/tools/backfill_candles.py:118-124 | the plan refuses what the run refuses, with the same error |
| `ProcessTree.ExpandTree` | scripts/loadtest/loadgen_resource_sampler.py:128-137 | the result is the least set with the roots that is closed under selected parents: the roots' descendants, for any table |
| `ProcessTree.RootlessCyclesAreLeftOut` | scripts/loadtest/loadgen_resource_sampler.py:133-136 | processes on a parent cycle without a root are left out |
| `PyText.ParseStr` | backend/core/utils/zone_ids.py:75-76 | reading a printed integer gives it back |

## Left out

- NATS, Redis, MySQL, Bybit and Telegram calls are outcomes given as inputs: a commit or rollback, an answer lost or not sent, a page of bars.
- Cancellation of the publisher's worker, its shutdown drain, connection management and latency statistics.
- Logging, summaries, environment parsing, JSON encoding and date formatting.
- Floating-point and SQL DECIMAL rounding: money, prices and Decimal quantities are reals, position sizes whole lots.
- Text is ASCII: upper, lower and strip do not cover other scripts; int() of digits with underscores is not modelled.
- SmoothPartition.Partition: does not model the formatting of the result by return_type, nor the 28-digit precision of Decimal.
- ShadowCompare.CompareStore.Compare: does not model partial_drift_abs_max, which is parsed back from log text.
- ShadowCompare.NextReport: reads the pending memory off the store when keys were evicted; PendingOfRun describes it while all keys fit.
- LiveCandles.LiveState.UpsertLiveEvent: does not model the websocket sends that follow the state change, nor serverTs; the body under the lock is one step.
- LiveCandles.SilenceAfterFinal: does not hold beyond the memory's limit, because the oldest finalized bar is then forgotten.
- PositionLedger.PositionBook.HandleExecution: does not model zone re-entry guards, deactivation of zones, overlay and Telegram messages, nor the exit price and duration columns; which records a save keeps is an input.
- PositionLedger.ClosedRecordsAgreeWithRows: assumes that the database calls succeed, as do AlertIsRowNet, RowsRun and the row half of EntriesAgree; a row misses what a failed call did not write.
- PositionLedger.RunKeepsStories: assumes as well, as does SizesFollowFills, that a label with only a second in it is new in its record, that there is room for the fill within EXEC_FILLS_MAX, and that an entry's execValue is price times quantity; SameSecondDiverges shows what happens otherwise, and RunTraces and RowsRun need none of it.
- PositionLedger.TakeProfitNetMoves: states the collision for the TP label, because Funding and Manual_Reduce labels have the same resolution and PutSums covers them all.
- merge_store_record_into and the corrections of the position stream, which overwrite sizes from outside the ledger.
- DurableWriter.FinalReconcileStore.WriteEvent: models the worker as the only writer of candles; the repository's candle upserts (backend/core/persistence/candles_repo.py:186 and backend/core/tools/backfill_candles.py:248) write the table too, and RowIsLastWrite speaks of the worker's writes. Event ids are compared exactly, not under a case-insensitive collation.
- ZoneProjection.ZoneTables.BulkUpsertZones: takes the side as LONG or SHORT, the two values its schema documents; any other text stored there is outside the model, as are collations.
- ZoneProjection.ZoneTables.Upsert: models calls on their own connection, which commits every statement; a caller's connection with a transaction of its own is left out.
- The last_updated_at column, and the read-only listings of zones, which use other sources than the projection.
- Backfill.BackfillInterval: models explicit windows; the default start from the newest stored row and the clock are left out. It requires an exchange that answers within the requested range, because the loop need not end otherwise. PlanMatchesRun and WholeBars compare plan and run for aligned starts.
- zone_ids' default symbol from the environment is a parameter.
- ProcessTree.ExpandTree: takes the process table as a list; reading /proc is left out.
- React components, chart library code and one-time-password pages.

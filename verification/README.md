# otel-sqlite: a verified model of the durable-acknowledgement pipeline

otel-sqlite receives OTLP log exports and stores them in SQLite. In commit mode it answers an
export only when it knows what happened to every record. The request is admitted whole or not at
all into a bounded queue, each of its chunks gets a commit ticket, the batcher splits and merges
chunks per origin into storage-sized batches, one writer persists the batches under a retry and
salvage policy and settles tickets in a ledger that publishes a contiguous watermark, and the
handler derives success, `partial_success` or `UNAVAILABLE` from that ledger.

## How the model is built

- **Objects.** `CommitLedger`, `InsertBatcher`, `OriginBuffers`, `BatcherDriver`, `IngestSender`, `Database`,
  `MaintenanceScheduler` and `EventStore` are classes with the fields the program updates. Each method is
  proved against a function on values.
- **The pipeline.** `Protocol` is a step machine over the same functions: any number of gated producers,
  the batcher, the writer, publication (a step of its own, after the ledger's lock is released),
  closing, and waiting handlers interleave freely. Its 24 actions follow the lock and channel
  operations of the program.
- **The token stream.** A record is named by its chunk's ticket and its position there; the pipeline
  itself only labels records through ticket segments. The central invariant says that, for every
  ticket, the writer's log followed by everything in flight spells out exactly the chunk that was sent,
  and that the ledger, after the writer's outstanding calls, agrees with the log. It is stated in
  `Conservation`, proved action by action in `Steps` and `Conserving`, and used by `Guarantees` to prove what
  clients may rely on, over every run. Beside it, `Calls` follows the settling calls still to be made, `Barriers` the
  flushes, `Origins` the origins, `Publishing` the watermarks, and `Admission` and `Requests` the requests. `Ages` and
  `BatcherRuns` follow when each buffered record entered, and `Draining` shows that what is in flight can always be finished.
- **The rest** is self-contained: the request validator against the converter (`Values`, `Mapping`, `Measures`), the
  canonical attribute encoding (`Attributes`), dates and names of backups (`Calendar`, `Timestamps`), the
  encrypted container (`Backup`), the maintenance scheduler (`Scheduler`), retention, quota and search index
  (`Maintenance`), and deadlines (`Clock`).

Time, row failures, clock readings, what the consumer drains, when the writer disappears, file sizes
and checkpoint results are parameters or free choices. A failed transaction leaves the table as it was.

## Findings

- The size check of scope metadata is exact except for one case: under a budget equal to the largest
  machine word, a scope with a single record is never rejected (`Mapping.BudgetIsExact`).
- The validator counts a structured body as a nesting level and the converter does not, so on every body the
  validator is stricter by exactly one level (`Mapping.BodiesMayBeOneDeeper`; `Mapping.DeepestBody` has a body
  that shows it). Accepted requests always convert.
- `saturating_deadline` is documented to clamp to the farthest representable instant. It halves the
  duration instead, which ends there if and only if the remaining range, in binary, is a prefix of the duration
  (`Clock.ReachesHorizon`; `Clock.HorizonCanBeMissed` has deadlines of a 64-bit clock that fall short). `Clock.SaturatingDeadline`
  guarantees half of the remaining range otherwise.
- The documented limit of an encrypted backup is 2^32 frames; the code refuses the last of them, so the
  limit is 2^32 - 1 (`Backup.EncryptFile`). Cutting a backup at a frame boundary is not detected
  (`Backup.OnlyPrefixesDecode`).
- A retention window longer than `i64` nanoseconds is shortened to it, which expires more than asked for
  exactly when the clock is not before the epoch (`Maintenance.CutoffIsExact`).
- The formula of `outstanding_tickets` counts issued unsettled tickets exactly when every parked ticket was
  issued or nothing is pending (`Ledger.OutstandingIsExactlyPending`). The pipeline parks issued tickets only, so
  there the formula is exact (`Guarantees.OutstandingIsExact`). The program reads the issue counter before it takes
  the lock, so its count may miss tickets issued in between, and never counts too many
  (`Ledger.CommitLedger.OutstandingTickets`).
- The flat attribute encoder indexes with 32 bits and sees the list up to its length modulo 2^32. It agrees with
  the nested one if and only if that part has an equally encoded last value for every key, as it does below 2^32
  entries (`Attributes.WriteAttributesJson`); a list of 2^32 entries is encoded as empty (`Attributes.LongListIsLost`).
- Names of backups sort by time up to second 253402300800, the year 10000, and up to no later bound
  (`Timestamps.NamesSortByTime`, `Timestamps.FiveDigitYearsSortFirst`).
- An error in the middle of retention or quota work leaves the resources of removed events unswept
  (`Maintenance.EventStore.Prune`, `Maintenance.EventStore.EnforceQuota`); the next sweep takes them
  (`Maintenance.SweepKeepsConsistent`).

## Model

| member | source | states |
|---|---|---|
| `Guarantees.SuccessIsDurable` | crates/otel-sqlite-ingress/src/logs.rs:183-245 | Over every run in commit mode: a success answer is given only when the chunks this request sent hold all its records, and each record of each of them is a committed row |
| `Guarantees.AnswersAreExact` | crates/otel-sqlite-ingress/src/logs.rs:184-243 | Over every run in commit mode, at the answer and in every later state, counted over the chunks this request sent: success is answered if and only if no record is missing, UNAVAILABLE if and only if none is there and none was dropped as poison, and a reported count is the number of missing records clipped to i64; a request that sent nothing is told to retry unless it was empty and met no vanished batcher; an answered request sends nothing more |
| `Guarantees.EnqueueAnswersAreExact` | crates/otel-sqlite-ingress/src/logs.rs:245-268 | Over every run in enqueue mode, with the records of the chunks this request put into the queue: all of them is answered with success, some with the number of the others clipped to i64, and none with UNAVAILABLE, or with success for an empty request that met no vanished batcher |
| `Guarantees.RequestsShareNoTicket` | crates/otel-sqlite-ingress/src/enqueue.rs:104-150 | Over every run no two requests sent a chunk under the same ticket |
| `Guarantees.RowsAreUnique` | crates/otel-sqlite-storage/src/writer.rs:199-245 | Over every run no record is in the table twice and the rows counted under a ticket are the rows sent under it |
| `Guarantees.RowsKeepTheirOrigin` | crates/otel-sqlite-storage/src/command/logs.rs:62-158 | Over every run every row of the table is written under the origin its chunk was sent with, and the rows are the committed records in order |
| `Guarantees.NoTicketLeaks` | crates/otel-sqlite-ingress/src/enqueue.rs:104-150 | Over every run, while the writer lives: an issued ticket is unsettled if and only if some of it is in flight or its settling call is still to be made, and never both |
| `Guarantees.WatermarkCatchesUp` | crates/otel-sqlite-storage/src/writer.rs:157-175 | Over every run: when the pipeline rests alive the watermark is the last issued ticket and nothing is parked |
| `Draining.NothingIsStuck` | crates/otel-sqlite-storage/src/writer.rs:149-175 | From every reachable state with a living writer the pipeline can finish, by its own steps, what is in flight: nothing is left in queues, buffers or commands, and every issued ticket is settled |
| `Draining.LossEndsBatching` | crates/otel-sqlite-storage/src/batcher.rs:84-182 | The first command lost to a dead writer ends the batching: whatever happens afterwards, no further message is taken in and no further row is stored |
| `Draining.MoveLeavesLess` | crates/otel-sqlite-storage/src/batcher.rs:116-182 | Every such step leaves less to do at the gate, in the queue, in the buffers or further down |
| `Guarantees.OutstandingIsExact` | crates/otel-sqlite-core/src/storage/commit.rs:313-319 | Over every run the formula of the outstanding count is the number of issued unsettled tickets |
| `Guarantees.PublishedNeverOverclaims` | crates/otel-sqlite-core/src/storage/commit.rs:234-265 | Over every run: a published watermark covers only tickets settled then and in every later state, although publications may overtake one another |
| `Guarantees.ReleasedOnFinalTickets` | crates/otel-sqlite-core/src/storage/commit.rs:366-383 | Over every run: a handler released by the watermark finds all tickets of its request settled, or the pipeline closed |
| `Guarantees.CloseReleases` | crates/otel-sqlite-core/src/storage/commit.rs:286-296 | Over every run: once the writer has stopped, closing the ledger and publishing its last watermark releases every waiting handler, and all it finds is final |
| `Guarantees.FailedExactlyWhenDropped` | crates/otel-sqlite-storage/src/writer.rs:199-245 | Over every run: a settled ticket is failed exactly when one of its rows was dropped, and its progress counts its rows; a completed one has every record in the table |
| `Guarantees.EveryRecordAccounted` | crates/otel-sqlite-storage/src/batcher.rs:116-155 | Over every run, while the writer lives: every record sent is committed, dropped or travelling, and only one of them |
| `Guarantees.FlushIsABarrier` | crates/otel-sqlite-storage/src/batcher.rs:132-140 | Over every run: when a flush reaches the writer every ticket issued before it was sent is settled |
| `Guarantees.AdmissionIsSound` | crates/otel-sqlite-ingress/src/lib.rs:161-255 | Over every run: a reserved send fits, the chunks of a request are contiguous, tickets increase along the sends, requests are admitted whole, refused whole or cut short by the death of the pipeline, and accepted plus rejected is the total |
| `Guarantees.RunKeepsInv` | crates/otel-sqlite-storage/src/batcher.rs:116-155 | Every run keeps the whole invariant of the pipeline |
| `Guarantees.AnswersStay` | crates/otel-sqlite-ingress/src/logs.rs:183-245 | An answer, once given, never changes |
| `Steps.LandedIsDue` | crates/otel-sqlite-storage/src/writer.rs:199-245 | A ticket with nothing in flight is settled or about to be |
| `Guarantees.InFlightIsUnsettled` | crates/otel-sqlite-storage/src/writer.rs:199-245 | A ticket with something in flight is unsettled and has not ended |
| `Calls.CallsKept` | crates/otel-sqlite-storage/src/writer.rs:199-245 | Every action keeps this: a ticket is to be completed at most once by the calls that are left, and then it has ended and is unsettled |
| `Calls.BatchCompletes` | crates/otel-sqlite-storage/src/writer.rs:199-245 | The calls for a batch, clean or salvaged, complete a ticket as often as its segments end it |
| `Origins.OriginsKept` | crates/otel-sqlite-storage/src/origin_buffers.rs:157-212 | Every action keeps messages, buffers, batches and rows under the origin their chunk was sent with |
| `Conserving.CoreKept` | crates/otel-sqlite-storage/src/batcher.rs:116-155 | Every action keeps log plus flow equal to the chunks sent, per ticket, and the ledger in agreement with the log |
| `Conserving.SoundKept` | crates/otel-sqlite-storage/src/batcher.rs:116-155 | Every action keeps batches partitioned by their segments, queued sizes truthful and the batcher alive until drained |
| `Steps.PersistKeepsCore` | crates/otel-sqlite-storage/src/writer.rs:157-245 | Persisting a batch, clean or salvaged, moves its tokens from the flow to the log and leaves the ledger owing exactly the calls that match it |
| `Steps.SettleKeepsCore` | crates/otel-sqlite-storage/src/writer.rs:199-245 | A ledger call of the writer changes no ticket but the one it is for, and brings it closer to what the log says |
| `Steps.SendKeepsCore` | crates/otel-sqlite-ingress/src/enqueue.rs:113-118 | A successful send adds exactly its chunk to the flow |
| `Steps.RefusedKeepsCore` | crates/otel-sqlite-ingress/src/enqueue.rs:119-143 | A refused send voids its ticket, which leaves nothing but its end mark |
| `Steps.EmptyChunkKeepsCore` | crates/otel-sqlite-storage/src/batcher.rs:117-121 | An empty chunk is voided when it is ingested |
| `Steps.IngestChunkFlow` | crates/otel-sqlite-storage/src/batcher.rs:128-131 | Ingesting a chunk changes no ticket in flight |
| `Steps.BatchIsOrdered` | crates/otel-sqlite-storage/src/writer.rs:199-245 | A batch never mentions an ended ticket and never continues past an end mark |
| `Barriers.BarriersKept` | crates/otel-sqlite-storage/src/batcher.rs:132-140 | Every action keeps everything covered by a flush in front of it, in the ingest queue, the buffers and the command queue |
| `Barriers.FlushFindsEverythingSettled` | crates/otel-sqlite-storage/src/batcher.rs:132-140 | When the writer takes a flush, every ticket the flush covers is settled |
| `Publishing.MarksKept` | crates/otel-sqlite-core/src/storage/commit.rs:234-296 | Every action keeps every published or pending watermark at or below the true one, and closed only after the writer stopped |
| `Publishing.ChangesArePublished` | crates/otel-sqlite-core/src/storage/commit.rs:230-296 | Every action that moves the watermark or closes the ledger leaves exactly the new watermark to be published |
| `Readings.ReadingStays` | crates/otel-sqlite-core/src/storage/commit.rs:269-282 | No action changes what is read for a ticket that is settled or whose writer is gone |
| `Readings.CreditIsRows` | crates/otel-sqlite-ingress/src/logs.rs:209-222 | What the handler adds up for a final ticket is the number of its rows in the table |
| `Requests.RequestsKept` | crates/otel-sqlite-ingress/src/logs.rs:183-245 | Every action keeps the books of every request: its tickets, sizes and totals, and its answer as a function of the ledger |
| `Requests.AnswerStays` | crates/otel-sqlite-ingress/src/logs.rs:183-245 | No action changes an answer |
| `Requests.ReleaseIsFinal` | crates/otel-sqlite-core/src/storage/commit.rs:366-383 | A watermark that covers the last ticket covers all tickets of the request |
| `Requests.CoversIsAll` | crates/otel-sqlite-core/src/storage/commit.rs:366-383 | A handler is released if and only if the watermark covers every ticket of its request or is the closing one |
| `Table.ItemIsTruthful` | crates/otel-sqlite-storage/src/origin_buffers.rs:89-119 | A logged record carries the ticket of its own chunk and its own position |
| `Table.ItemsAreDistinct` | crates/otel-sqlite-storage/src/writer.rs:274-412 | No record is logged twice |
| `Table.PersistAddsRows` | crates/otel-sqlite-storage/src/writer.rs:274-412 | The pipeline step adds to the table exactly the rows the transaction adds |
| `Table.AllRowsMeansEachRecord` | crates/otel-sqlite-ingress/src/logs.rs:209-227 | As many rows as records means each record is there |
| `Chunks.CompleteIsLast` | crates/otel-sqlite-storage/src/origin_buffers.rs:89-119 | The segment that completes a ticket is the last one that mentions it |
| `Ledger.ApplyActsPerTicket` | crates/otel-sqlite-core/src/storage/commit.rs:190-282 | One locked section, seen from one ticket, is one step of that ticket's automaton |
| `Ledger.RunActsPerTicket` | crates/otel-sqlite-core/src/storage/commit.rs:190-282 | Whatever the order and repetition of the calls, the ledger answers for each ticket what its automaton answers |
| `Ledger.SettledOutcomeIsFinal` | crates/otel-sqlite-core/src/storage/commit.rs:230-282 | A settled outcome never changes |
| `Ledger.ProgressIsTheSum` | crates/otel-sqlite-core/src/storage/commit.rs:190-216 | Until it is settled a ticket shows the sum of all that was noted for it, in whatever order and interleaving, and the largest 64-bit number once the sum is larger |
| `Ledger.WatermarkIsCanonical` | crates/otel-sqlite-core/src/storage/commit.rs:230-265 | The watermark is the largest n with all of 1..n settled, and the parked set exactly the settled tickets beyond it |
| `Ledger.OutstandingIsExactlyPending` | crates/otel-sqlite-core/src/storage/commit.rs:313-319 | The formula is the number of issued unsettled tickets if and only if every parked ticket was issued or nothing is pending |
| `Ledger.ApplyKeepsValid` | crates/otel-sqlite-core/src/storage/commit.rs:121-123 | Every locked section keeps the representation sound and settles monotonically |
| `Ledger.Drain` | crates/otel-sqlite-core/src/storage/commit.rs:250-258 | Draining keeps which tickets are settled and leaves no parked ticket next to the watermark |
| `Ledger.CommitLedger.constructor` | crates/otel-sqlite-core/src/storage/commit.rs:148-165 | A fresh ledger |
| `Ledger.CommitLedger.Issue` | crates/otel-sqlite-core/src/storage/commit.rs:170-172 | Issues the next ticket and changes nothing else |
| `Ledger.CommitLedger.NoteCommitted` | crates/otel-sqlite-core/src/storage/commit.rs:190-202 | Adds committed records to an unsettled ticket, saturating |
| `Ledger.CommitLedger.NoteDropped` | crates/otel-sqlite-core/src/storage/commit.rs:204-216 | Adds dropped records to an unsettled ticket, saturating |
| `Ledger.CommitLedger.SettleLocked` | crates/otel-sqlite-core/src/storage/commit.rs:230-265 | Settles a ticket once, parks it or moves the watermark over it, and reports the watermark to publish |
| `Ledger.CommitLedger.DrainParked` | crates/otel-sqlite-core/src/storage/commit.rs:250-258 | The loop moves the watermark over every parked ticket that became contiguous |
| `Ledger.CommitLedger.CloseLocked` | crates/otel-sqlite-core/src/storage/commit.rs:286-296 | Sets the closed flag only |
| `Ledger.CommitLedger.StateOf` | crates/otel-sqlite-core/src/storage/commit.rs:269-282 | Reads the state of a ticket |
| `Ledger.CommitLedger.OutstandingTickets` | crates/otel-sqlite-core/src/storage/commit.rs:313-319 | With an issue counter read before the lock, the count is at most the true one and short of it by at most the tickets issued in between; the same holds against the number of issued unsettled tickets when every parked ticket was issued |
| `InsertBatching.RunConservesRecords` | crates/otel-sqlite-core/src/storage/batcher.rs:120-183 | Over any run of pushes and flushes: emitted batches followed by the buffer are the input in order, pushed batches are full, and the buffer stays below the maximum |
| `InsertBatching.EmitFullPartitions` | crates/otel-sqlite-core/src/storage/batcher.rs:120-148 | Cutting full batches off loses and reorders nothing |
| `InsertBatching.InsertBatcher.Push` | crates/otel-sqlite-core/src/storage/batcher.rs:120-148 | Emits full batches and keeps the rest, with the deadline of the oldest buffered record |
| `InsertBatching.InsertBatcher.Fill` | crates/otel-sqlite-core/src/storage/batcher.rs:173-183 | Arms the deadline exactly when the buffer was empty |
| `InsertBatching.InsertBatcher.Flush` | crates/otel-sqlite-core/src/storage/batcher.rs:150-160 | Hands over the buffer and stops the clock |
| `InsertBatching.InsertBatcher.FlushIfExpired` | crates/otel-sqlite-core/src/storage/batcher.rs:162-171 | Flushes exactly when the oldest record is past its age |
| `OriginRuns.LabelsAreFaithful` | crates/otel-sqlite-storage/src/origin_buffers.rs:157-212 | Over any run of pushes and flushes, for every origin: what leaves in batches of that origin, followed by what its buffer still holds, is what the buffer held and what was pushed to it, record by record with its ticket, in order |
| `OriginRuns.TicketsAreFaithful` | crates/otel-sqlite-storage/src/origin_buffers.rs:157-212 | The same per ticket, over all origins together, where the ticket names one chunk |
| `OriginRuns.DrainedTicketIsWhole` | crates/otel-sqlite-storage/src/origin_buffers.rs:157-212 | Once nothing of a ticket is buffered, its segments spell out its chunk and complete it once, at the end |
| `OriginBatching.PushKeepsEachTicket` | crates/otel-sqlite-storage/src/origin_buffers.rs:157-187 | A push moves its chunk behind everything of its own ticket and changes no other |
| `OriginBatching.FlushKeepsEachTicket` | crates/otel-sqlite-storage/src/origin_buffers.rs:189-212 | A flush of some buffers changes the order of no ticket |
| `OriginBatching.ConsumeTokens` | crates/otel-sqlite-storage/src/origin_buffers.rs:89-119 | The segments taken, followed by what is left, label every record with its own chunk |
| `OriginBatching.PushKeepsValid` | crates/otel-sqlite-storage/src/origin_buffers.rs:157-187 | A push keeps every buffer aligned with its segments and every batch partitioned by its own |
| `OriginBatching.FlushKeepsValid` | crates/otel-sqlite-storage/src/origin_buffers.rs:195-212 | A flush keeps buffers and batches sound, and a forced one leaves no buffer |
| `OriginBatching.DeadlineIsTheAccumulators` | crates/otel-sqlite-storage/src/origin_buffers.rs:157-187 | A push leaves the buffer of an origin with the deadline its accumulator keeps: that of the oldest record it holds |
| `OriginBatching.ConsumeSegments` | crates/otel-sqlite-storage/src/origin_buffers.rs:89-119 | The loop never runs out of segments and hands out exactly the records asked for |
| `OriginBatching.OriginBuffers.Push` | crates/otel-sqlite-storage/src/origin_buffers.rs:157-187 | The new buffers and the emitted batches are those of the specification |
| `OriginBatching.OriginBuffers.FlushWith` | crates/otel-sqlite-storage/src/origin_buffers.rs:189-212 | The kept buffers and the emitted batches are those of the specification; on a timer a buffer stays if and only if its deadline has not come |
| `OriginBatching.FlushList` | crates/otel-sqlite-storage/src/origin_buffers.rs:199-212 | The loop over the buffers sends off those that are due, keeps the order of the others and drops empty ones |
| `OriginBatching.FlushByDeadline` | crates/otel-sqlite-storage/src/origin_buffers.rs:189-212 | On a timer a buffer stays, as it is, if and only if it has no deadline or its deadline is still to come |
| `OriginBatching.OriginBuffers.Deadline` | crates/otel-sqlite-storage/src/origin_buffers.rs:136-141 | The loop finds the smallest deadline of the buffers |
| `OriginBatching.WakesInTime` | crates/otel-sqlite-storage/src/batcher.rs:101-107 | At an instant a timer has something to send if and only if the smallest deadline has come |
| `Ages.TimerIsExact` | crates/otel-sqlite-storage/src/origin_buffers.rs:189-212 | After any run of pushes and flushes, with the instants at which the buffered records entered: a timer sends off the buffer of an origin, and then whole, if and only if its oldest record is past its age |
| `Ages.NothingOverstays` | crates/otel-sqlite-storage/src/origin_buffers.rs:189-212 | On a clock that never goes back: after a timer no buffered record is past its age, and a buffer it sent off had kept its oldest record for all of it |
| `BatcherRuns.BuffersAreRun` | crates/otel-sqlite-storage/src/batcher.rs:116-155 | Over every run of the pipeline the buffers are those of the run of pushes and flushes the batcher made |
| `BatcherRuns.TimersSendByAge` | crates/otel-sqlite-storage/src/batcher.rs:141-152 | Over every run of the pipeline a timer sends off the buffer of an origin, whole, if and only if its oldest record is past its age |
| `OriginBatching.OriginBuffers.Submit` | crates/otel-sqlite-storage/src/origin_buffers.rs:166-186 | Labels each full batch of a buffer in turn |
| `Batcher.BatcherDriver.OnChunk` | crates/otel-sqlite-storage/src/batcher.rs:116-131 | Handling a chunk is one ingest step of the pipeline; the commands that fit are submitted in order |
| `Batcher.BatcherDriver.OnFlush` | crates/otel-sqlite-storage/src/batcher.rs:132-140 | Handling a flush is one ingest step: the partial batches first, then the barrier, unless the writer is gone |
| `Batcher.BatcherDriver.OnTimer` | crates/otel-sqlite-storage/src/batcher.rs:141-152 | Handling the timer is one flush step of the pipeline, and exactly the buffers whose deadline has come leave |
| `Batcher.BatcherDriver.OnExit` | crates/otel-sqlite-storage/src/batcher.rs:157-182 | With the writer there the exit is a flush step of every buffer and leaves none; otherwise, or if the writer disappears on the way, the ledger is closed, and what is still buffered is abandoned and counted |
| `Writer.InsertLogs` | crates/otel-sqlite-storage/src/command/logs.rs:62-158 | A pass goes through if and only if the resource is found and every row is fine, poison being fine for the tolerant pass; otherwise it fails with the class of the first bad stage; what goes through are the healthy rows, counted kept and dropped, in all and per ticket |
| `Writer.Database.RunTransaction` | crates/otel-sqlite-storage/src/writer.rs:317-365 | A strict transaction succeeds if and only if it starts, finds its resource, every row goes in and it commits; it then adds every row once, under the origin of the batch, and otherwise nothing and fails with the class of its first failing stage |
| `Writer.Database.FinishSalvage` | crates/otel-sqlite-storage/src/writer.rs:367-412 | A salvage succeeds if and only if its transaction starts, finds its resource, every row goes in or is poison and it commits; it then adds exactly the rows that are not poison and accounts for all, per ticket and summing to the batch; otherwise it adds nothing and fails with the class of its first failing stage |
| `Writer.Database.PersistWithPolicy` | crates/otel-sqlite-storage/src/writer.rs:274-315 | Every attempt but the last fails transiently; the batch is clean if and only if the last attempt succeeds, salvaged if and only if that meets poison and the salvage succeeds, and given up on a fatal failure, on a transient one after five attempts, or with the class of the failed salvage; it reaches the table at most once, and the pauses add up to 250 ms times 2^retries - 1 |
| `Writer.OneFate` | crates/otel-sqlite-storage/src/writer.rs:317-365 | A transaction cannot both succeed and fail, nor fail in two ways |
| `Writer.BackoffDoubles` | crates/otel-sqlite-storage/src/writer.rs:250-258 | The pause before a retry doubles from 250 ms up to 4 s |
| `Settlement.BatchSettles` | crates/otel-sqlite-storage/src/writer.rs:199-245 | The ledger calls for a batch take every ticket to where the fates of its rows put it |
| `Settlement.SettleLogBatch` | crates/otel-sqlite-storage/src/writer.rs:199-245 | The loops make the ledger calls of the specification |
| `Settlement.ExecuteInsert` | crates/otel-sqlite-storage/src/writer.rs:149-175 | Persists under the policy of retries and salvage, then settles what was persisted: all rows of a clean batch, and of a salvaged one exactly those the salvage did not find to be poison, with a report that sums to the batch; a fatal failure leaves table and ledger as they were; a slot that showed the watermark still shows it |
| `Handler.Finish` | crates/otel-sqlite-ingress/src/logs.rs:183-245 | The loop derives the answer from the ledger states of the request's tickets: success if and only if every record is credited, UNAVAILABLE if and only if none is and no ticket failed, and otherwise the number of the others |
| `Admission.Enqueue` | crates/otel-sqlite-ingress/src/enqueue.rs:61-161 | Oversized and queue-full requests touch nothing; otherwise consecutive tickets are sent in order until the receiver disappears, the branch for a full queue is dead, and the outcome balances; queue, ledger and request are those of the pipeline after reserving and the hand-off |
| `Admission.HandOff` | crates/otel-sqlite-ingress/src/enqueue.rs:104-150 | The loop stamps and sends chunk after chunk until the receiver disappears; queue, messages sent, ledger and outcome are those of the specification for the number of chunks delivered |
| `Admission.HandedOffIs` | crates/otel-sqlite-ingress/src/enqueue.rs:104-161 | In the pipeline, an issuing and a sending step per chunk and leaving the gate end in the queue, ledger and outcome of the loop |
| `Admission.FinalOutcomeIs` | crates/otel-sqlite-ingress/src/enqueue.rs:104-161 | The outcome of a hand-off accepts the first chunks under consecutive tickets, rejects the rest, says whether the pipeline was gone, and balances |
| `Admission.SendNext` | crates/otel-sqlite-ingress/src/enqueue.rs:104-144 | One chunk is stamped and sent, or its ticket voided; from every pipeline state with this queue, ledger and outcome the issuing and the sending step end in the same queue, ledger and outcome |
| `Admission.IngestSender.TrySend` | crates/otel-sqlite-ingress/src/lib.rs:249-255 | Delivers at the end of the queue, or tells why not and changes nothing |
| `Admission.ReservedSendFits` | crates/otel-sqlite-ingress/src/lib.rs:161-176 | A send under a reservation finds room |
| `Admission.RoomKept` | crates/otel-sqlite-ingress/src/lib.rs:161-176 | Every action leaves the gate holder a slot for each chunk it has not sent |
| `Admission.SendsKept` | crates/otel-sqlite-ingress/src/lib.rs:161-255 | Every action keeps the chunks of a request contiguous and tickets increasing along the sends |
| `Admission.OwnKept` | crates/otel-sqlite-ingress/src/enqueue.rs:104-150 | Every action keeps the tickets of every outcome, finished or under way, equal to the tickets that very request sent, in order |
| `Admission.TicketsAreOwn` | crates/otel-sqlite-ingress/src/enqueue.rs:104-150 | Where tickets increase along the sends, a ticket belongs to one request |
| `Admission.WholenessKept` | crates/otel-sqlite-ingress/src/enqueue.rs:61-161 | Every action keeps requests admitted whole, refused whole, or cut short by a dead pipeline |
| `Values.CheckAnyValue` | crates/otel-sqlite-ingress/src/mapping/common.rs:196-263 | The explicit-stack loop accepts exactly the values within the recursive depth and size limits, and terminates |
| `Values.ConvertsWithinDepth` | crates/otel-sqlite-ingress/src/mapping/common.rs:95-153 | Conversion fails exactly when a container is nested too deep |
| `Values.ConvertKeepsMeaning` | crates/otel-sqlite-ingress/src/mapping/common.rs:95-153 | Converting and reading back gives the value, with string-table references and missing values empty |
| `Values.AnyValueSize` | crates/otel-sqlite-ingress/src/mapping/common.rs:285-317 | The stack loop with saturating sums gives the true size, capped |
| `Mapping.ScopeMetadataBytes` | crates/otel-sqlite-ingress/src/mapping/common.rs:321-347 | The saturating sums give the true metadata size, capped |
| `Mapping.BudgetIsExact` | crates/otel-sqlite-ingress/src/mapping/common.rs:355-372 | Rejects if and only if true size times members exceeds the budget, except a lone member under the maximal budget |
| `Mapping.CheckAttributes` | crates/otel-sqlite-ingress/src/mapping/common.rs:169-194 | Accepts exactly the lists within count, key and value limits |
| `Mapping.CheckBody` | crates/otel-sqlite-ingress/src/mapping/logs.rs:266-293 | Accepts exactly the bodies within the body or attribute limits |
| `Mapping.ValidateRequest` | crates/otel-sqlite-ingress/src/mapping/logs.rs:227-264 | Accepts exactly the requests within all limits |
| `Measures.ValidMeansAllowed` | crates/otel-sqlite-ingress/src/mapping/logs.rs:227-264 | A request is valid if and only if every single measure in it (a count, a key, a string, a nesting level, at any depth) is within its own limit and every scope is within the budget |
| `Measures.FitsMeansAllowed` | crates/otel-sqlite-ingress/src/mapping/common.rs:196-263 | A value fits if and only if every measure in it is within its own limit |
| `Measures.ScopeSizeGrows` | crates/otel-sqlite-ingress/src/mapping/common.rs:321-347 | The size of scope metadata grows byte by byte with its name, version, schema URL and each attribute |
| `Measures.SizeGrows` | crates/otel-sqlite-ingress/src/mapping/common.rs:285-317 | The size of a value grows with every payload byte and every nested value |
| `Mapping.TryConvertBatch` | crates/otel-sqlite-ingress/src/mapping/logs.rs:27-81 | The loops build the chunk of the specification or fail |
| `Mapping.MapChunks` | crates/otel-sqlite-ingress/src/mapping/logs.rs:104-116 | One chunk per group with records, or failure |
| `Mapping.MappingSucceeds` | crates/otel-sqlite-ingress/src/mapping/logs.rs:27-116 | Mapping succeeds if and only if nothing is nested too deep |
| `Mapping.MappingKeepsOrder` | crates/otel-sqlite-ingress/src/mapping/logs.rs:104-116 | No chunk is empty, and the k-th record of the chunks is the conversion of the k-th record sent, under its own scope and with the origin of its own group |
| `Mapping.ValidatedRequestMaps` | crates/otel-sqlite-ingress/src/mapping/logs.rs:227-264 | Every validated request maps, into chunks whose k-th record is the conversion of the k-th record sent and means the same, and whose sizes sum to its count |
| `Mapping.MappedRecordsMean` | crates/otel-sqlite-ingress/src/mapping/logs.rs:27-116 | Everything stored for a record, read back, means what was sent: its fields, attributes and body, its scope and its resource |
| `Mapping.BodiesMayBeOneDeeper` | crates/otel-sqlite-ingress/src/mapping/logs.rs:189-221 | For every body: it maps if and only if it is at most 33 containers high, and its nesting passes validation if and only if it is at most 32 high |
| `Mapping.DeepestBody` | crates/otel-sqlite-ingress/src/mapping/logs.rs:189-221 | A body of 33 nested arrays maps and is refused by the validator, whatever the limits |
| `Attributes.EncodingIsLastWins` | crates/otel-sqlite-core/src/model/attribute.rs:126-141 | The encoded members are the last-wins map in strictly ascending key order, and agree with lookup by key |
| `Attributes.EncodingIsCanonical` | crates/otel-sqlite-core/src/model/attribute.rs:110-168 | A document is the encoding of a value if and only if it denotes it: numbers, booleans and strings as they are, non-finite numbers as null, bytes as a string that decodes to them, lists item by item, and objects with the last value of every key in strictly ascending order |
| `Attributes.EncodeAlike` | crates/otel-sqlite-core/src/model/attribute.rs:126-141 | Two lists encode alike if and only if every key's last value does |
| `Attributes.ReorderingIsInvisible` | crates/otel-sqlite-core/src/model/attribute.rs:110-144 | Reordering that keeps equal keys in order changes nothing, at any nesting level |
| `Attributes.SortedIsUnique` | crates/otel-sqlite-core/src/model/attribute.rs:127-128 | Whatever algorithm sorts the indices, the order is the same |
| `Attributes.EmittedIsGot` | crates/otel-sqlite-core/src/model/resource.rs:18-24 | What the walk emits for a key is what lookup by key finds |
| `Attributes.SerializeMembers` | crates/otel-sqlite-core/src/model/attribute.rs:250-267 | The loop skips every entry that another one with its key follows |
| `Attributes.WriteAttributesJson` | crates/otel-sqlite-core/src/model/attribute.rs:200-210 | The flat encoder encodes the list up to its length modulo 2^32: the document denotes that part, agrees with the nested one if and only if every key has an equally encoded last value there, and always does below 2^32 entries |
| `Attributes.LongListIsLost` | crates/otel-sqlite-core/src/model/attribute.rs:200-210 | A list of 2^32 entries, or any multiple, has an empty flat document and a nested one that is not |
| `Attributes.HexIsInjective` | crates/otel-sqlite-core/src/model/attribute.rs:160-168 | Different byte strings have different renderings |
| `Attributes.HexReadsBack` | crates/otel-sqlite-core/src/model/attribute.rs:160-168 | Decoding the two lower-case digits of every byte gives the bytes back |
| `Calendar.CivilIsStepped` | crates/otel-sqlite-storage/src/backup.rs:910-930 | The formula is the calendar stepped one day at a time, and always a valid date |
| `Calendar.DayCountInverts` | crates/otel-sqlite-storage/src/backup.rs:910-930 | Counting the days up to the date gives the number it was computed from |
| `Calendar.CivilSteps` | crates/otel-sqlite-storage/src/backup.rs:910-930 | One more day is the next date |
| `Timestamps.NamesSortByTime` | crates/otel-sqlite-storage/src/backup.rs:906-930 | For every bound: all names given before it sort exactly by time if and only if it is at most 253402300800 |
| `Timestamps.ShortYears` | crates/otel-sqlite-storage/src/backup.rs:906-930 | The year has at most four digits if and only if the second is before 253402300800 |
| `Timestamps.FiveDigitYearsSortFirst` | crates/otel-sqlite-storage/src/backup.rs:929-930 | The failing pair: the first second of the year 10000 sorts before the one it follows |
| `Timestamps.NameReadsBack` | crates/otel-sqlite-storage/src/backup.rs:906-930 | Reading the digits of a name back, by counting days from the calendar, gives the second it was made for, in any year |
| `Backup.EncryptFile` | crates/otel-sqlite-storage/src/backup.rs:680-709 | Writes header and frames, and fails if and only if there are 2^32 frames or more |
| `Backup.DecryptBody` | crates/otel-sqlite-storage/src/backup.rs:817-869 | The loop decodes frame by frame as specified |
| `Backup.DecryptTo` | crates/otel-sqlite-storage/src/backup.rs:733-760 | The header selects the body format, anything else is refused |
| `Backup.ContainerRoundTrips` | crates/otel-sqlite-storage/src/backup.rs:680-709 | For every split of the input into reads, decoding gives back the input |
| `Backup.OnlyPrefixesDecode` | crates/otel-sqlite-storage/src/backup.rs:831-869 | A sequence of frames of one encryption decodes if and only if it is a prefix in order |
| `Backup.DecodeFrame` | crates/otel-sqlite-storage/src/backup.rs:848-866 | A frame is accepted exactly at the position it was written for |
| `Backup.FramedDecodes` | crates/otel-sqlite-storage/src/backup.rs:831-869 | A body of frames with lengths in range that open in order decodes to what they open to |
| `Backup.OnlyFramedDecodes` | crates/otel-sqlite-storage/src/backup.rs:831-869 | Nothing else decodes |
| `Backup.NoncesDiffer` | crates/otel-sqlite-storage/src/backup.rs:650-654 | Two frames have the same nonce if and only if they have the same number and the bases of their files agree on the first eight bytes |
| `Backup.NonceKeepsBase` | crates/otel-sqlite-storage/src/backup.rs:650-654 | A nonce holds the first eight bytes of the base and the number of its frame |
| `Backup.BytesOrderNumbers` | crates/otel-sqlite-storage/src/backup.rs:650-654 | Lengths and frame numbers are big-endian: their bytes are ordered like the numbers |
| `Scheduler.RunsKeepDistance` | crates/otel-sqlite-runtime/src/scheduler.rs:115-128 | Over any run of ticks: successes of one operation are at least its interval apart, retries at least the floored delay |
| `Scheduler.RefusedIsNeverLost` | crates/otel-sqlite-runtime/src/scheduler.rs:124-128 | Over any run a refused operation stays scheduled and the next tick that reaches it attempts it |
| `Scheduler.DeadlinesAreLater` | crates/otel-sqlite-runtime/src/scheduler.rs:160-244 | After a connected tick every next deadline is strictly later |
| `Scheduler.StartsAsConfigured` | crates/otel-sqlite-runtime/src/scheduler.rs:136-150 | Every operation has one task; a task is scheduled exactly when its interval is set and not zero, and for a purge only with retention; it is first due one interval after the start where that is representable, and later than the start whenever a later instant exists; the retry delay is the configured one or the floor, whichever is longer |
| `Scheduler.MaintenanceScheduler.RunTick` | crates/otel-sqlite-runtime/src/scheduler.rs:161-237 | The loop attempts the due tasks in order until the queue is gone, and reports the counts |
| `Scheduler.TickIsRight` | crates/otel-sqlite-runtime/src/scheduler.rs:161-237 | Every due task before the first one that finds the queue closed is attempted once, in order, and rescheduled or deferred, all others stay as they are, and a closed queue is reported |
| `Scheduler.MaintenanceScheduler.NextDeadline` | crates/otel-sqlite-runtime/src/scheduler.rs:242-244 | The earliest next deadline |
| `Clock.SaturatingDeadline` | crates/otel-sqlite-core/src/time.rs:22-31 | Exact when representable, otherwise at least half of the remaining range |
| `Clock.ComputeDeadline` | crates/otel-sqlite-core/src/time.rs:22-31 | The halving loop computes it |
| `Clock.ReachesHorizon` | crates/otel-sqlite-core/src/time.rs:18-31 | The last representable instant is reached if and only if the remaining range, in binary, is a prefix of the duration |
| `Clock.HorizonCanBeMissed` | crates/otel-sqlite-core/src/time.rs:18-31 | On a clock of signed 64-bit seconds, in the first half of its range and except from its very first instant, the longest duration ends half of the range away |
| `Maintenance.EventStore.Prune` | crates/otel-sqlite-storage/src/maintenance.rs:142-176 | For any rows the limited deletes choose: what is left is exactly the rows at or after the cutoff, the count is exact, and resources are swept only when an event went; an error comes if and only if a round that is reached fails or a needed sweep does, and then part of the expired rows is gone, nothing else, and the store is consistent |
| `Maintenance.EventStore.PruneAll` | crates/otel-sqlite-storage/src/maintenance.rs:152-166 | The loop ends with no expired row left, counted exactly, or with an error, if and only if a round that is reached fails, and only expired rows gone |
| `Maintenance.EventStore.EvictOldest` | crates/otel-sqlite-storage/src/maintenance.rs:357-368 | One batch of oldest rows, any choice among equals |
| `Maintenance.EventStore.EnforceQuota` | crates/otel-sqlite-storage/src/maintenance.rs:260-316 | The rows that go are one batch for each round whose delete ran, or all; the rounds end for a reason that is read off the disk (the first checkpoint, the conversion, under quota, eight rounds, nothing left, a failed delete, checkpoint or vacuum) and only for it; an error is reported if and only if it is a failed conversion, delete or vacuum, or a needed sweep fails; no evicted row is newer than a survivor, and resources are swept unless an error came first |
| `Maintenance.QuotaIsEnforced` | crates/otel-sqlite-storage/src/maintenance.rs:260-316 | When nothing goes wrong, a batch goes for each time the file is over quota, until it is not, eight rounds ran or no row is left |
| `Maintenance.EventStore.RebuildFts` | crates/otel-sqlite-storage/src/maintenance.rs:207-235 | Repairs any index and leaves a sound one as it was |
| `Maintenance.RunsStayConsistent` | crates/otel-sqlite-storage/src/maintenance.rs:29-45 | Every run of inserts, deletes, sweeps and rebuilds keeps one up-to-date search entry per event and no event without its resource |
| `Maintenance.SweepKeepsConsistent` | crates/otel-sqlite-storage/src/maintenance.rs:185-196 | A sweep leaves exactly the resources events refer to |
| `Maintenance.CutoffIsExact` | crates/otel-sqlite-storage/src/maintenance.rs:178-180 | The saturated cutoff is exact if and only if the window fits i64 or the clock is before the epoch |

## Left out

- gRPC, TLS, health service, signals, metrics and tracing: transport and observability around the pipeline.
- Real SQLite files, WAL, pragmas and VACUUM: only atomic transactions, a failure class per row, and arbitrary size and checkpoint answers are kept.
- Panics, poisoned locks, unwinding and fault injection; in particular a writer that stops between two ledger calls of one batch, and a batcher that closes the ledger while the writer still runs.
- Fairness and wake-up of waiting handlers: waiting is a step that may happen once its condition is observed. That the
  pipeline can always settle every ticket is proved (`Draining.NothingIsStuck`), that threads get their turn is not.
- `CommitLedger::wait` and `committed`: only `wait_watermark`, which the export handler uses, is modelled.
- The order of batches of different origins: on a timer those past their age leave in list order, not in order of their deadlines.
- Batches without segments and ticket zero: used outside the pipeline only.
- The other fields of a record (ids, times, severity, flags) are carried through the mapping unchanged under one name; the total functions that clean them are not modelled.
- JSON text, SHA-256 and AES-GCM: documents are trees, and the cipher is an ideal one given as a parameter (`Backup.IdealCiphersExist` shows the assumption can be met).
- Values of floating-point numbers beyond finite or not.
- Sums of record counts over a request are unbounded where the program uses 64 bits; a single chunk holds fewer than 2^64 - 1 records.
- The ticket counter is unbounded where the program uses 64 bits.
- Token vault, certificates, configuration, migrations, watchdog and the command line: file handling and decision tables.
- Admission.IngestSender.TrySend: the bounded channel is one object; blocking control sends with retries appear only as the step that sends a flush when there is room.
- Admission.HandOff: of the steps others take between two sends, only messages leaving the queue and the end of the batcher are modelled; the ledger calls of others in between are not.
- Scheduler.MaintenanceScheduler.RunTick: the contents of the commands it sends are not modelled.

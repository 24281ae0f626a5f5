# Orpal, modelled and proved in Dafny

Orpal is a peer-to-peer messenger made of small event-driven protocols. This project models the hard ones
and proves what they promise over whole runs.

The TypeScript has no threads: each `await` is the only place where two activities interleave. So the model
has three layers.

- A **state machine** per component: a datatype for the state, an event for every stretch of code between
  two awaits (a call, a resumption of a suspended call, a timer, a frame, a crash), and a total `Step`. The
  environment chooses the events, so a lemma about `Run` holds for every interleaving, loss, repetition and
  reordering.
- A **class** per TypeScript class, with its fields and loops. Each method is the code up to the next await,
  and its postcondition is that the object's view moves by exactly that `Step`.
- **Lemmas** about runs: invariants, conservation, round trips, and exact conditions where a natural claim
  fails.

Cryptography is symbolic. A signature names its key and its preimage, a sealed box the key that opens it, a
channel key is a free function of the Diffie-Hellman secret, salt and label, and fresh ids, nonces and keys
are distinct. The canonical printer and its parser, by contrast, work on actual UTF-16 code units and bytes,
with numbers and strings written as JSON.stringify writes them; compare section 3.2 of RFC 8785.

| files | component |
|---|---|
| `DeliveryWorker`, `DeliveryOverlap`, `DeliverySystem`, `DeliveryProgress`, `SharedIds` | durable queue, retries, overlapping attempts, end-to-end safety and progress, ids that others know |
| `Chunks`, `FileSender`, `FileReceiver`, `FileReceiverProofs`, `TransferProgress`, `OfferGuard` | chunked file transfer, and the client's guard in front of it |
| `MessageLayer`, `MatchSessions`, `SessionEnds`, `Handshake` | two-stage match handshake and channel keys |
| `ReliableChannels` | per-message receipts and timeouts |
| `NumberText`, `StringText`, `Utf8Text`, `TextOrder`, `Canonical`, `JsonReader` | canonical JSON |
| `Signing`, `SignedRecords` | signed records and their kinds |
| `Migrations`, `KeyHandover`, `Challenges`, `ChallengedMigrations` | identity migration |
| `Upserts`, `Contacts`, `AddressBooks`, `Backups` | contacts, registry, backup and restore |
| `Connections`, `BoardConnections`, `FakeClocks` | connection bookkeeping, board socket, timer clock |

## Where the code does less than one would expect

Each item is a lemma with a run that fails, and a lemma that says exactly when.

- `FileReceiver.complete` looks the file up again by id (file-transfer.ts:322-325), so a suspended duplicate
  write of a finished transfer can finalize a re-offered file of the same id (`ReofferedTooEarly`,
  `ReofferIsSafeIff`). The client drops offers of stored ids, but its look-up is answered before the message is
  stored (orpal-client.ts:1135-1137, 1074), so two copies of one offer can get past it (`GuardCanFail`,
  `RunIsSafeIff`, `ResumingIsSafeIff`); looking again when the look-up resumes would be enough
  (`CurrentAnswersSuffice`).
- The in-flight set of the delivery worker does not prevent two overlapping attempts for one id
  (delivery-worker.ts:199-203), although its comment says so (`OverlapHappens`, `AttemptsNeverOverlapIff`,
  `CheckFailsIff`). The delivery results hold regardless.
- A message can be lost when another party uses its id. An awk's sender is not compared with the message's
  recipient (orpal-client.ts:1111-1112), and the recipient's store knows a row by its id alone, whoever sent it
  (orpal-client.ts:1106, conversation-store.ts:124-136), so with another party's text or file under the id the
  recipient itself acknowledges a message it does not hold, or loses the one it held. Comparing senders is not
  enough (`RecipientsOwnAwkLoses`); the exact conditions are `StepDoomsIff`, `AwkMisleadsIff`, `SafeForGoodIff`.
- `retire` (migration-manager.ts:266-279) can be interrupted so that no operation of the manager ever ends the
  migration (`CrashSticksIff`, `StuckForever`); a restore can (`RestoreEndsStuckIff`). With a completed state it
  promotes keys no migration announced (`UnannouncedKeysCanBePromoted`, `RetirePromotesAnnouncedIff`).
- A restore never clears the pending key slot, so a restored migration may be given other keys than its own
  (`RestoredMigrationIsPickedUpIff`), and an imported identity may overwrite the only copy of a migration's new
  keys (`ImportKeepsKeysIff`).
- Declining a migration keeps its challenges alive, so a passed set may accept another one
  (`AnotherIsAccepted`, `AcceptsTheChallengedIff`).
- A session can report its channel twice, and a closed one can go on (`ConnectedTwice`, `ClosedIsOverwritten`,
  `FinalIff`).
- A board that repeats a match key can leave two endpoints of a contact open (`RepeatedMatchLeavesTwo`): a
  connection of the same match key is taken for the same one and replaced without being closed. That branch
  decides it (`OnlyRegisteredOpenIff`, `AtMostOneOpenIff`, `CanDoubleIff`).
- `currentKey` need not be idempotent (`CircleIsNotIdempotent`, `IdempotentIff`).
- Equal transport keys at both ends give channel keys that do not mirror (`MirroredIffDistinct`).

## Model

| member | source | states |
|---|---|---|
| `DeliveryWorker.NeverStranded` | packages/orpal-core/src/messaging/delivery-worker.ts:98-227 | after any events, each queued id of a running worker has an armed timer or a suspended call that will arm one, attempt it or remove it; timer entries and armed timers match one to one |
| `DeliveryWorker.StepKeeps` | packages/orpal-core/src/messaging/delivery-worker.ts:98-227 | every stretch between two awaits, in any interleaving, keeps the coverage invariant |
| `DeliveryWorker.WorkerObject.Start` | packages/orpal-core/src/messaging/delivery-worker.ts:98-101 | start up to the listing: only a stopped worker begins |
| `DeliveryWorker.WorkerObject.StartListed` | packages/orpal-core/src/messaging/delivery-worker.ts:102-105 | start after the listing: every listed message gets an immediate timer, replacing an older one |
| `DeliveryWorker.WorkerObject.Stop` | packages/orpal-core/src/messaging/delivery-worker.ts:107-111 | no timer is left armed or recorded |
| `DeliveryWorker.WorkerObject.Enqueue` | packages/orpal-core/src/messaging/delivery-worker.ts:114-115 | the write of the message is under way |
| `DeliveryWorker.WorkerObject.Enqueued` | packages/orpal-core/src/messaging/delivery-worker.ts:115-117 | after the write and the metrics, the message is attempted if running |
| `DeliveryWorker.WorkerObject.Flush` | packages/orpal-core/src/messaging/delivery-worker.ts:124-136 | flushRecipient and flushAll up to the listing |
| `DeliveryWorker.WorkerObject.FlushListed` | packages/orpal-core/src/messaging/delivery-worker.ts:127-135 | each listed message, of the recipient or of all, is attempted |
| `DeliveryWorker.WorkerObject.Acknowledge` | packages/orpal-core/src/messaging/delivery-worker.ts:142-143 | acknowledge up to its look-up |
| `DeliveryWorker.WorkerObject.AckGot` | packages/orpal-core/src/messaging/delivery-worker.ts:143-146 | a message still queued loses its timer and its removal begins; one that is gone changes nothing |
| `DeliveryWorker.WorkerObject.CancelTimer` | packages/orpal-core/src/messaging/delivery-worker.ts:158-164 | the timer is cleared and forgotten |
| `DeliveryWorker.WorkerObject.ScheduleSoon` | packages/orpal-core/src/messaging/delivery-worker.ts:167-174 | exactly one timer for the id, newly armed |
| `DeliveryWorker.WorkerObject.ScheduleBackoff` | packages/orpal-core/src/messaging/delivery-worker.ts:185-194 | re-arms only while running |
| `DeliveryWorker.WorkerObject.RunAttempt` | packages/orpal-core/src/messaging/delivery-worker.ts:197-200 | an id with an attempt in flight is not attempted |
| `DeliveryWorker.WorkerObject.RunGot` | packages/orpal-core/src/messaging/delivery-worker.ts:200-207 | a message gone meanwhile is dropped; otherwise its timer is cancelled and the attempt marked |
| `DeliveryWorker.WorkerObject.AttemptSettled` | packages/orpal-core/src/messaging/delivery-worker.ts:207-216 | the mark is lifted however the attempt ended |
| `DeliveryWorker.WorkerObject.AfterGot` | packages/orpal-core/src/messaging/delivery-worker.ts:216-219 | an acknowledged message is not resurrected; otherwise its attempt is recorded |
| `DeliveryWorker.WorkerObject.TimerFired` | packages/orpal-core/src/messaging/delivery-worker.ts:169-172 | the fired timer forgets itself and attempts |
| `DeliveryWorker.PendingQueueStore.Put` | packages/orpal-core/src/messaging/pending-queue.ts:113-115 | insert or replace by id |
| `DeliveryWorker.PendingQueueStore.Update` | packages/orpal-core/src/messaging/pending-queue.ts:116-119 | changes the retry fields of one row; nothing when the row is gone |
| `DeliveryWorker.PendingQueueStore.Remove` | packages/orpal-core/src/messaging/pending-queue.ts:120-122 | removes exactly one id |
| `DeliveryWorker.FlushAttempts` | packages/orpal-core/src/messaging/delivery-worker.ts:124-136 | a flush after its listing: while running, exactly the listed messages of the recipient, or all for flushAll, are attempted or have an attempt under way; nothing else begins |
| `DeliveryWorker.FlushReaches` | packages/orpal-core/src/messaging/delivery-worker.ts:124-136 | from the call of a flush, every message queued for the recipient is attempted or under way when it returns |
| `DeliveryWorker.EnqueueQueues` | packages/orpal-core/src/messaging/delivery-worker.ts:114-117 | a message handed over is in the queue once written, and attempted next while running |
| `DeliveryWorker.StartArmsAll` | packages/orpal-core/src/messaging/delivery-worker.ts:98-105 | starting makes the worker run and arms a timer for every row; when running it changes nothing |
| `DeliveryWorker.StoppedBeginsNone` | packages/orpal-core/src/messaging/delivery-worker.ts:107-200 | after a stop no event begins an attempt until the worker is started |
| `DeliveryWorker.StopDisarms` | packages/orpal-core/src/messaging/delivery-worker.ts:107-111 | stopping leaves no timer, and rows and calls as they are |
| `DeliveryWorker.BackoffIff` | packages/orpal-core/src/messaging/delivery-worker.ts:124-194 | after an attempt its message gets a new timer exactly while the worker runs, and a stopped worker lists nothing for a flush |
| `DeliveryWorker.AttemptIsRecorded` | packages/orpal-core/src/messaging/delivery-worker.ts:216-222 | an attempt that is over is recorded in its row if that is still there: one more than the row had, and the time |
| `DeliverySystem.QueuedOrStored` | packages/orpal-core/src/messaging/delivery-worker.ts:114-227 | with any number of contacts, drops, duplicates, reordering, overlapping attempts, crashes, failing stores and other parties that name ids, each message to an honest contact whose queue write completed is still queued as sent, or stored by that contact as one row with its original content, as long as no event breaks its own id: another party's row stored under it at its recipient, or an awk not its recipient's taken for it before it is stored |
| `DeliverySystem.SentIsQueued` | packages/orpal-core/src/messaging/delivery-worker.ts:114-117 | a message that is sent is in the queue, as sent, once its write has run |
| `DeliverySystem.OnlyAsSent` | packages/orpal-core/src/messaging/orpal-client.ts:1105-1110 | in every run, whatever other parties do, an honest contact stores as the sender's only what was sent to it, with its original content |
| `DeliverySystem.StepAuthentic` | packages/orpal-core/src/messaging/orpal-client.ts:1103-1115 | no event changes the content of the sender's rows, suspended calls and texts, and an honest contact's awks are for what was sent to it |
| `DeliverySystem.HistoryIsFixed` | packages/orpal-core/src/messaging/delivery-worker.ts:114-227 | no later event changes what an id was sent with or forgets a completed write |
| `DeliverySystem.StepKept` | packages/orpal-core/src/messaging/orpal-client.ts:864-874 | one step of sender, link, recipient or another party that does not break the id keeps the message from being lost, and a stored message stored |
| `DeliverySystem.PeerStoreClear` | packages/orpal-core/src/messaging/orpal-client.ts:1106-1107 | the recipient's look-up and append keep it, however frames overlap, unless another party's row is appended under the id |
| `DeliverySystem.RunKept` | packages/orpal-core/src/messaging/orpal-client.ts:1103-1115 | every run keeps it |
| `SharedIds.StepDoomsIff` | packages/orpal-core/src/messaging/orpal-client.ts:1105-1115 | for a message whose queue write completed: after an event it can be lost, however careful everyone is from then on, if and only if the event stored another party's row under its id at its recipient, or took an awk for it that is not its recipient's before it was stored |
| `SharedIds.NeverDoomedIff` | packages/orpal-core/src/messaging/orpal-client.ts:1103-1139 | the same for every run |
| `SharedIds.AwkMisleadsIff` | packages/orpal-core/src/messaging/orpal-client.ts:1111-1115 | in some continuation that does not break the id an awk of this contact can be taken for the message before it is stored, if and only if the contact is not honest and the message is not stored yet; so never an awk of the recipient's own |
| `SharedIds.SafeForGoodIff` | packages/orpal-core/src/messaging/orpal-client.ts:1105-1112 | a message whose queue write completed is safe in every continuation if and only if its recipient holds it and no other party's frame with its id is past a negative look-up; exactly the same holds if awks are only taken from the message's recipient |
| `SharedIds.CarefulIsEnough` | packages/orpal-core/src/messaging/orpal-client.ts:1105-1115 | taking awks only from the message's recipient, and storing no other party's row under its id, is enough: no event breaks the id |
| `SharedIds.RecipientsOwnAwkLoses` | packages/orpal-core/src/messaging/orpal-client.ts:1106-1112 | from a fresh worker there is a run that loses a queued message in which every awk for it that arrives is its honest recipient's own |
| `SharedIds.SettledForGood` | packages/orpal-core/src/messaging/orpal-client.ts:1105-1109 | once so, whatever happens: a message that is held and not about to be replaced stays held |
| `DeliveryProgress.AlwaysDeliverable` | packages/orpal-core/src/messaging/delivery-worker.ts:97-227 | from every state reached without a failed store call or an event that breaks its id, each queued message of a running sender to an honest contact can be delivered, as sent and once, by internal events alone |
| `DeliveryProgress.FromTimer` | packages/orpal-core/src/messaging/delivery-worker.ts:185-227 | an armed timer leads to delivery |
| `DeliveryProgress.FromCall` | packages/orpal-core/src/messaging/delivery-worker.ts:98-227 | every suspended call that covers a message leads to its delivery or removal |
| `DeliveryProgress.FromText` | packages/orpal-core/src/messaging/orpal-client.ts:1105-1110 | a text frame in the recipient's hands leads to a stored row and an awk |
| `DeliveryOverlap.AttemptsNeverOverlapIff` | packages/orpal-core/src/messaging/delivery-worker.ts:197-213 | in a run no two attempts for one message overlap if and only if never a look-up that found its message resumes while an attempt for it is under way |
| `DeliveryOverlap.StepOverlapsIff` | packages/orpal-core/src/messaging/delivery-worker.ts:200-207 | the same for one step |
| `DeliveryOverlap.CheckFailsIff` | packages/orpal-core/src/messaging/delivery-worker.ts:198-203 | the in-flight check lets a second call in exactly when another one has passed it and is not marked yet |
| `DeliveryOverlap.MarksAreExact` | packages/orpal-core/src/messaging/delivery-worker.ts:203-212 | while attempts do not overlap, a message is marked exactly while it is attempted |
| `DeliveryOverlap.OneBetweenSuffices` | packages/orpal-core/src/messaging/delivery-worker.ts:197-213 | one call at a time between the check and the end of the attempt keeps attempts apart |
| `DeliveryOverlap.OverlapHappens` | packages/orpal-core/src/messaging/delivery-worker.ts:197-207 | from a fresh worker, two flushes look a message up before either has marked it, and both attempt it |
| `Chunks.CountIsCeiling` | packages/orpal-core/src/transfer/file-transfer.ts:86-88 | the chunk count is the exact ceiling |
| `Chunks.Consecutive` | packages/orpal-core/src/transfer/file-transfer.ts:158-160 | each chunk ends where the next begins, the last at the end of the file |
| `Chunks.Tiling` | packages/orpal-core/src/transfer/file-transfer.ts:154-160 | every byte of the file lies in exactly one chunk |
| `Chunks.FullByCount` | packages/orpal-core/src/transfer/file-transfer.ts:284 | as many received indices as chunks means all of them |
| `Chunks.InMemoryFileSink.WriteChunk` | packages/orpal-core/src/transfer/file-transfer.ts:375-378 | the part at the offset is replaced; the total counts each offset's first part |
| `Chunks.InMemoryFileSink.Finalize` | packages/orpal-core/src/transfer/file-transfer.ts:379-386 | the parts laid out by ascending offset in a buffer of the total; the error when one does not fit |
| `Chunks.Reassembly` | packages/orpal-core/src/transfer/file-transfer.ts:379-386 | once every slice is written the assembled bytes are the file |
| `Chunks.PartsFit` | packages/orpal-core/src/transfer/file-transfer.ts:379-386 | no part of a file overruns the buffer |
| `FileSender.SendWithRetry` | packages/orpal-core/src/transfer/file-transfer.ts:188-207 | at most maxRetries + 1 sends, a resend only after a timeout, success exactly on an ACK |
| `FileSender.PoolIsExact` | packages/orpal-core/src/transfer/file-transfer.ts:152-174 | for every size, window and interleaving: no chunk claimed twice, at most min(max(1,window),chunks) under way, at most maxRetries + 1 sends each, exact progress counters |
| `FileSender.PoolCompletes` | packages/orpal-core/src/transfer/file-transfer.ts:152-174 | when all workers are finished every chunk is acknowledged and transferred = size |
| `FileSender.WidthIff` | packages/orpal-core/src/transfer/file-transfer.ts:145-174 | as many workers as the window allows, at least one, and no more than there are chunks |
| `FileSender.PoolRetries` | packages/orpal-core/src/transfer/file-transfer.ts:152-207 | for every interleaving and worker: it has given up exactly when its chunk was answered with an error other than a timeout or with maxRetries + 1 timeouts; up to then every answer was a timeout and every send but the last is answered; a chunk is done exactly at its ACK |
| `FileSender.AnswerCounts` | packages/orpal-core/src/transfer/file-transfer.ts:188-207 | no answer is overlooked: it counts for the chunk that was sent, and ends the wait |
| `FileSender.PoolCanFinish` | packages/orpal-core/src/transfer/file-transfer.ts:152-174 | from every reached state in which no worker has given up, reads, ends of backoffs and ACKs bring the whole file across |
| `FileSender.WorkerPool.ReadDone` | packages/orpal-core/src/transfer/file-transfer.ts:160-168 | the read chunk is sent |
| `FileSender.WorkerPool.Answered` | packages/orpal-core/src/transfer/file-transfer.ts:168-171 | an ACK counts the chunk and claims the next; a timeout backs off until the retries are used up; any other error fails the worker |
| `FileSender.WorkerPool.BackoffOver` | packages/orpal-core/src/transfer/file-transfer.ts:203-204 | the same chunk is sent again |
| `FileReceiverProofs.TransfersAreSound` | packages/orpal-core/src/transfer/file-transfer.ts:246-332 | for every order, repetition and interleaving: finalize runs only with every slice at its offset and can only return the source, no write follows it, and an offer has at most one outcome |
| `FileReceiverProofs.TransfersComplete` | packages/orpal-core/src/transfer/file-transfer.ts:246-332 | no handled chunk is lost at the hand-over from buffer to sink; once all are handled and no handler is suspended the one outcome is the intact file |
| `TransferProgress.EveryTransferCanComplete` | packages/orpal-core/src/transfer/file-transfer.ts:246-332 | from every state reached by an allowed run, an accepted offer without an outcome can still be completed, by honest chunks and returns alone, with the intact file as its one outcome |
| `TransferProgress.OfferCanComplete` | packages/orpal-core/src/transfer/file-transfer.ts:246-262 | an honest offer of an unregistered id without suspended handlers is registered, and can be completed |
| `FileReceiverProofs.CompletedIsIntact` | packages/orpal-core/src/transfer/file-transfer.ts:327-330 | in every run, with offers and chunks of any sender whatever: a file is reported complete only with the hash it was offered with |
| `FileReceiverProofs.FinalizedIff` | packages/orpal-core/src/transfer/file-transfer.ts:322-332 | the bytes finalize returns give integrity-failed if and only if their hash is not the offered one, and complete otherwise; a finalize that throws reports nothing |
| `FileReceiverProofs.ReofferIsSafeIff` | packages/orpal-core/src/transfer/file-transfer.ts:322-325 | re-offering a file id is safe exactly when no write handler of an earlier transfer of that id is suspended |
| `FileReceiverProofs.ReofferedTooEarly` | packages/orpal-core/src/transfer/file-transfer.ts:322-326 | a run in which, after an id is offered again, a second copy of an old chunk completes the new transfer with nothing written |
| `OfferGuard.RunIsSafeIff` | packages/orpal-core/src/messaging/orpal-client.ts:1132-1139 | behind the client's guard, whose look-up and hand-over are separated by an await: no transfer that an honest run starts can be cut short in any continuation if and only if never a negative look-up resumes while its id is unregistered and a handler of an earlier transfer of it is suspended |
| `OfferGuard.CurrentAnswersSuffice` | packages/orpal-core/src/messaging/orpal-client.ts:1132-1139 | if no look-up resumes after its 'not stored' answer has become wrong, every honest run keeps the condition |
| `OfferGuard.ResumingIsSafeIff` | packages/orpal-core/src/messaging/orpal-client.ts:1132-1139 | one offer past the guard can never be cut short, whatever its transfers do next, if and only if no handler of an earlier transfer of the id is suspended |
| `OfferGuard.GuardCanFail` | packages/orpal-core/src/messaging/orpal-client.ts:1070-1078 | a run in which both copies of an offer are looked up before the message is stored, and the second transfer is completed empty |
| `OfferGuard.GuardIff` | packages/orpal-core/src/messaging/orpal-client.ts:1132-1139 | an answered look-up drops the offer of a stored or registered id and registers any other; its answer is what was stored when the store ran |
| `OfferGuard.AppendIff` | packages/orpal-core/src/messaging/orpal-client.ts:1072-1078 | an id gets stored by its own createSink alone, and a sink is there only afterwards |
| `FileReceiverProofs.StepKeeps` | packages/orpal-core/src/transfer/file-transfer.ts:246-332 | one stretch of any handler keeps the receiver's invariant |
| `FileReceiver.Receiver.HandleOffer` | packages/orpal-core/src/transfer/file-transfer.ts:246-265 | a duplicate offer is ignored; otherwise the file is registered before the sink is awaited |
| `FileReceiver.Receiver.SinkReady` | packages/orpal-core/src/transfer/file-transfer.ts:271-276 | the sink is set and the buffered chunks are flushed in ascending order |
| `FileReceiver.Receiver.SinkFailed` | packages/orpal-core/src/transfer/file-transfer.ts:266-269 | the file is forgotten and reported aborted |
| `FileReceiver.Receiver.RunFlush` | packages/orpal-core/src/transfer/file-transfer.ts:275-284 | received chunks are skipped, the next is written; at the end the buffer is cleared and a full file completed |
| `FileReceiver.Receiver.SortBuffer` | packages/orpal-core/src/transfer/file-transfer.ts:275 | the buffered chunks, each once, in ascending order |
| `FileReceiver.Receiver.HandleChunk` | packages/orpal-core/src/transfer/file-transfer.ts:287-299 | unknown, out-of-range and received chunks are dropped; early ones buffered; others written at their offset |
| `FileReceiver.Receiver.WriteDone` | packages/orpal-core/src/transfer/file-transfer.ts:299-304 | the chunk counts as received and a full file is completed |
| `FileReceiver.Receiver.HandleDone` | packages/orpal-core/src/transfer/file-transfer.ts:308-311 | completes a full file only |
| `FileReceiver.Receiver.CompleteFile` | packages/orpal-core/src/transfer/file-transfer.ts:322-326 | the entry under the id, if it has a sink, is taken off and finalized |
| `FileReceiver.Receiver.FinalizeDone` | packages/orpal-core/src/transfer/file-transfer.ts:326-331 | the outcome by comparing hashes |
| `NumberText.ReadsBack` | orp-ref/core/canonical.ts:17-22 | every finite number is read back from its text, up to the sign of zero |
| `NumberText.LayoutIff` | orp-ref/core/canonical.ts:17-22 | an exponent is written exactly from 1e21 on and below 1e-6, signed; a decimal point and a leading zero exactly where the value asks for them; no other zeros |
| `NumberText.NumberUnits` | orp-ref/core/canonical.ts:17-22 | a number's text consists of number characters |
| `StringText.ReadsString` | orp-ref/core/canonical.ts:23-25 | every string, lone surrogates included, is read back from its quoted form whatever follows |
| `StringText.EscapesIff` | orp-ref/core/canonical.ts:17-22 | exactly the quote, the backslash, control characters and lone surrogates are escaped, in the short form where there is one |
| `StringText.QuoteWellFormed` | orp-ref/core/canonical.ts:23-25 | quoting leaves no lone surrogate |
| `Utf8Text.DecodesBack` | orp-ref/core/encoding.ts:14-16 | text without lone surrogates is recovered from its UTF-8 bytes |
| `Utf8Text.EncodeShape` | orp-ref/core/encoding.ts:14-16 | each code point takes as few bytes as it needs, the first telling how many |
| `Utf8Text.LoneSurrogatesCollide` | orp-ref/core/encoding.ts:14-16 | raw lone surrogates would share their bytes with another text |
| `TextOrder.SortIsSorted` | orp-ref/core/canonical.ts:31 | the sorted keys are the keys, in code unit order |
| `TextOrder.SortedIsUnique` | orp-ref/core/canonical.ts:31 | a set of keys has one sorted order |
| `Canonical.Canonicalize` | orp-ref/core/canonical.ts:13-46 | the recursive printer with its loops computes the canonical text, or throws |
| `Canonical.CanonicalizeItems` | orp-ref/core/canonical.ts:26-28 | an array's parts; one element that throws makes it throw |
| `Canonical.CanonicalizeFields` | orp-ref/core/canonical.ts:29-40 | an object's parts by sorted key, undefined ones omitted |
| `JsonReader.PrintsIff` | orp-ref/core/canonical.ts:13-41 | the printer throws exactly on non-finite numbers, unsupported values and undefined ones outside object properties, at any depth |
| `JsonReader.ReadsValue` | orp-ref/core/canonical.ts:13-41 | a parser recovers the meaning of the value from its text and leaves what follows, whether keys are sorted (canonical) or not (JSON.stringify) |
| `JsonReader.CanonicalIffSameMeaning` | orp-ref/core/canonical.ts:13-46 | two values have the same canonical text exactly when they mean the same: injective up to key order, undefined properties and the sign of zero |
| `JsonReader.PrefixFree` | orp-ref/core/canonical.ts:13-46 | no canonical text is a proper prefix of another, numbers apart |
| `JsonReader.BytesIffSameMeaning` | orp-ref/core/canonical.ts:49-51 | the same for the signed bytes |
| `Signing.SignsIff` | orp-ref/core/sign.ts:30-37 | signing fails only for a body that does not print; a stale signature does not matter |
| `Signing.VerifiesIff` | orp-ref/core/sign.ts:44-58 | a record carrying a signature verifies under a key exactly when that key made it over a body meaning the same |
| `Signing.VerifiesAfterTransport` | orp-ref/core/sign.ts:30-58 | a signed record still verifies after JSON.stringify and JSON.parse, undefined properties and stale signatures included |
| `Signing.SignedPrints` | orp-ref/core/sign.ts:30-37 | every signed record can be sent |
| `Signing.WithoutMeans` | orp-ref/core/sign.ts:34 | removing a property removes it from the meaning and nothing else |
| `Signing.SigIsFree` | orp-ref/core/sign.ts:44-58 | a signature fixes its key and preimage |
| `SignedRecords.SignatureFixesRecord` | orp-ref/core/wire.ts:155-206 | a signature found in two accepted records of any kinds has one signer, one kind and one body: binding, presence, intent, match frame, migration and migration ack never pass for each other |
| `SignedRecords.AcceptedIsSigned` | orp-ref/core/migration.ts:144-184 | every signature of an accepted record is its named signer's, over its body |
| `SignedRecords.BodyType` | orp-ref/core/migration.ts:74-85 | the signed body carries its kind's type, a binding none |
| `SignedRecords.CoSignedIsAcceptedIff` | orp-ref/core/migration.ts:94-170 | a migration signed by both its keys passes the verifier exactly when the keys differ, it has the prescribed shape and its binding is the new key's own |
| `SignedRecords.CoSignsIff` | orp-ref/core/migration.ts:94-117 | both keys can sign exactly what prints |
| `SignedRecords.HonestMigrationIsAccepted` | orp-ref/core/migration.ts:94-170 | so a migration put together as prescribed, to another key with that key's own binding and signed by both, is accepted |
| `SignedRecords.FrameValidIff` | orp-ref/core/wire.ts:184-206 | a match frame is valid exactly if it has the prescribed shape, its sender signed it, that is the expected one if any, and it announces a transport key bound by its sender or carries sealed signaling |
| `SignedRecords.FrameReason` | orp-ref/core/wire.ts:184-206 | the reason given for an invalid frame is true of it |
| `SignedRecords.AnnounceIff` | orp-ref/core/wire.ts:155-178 | an announcement is accepted as its type exactly if it has that shape and its self key signed it |
| `SignedRecords.SignedIsAccepted` | orp-ref/core/sign.ts:30-58 | what a device signs itself, in the prescribed shape and naming its key as signer, is accepted |
| `SignedRecords.Pick` | orp-ref/core/identity.ts:119-134 | the rebuilt body has exactly the named properties |
| `MessageLayer.IsLexLess` | orp-ref/core/messagelayer.ts:82-88 | the loop decides the lexicographic order |
| `MessageLayer.MirroredIffDistinct` | orp-ref/core/messagelayer.ts:67-80 | each end's send key is the other's receive key exactly when the transport keys differ |
| `MessageLayer.OneDirectionOnly` | orp-ref/core/messagelayer.ts:67-80 | a send key serves one direction of one pair only |
| `MatchSessions.EverySessionIsSound` | orp-ref/client/client.ts:196-344 | for every board behaviour: at most one offer, every channel keyed by the one peer key a verified key frame carried, and none without a verified signaling frame sealed to us |
| `MatchSessions.RelayIff` | orp-ref/client/client.ts:221-282 | a frame is taken as the peer's key, or as a description to apply, exactly if it is for this match, sound and from the counterparty, and the key is new, or known and the box sealed to ours; a repeated key changes nothing; any other frame changes nothing but the last error, which explains it |
| `MatchSessions.StartIff` | orp-ref/client/client.ts:212-219 | a start sends the session's own bound key, and waits for the peer's key or its offer |
| `MatchSessions.StateIff` | orp-ref/client/client.ts:212-344 | where a session stands is changed by its start, an offer that goes out, a channel that comes up and its end alone |
| `MatchSessions.ThrewIff` | orp-ref/client/client.ts:221-334 | a call that throws ends and leaves its error, nothing else |
| `MatchSessions.VerifiedIff` | orp-ref/core/wire.ts:184-206 | a frame is sound exactly if its signer sent it, as the expected counterparty if there is one, with a key bound by that signer or with a sealed box |
| `MatchSessions.ReasonHolds` | orp-ref/core/wire.ts:184-206 | the reason given for a rejected frame is true of it |
| `MatchSessions.PeerWrittenOnce` | orp-ref/client/client.ts:242-250 | a written peer key is never rewritten |
| `MatchSessions.Derive` | orp-ref/core/messagelayer.ts:67-80 | the channel keys of a transport key pair |
| `MatchSessions.MatchSession.constructor` | orp-ref/client/client.ts:196-210 | a session before its start |
| `MatchSessions.MatchSession.Start` | orp-ref/client/client.ts:212-219 | the key frame goes out and the state is set by role |
| `MatchSessions.MatchSession.OnRelay` | orp-ref/client/client.ts:221-282 | undecodable, foreign, unverified, early and unopenable frames change only the last error; a duplicate key frame nothing; a key frame sets the peer key; a signaling frame goes on by role |
| `MatchSessions.MatchSession.DescriptionReady` | orp-ref/client/client.ts:284-310 | the offer or answer, sealed to the peer key, goes out |
| `MatchSessions.MatchSession.RemoteApplied` | orp-ref/client/client.ts:272-281 | the responder answers, the initiator finishes |
| `MatchSessions.MatchSession.FinishConnect` | orp-ref/client/client.ts:323-325 | a connected or closed session does not connect again |
| `MatchSessions.MatchSession.ChannelReady` | orp-ref/client/client.ts:325-334 | the channel with the derived keys is reported |
| `MatchSessions.MatchSession.Close` | orp-ref/client/client.ts:340-343 | the session is closed |
| `SessionEnds.FinalIff` | orp-ref/client/client.ts:284-343 | a connected or closed session stays so and reports no further channel, whatever comes, if and only if no data channel and no offer is suspended and, for an initiator, the peer key is written |
| `SessionEnds.ClosedIsOverwritten` | orp-ref/client/client.ts:284-293 | a run in which a closed session waits for an answer again |
| `SessionEnds.ConnectedTwice` | orp-ref/client/client.ts:323-334 | a run in which an answer relayed twice is reported twice |
| `Handshake.KeyAgreement` | orp-ref/client/client.ts:212-334 | if an honest device's session for an honest, distinct counterparty connects, it processed that device's key frame and a signaling frame it signed for this match, and every channel of the signing session mirrors ours |
| `Handshake.AnyTwoCanConnect` | orp-ref/client/client.ts:140-334 | any two of our devices connect over a board that matches them and relays their frames, once one has sent an intent for the other |
| `Handshake.MatchIff` | orp-ref/client/client.ts:140-185 | a match makes a started session exactly for one of our users, and as initiator only for a key its device sent an intent for |
| `Handshake.OnlyPeersDescriptions` | orp-ref/client/client.ts:248-306 | every description a session with an honest counterparty applies or answers was made by a session of that counterparty for this match and sealed to our key |
| `Handshake.NoRedirection` | orp-ref/client/client.ts:143-155 | an initiator's session is only ever with a key its device sent an intent for |
| `Handshake.RelayingBoardConnects` | orp-ref/client/client.ts:212-334 | a board that relays every frame gets both ends connected |
| `ReliableChannels.EveryRunAddsUp` | orp-ref/client/reliablechannel.ts:91-154 | against any incoming frames: pending entries and armed timers one to one, sent = pending + resolved + timed out, each send settled at most once |
| `ReliableChannels.SettledForGood` | orp-ref/client/reliablechannel.ts:91-154 | for the rest of every run a settled send keeps its one outcome, and no ACK for it, genuine or forged, changes anything |
| `ReliableChannels.ResolvedMeansDelivered` | orp-ref/client/reliablechannel.ts:123-154 | with callbacks set, a resolved send means the peer's callback ran with that body |
| `ReliableChannels.EverySendCanResolve` | orp-ref/client/reliablechannel.ts:84-154 | from every state two listening ends reach, a pending message and the answer to it, if they get through, resolve the send, and the peer's callback is told that message |
| `ReliableChannels.EveryHeardIsAcked` | orp-ref/client/reliablechannel.ts:123-134 | in every run each message handed to the callback has a receipt on the link, sealed to that message's own key and naming its id |
| `ReliableChannels.AnsweredIff` | orp-ref/client/reliablechannel.ts:123-138 | exactly the messages are answered, each with one receipt, callback or not |
| `ReliableChannels.ResolvedByReceipt` | orp-ref/client/reliablechannel.ts:138-154 | whatever arrives, a pending send is resolved only if a receipt sealed to its own key and naming it arrived, and once one arrives it is settled |
| `ReliableChannels.SendStarts` | orp-ref/client/reliablechannel.ts:84-112 | a new send is pending with a timer of its own, and its frame is on the link |
| `ReliableChannels.TimeoutRejects` | orp-ref/client/reliablechannel.ts:96-99 | the timer of a pending send rejects it and is gone; every other send stays as it is |
| `ReliableChannels.ReliableChannel.Send` | orp-ref/client/reliablechannel.ts:91-112 | the entry and its timer are created together and the frame sent |
| `ReliableChannels.ReliableChannel.AckTimeout` | orp-ref/client/reliablechannel.ts:97-100 | the entry is removed and its promise rejected, if still pending |
| `ReliableChannels.ReliableChannel.OnRawMessage` | orp-ref/client/reliablechannel.ts:123-154 | a message is handed over and acknowledged; an ACK is checked against the entry's key |
| `Migrations.EveryLookupIsSound` | orp-ref/core/migration.ts:234-259 | after any sequence of migrations the walk ends within the number of records; there is no binding exactly when the key stands for itself, otherwise it is the current key's |
| `Migrations.CurrentKeyIsTerminal` | orp-ref/core/migration.ts:234-244 | on an acyclic registry the current key is the one reachable key without a migration |
| `Migrations.AcceptIff` | orp-ref/core/migration.ts:144-220 | a migration is recorded under the old key if and only if the keys differ, both signed it, the new key's binding is its own and the cutoff parses; any other changes nothing, with a true reason |
| `Migrations.IdempotentIff` | orp-ref/core/migration.ts:234-244 | resolving twice changes nothing exactly when the result has no migration of its own |
| `Migrations.CircleIsNotIdempotent` | orp-ref/core/migration.ts:240 | two migrations in a circle resolve to each other |
| `Migrations.StaysAcyclicIff` | orp-ref/core/migration.ts:215-220 | recording o -> n keeps the registry acyclic exactly when n does not lead to o |
| `Migrations.AcceptRedirects` | orp-ref/core/migration.ts:202-244 | accepting t -> n for a terminal t redirects exactly the keys that ended at t |
| `Migrations.MigrationRegistry.AcceptMigration` | orp-ref/core/migration.ts:211-222 | records a valid migration, overwriting an older one of the same key |
| `Migrations.MigrationRegistry.FindCurrentKey` | orp-ref/core/migration.ts:234-244 | the loop with its cycle guard computes the walk |
| `Migrations.MigrationRegistry.FindCurrentBinding` | orp-ref/core/migration.ts:247-259 | the binding of the last hop |
| `Migrations.MigrationRegistry.IsRetired` | orp-ref/core/migration.ts:266-270 | retired at or after the cutoff of an accepted migration |
| `KeyHandover.NewKeysAreKept` | packages/orpal-core/src/messaging/migration-manager.ts:147-279 | with a crash possible between any two writes, an active migration's new keys are in the pending slot or the main slot (or still embedded in a legacy state) |
| `KeyHandover.MigrationCompletes` | packages/orpal-core/src/messaging/migration-manager.ts:204-279 | an undisturbed migration from start to end: new keys announced as replacing the present ones, acknowledgements recorded exactly, the new keys made the main ones, everything else cleared, and used after the next start |
| `KeyHandover.AcksAreCounted` | packages/orpal-core/src/messaging/migration-manager.ts:246-262 | of any acknowledgements, in any order and repeated, exactly the senders that name both keys are recorded |
| `KeyHandover.RestartFindsKeys` | packages/orpal-core/src/messaging/migration-manager.ts:147-200 | a restart during a migration finds its new keys in the pending slot, or moves them there from a state of before that slot existed |
| `KeyHandover.OldKeysLeaveSafely` | packages/orpal-core/src/messaging/migration-manager.ts:266-275 | while a migration is active, keys leave the main slot only with the new ones in the pending slot |
| `KeyHandover.RetireAgainCompletes` | packages/orpal-core/src/messaging/migration-manager.ts:266-279 | from any crash before the pending slot is cleared, restarting and retiring ends with the new keys in the main slot |
| `KeyHandover.StuckForever` | packages/orpal-core/src/messaging/migration-manager.ts:266-279 | a crash after the pending slot is cleared and before the completed state is saved leaves an active migration that none of the manager's own operations, restarts included, ever ends; the new keys are the main ones |
| `KeyHandover.CrashSticksIff` | packages/orpal-core/src/messaging/migration-manager.ts:266-279 | of all points of a retirement only that one |
| `KeyHandover.RetirePromotes` | packages/orpal-core/src/messaging/migration-manager.ts:266-279 | retire promotes what is in the pending slot, which is the announced key pair while the migration is active |
| `KeyHandover.RetirePromotesAnnouncedIff` | packages/orpal-core/src/messaging/migration-manager.ts:266-279 | retiring makes the announced keys the main ones if and only if the migration in memory is still active |
| `KeyHandover.RestoreEndsStuckIff` | packages/orpal-core/src/messaging/orpal-client.ts:540-612 | a restore ends the stuck state exactly when it replaces and brings no migration, or brings one that is complete or carries its keys |
| `KeyHandover.RestoredMigrationIsPickedUpIff` | packages/orpal-core/src/messaging/orpal-client.ts:593-598 | a restored migration in flight gets its keys back at the next start exactly when the pending slot, which no restore clears, is empty or holds them |
| `KeyHandover.ImportKeepsKeysIff` | packages/orpal-core/src/messaging/orpal-client.ts:607-613 | importing an identity over a migration in flight keeps its new keys exactly when they are not in the main slot alone |
| `KeyHandover.UnannouncedKeysCanBePromoted` | packages/orpal-core/src/messaging/migration-manager.ts:204-236 | a run in which retire promotes keys that an interrupted start left and no migration announced |
| `KeyHandover.MigrationManager.LoadOrCreate` | packages/orpal-core/src/identity/identity-manager.ts:31-42 | an identity is created only when the main slot is empty |
| `KeyHandover.MigrationManager.InitManager` | packages/orpal-core/src/messaging/migration-manager.ts:147-160 | the new identity comes from the pending slot, or else from a legacy state, which is first copied there |
| `KeyHandover.MigrationManager.InitStrip` | packages/orpal-core/src/messaging/migration-manager.ts:167-169 | the legacy keys leave the stored state |
| `KeyHandover.MigrationManager.Start` | packages/orpal-core/src/messaging/migration-manager.ts:209-222 | the new keys are sealed before any state is saved; an active migration is an error |
| `KeyHandover.MigrationManager.StartSave` | packages/orpal-core/src/messaging/migration-manager.ts:224-236 | the active state is saved |
| `KeyHandover.MigrationManager.Notified` | packages/orpal-core/src/messaging/migration-manager.ts:238-242 | notifying becomes dual validity |
| `KeyHandover.MigrationManager.HandleAck` | packages/orpal-core/src/messaging/migration-manager.ts:246-262 | a first acknowledgement naming this migration's keys is recorded and the state saved |
| `KeyHandover.MigrationManager.RetireLoad` | packages/orpal-core/src/messaging/migration-manager.ts:266-271 | without pending keys nothing happens |
| `KeyHandover.MigrationManager.RetireWrite` | packages/orpal-core/src/messaging/migration-manager.ts:273-278 | the five writes in order |
| `Challenges.BothAnswered` | packages/orpal-core/src/messaging/migration-manager.ts:435-459 | the device holding both keys can answer both challenges |
| `Challenges.HonestAnswersPass` | packages/orpal-core/src/messaging/migration-manager.ts:390-421 | honest answers in any order and with duplicates pass exactly once, when both have come |
| `Challenges.HolderPasses` | packages/orpal-core/src/messaging/migration-manager.ts:351-459 | a party that holds both private keys opens the boxes, its answers pass the set, and the migration is taken off the list |
| `Challenges.AnswersIff` | packages/orpal-core/src/messaging/migration-manager.ts:435-459 | a challenge is answered with the private key its target names, and with no other |
| `Challenges.IncomingIff` | packages/orpal-core/src/messaging/migration-manager.ts:288-307 | a migration is listed once per contact and new key, behind those already there |
| `Challenges.PassingTakesBothKeys` | packages/orpal-core/src/messaging/migration-manager.ts:351-421 | across regenerated sets, a set is fully verified only for a party holding both private keys it was sealed to, after both its nonces came back |
| `ChallengedMigrations.AcceptsTheChallengedIff` | packages/orpal-core/src/messaging/migration-manager.ts:318-330 | in every run a passed set accepts the migration that stands as many places behind the challenged one as migrations of the contact were accepted or declined since the set was made; so it accepts the challenged record, by content, if and only if there were none or the same record had been announced again in that place |
| `ChallengedMigrations.AnotherIsAccepted` | packages/orpal-core/src/messaging/migration-manager.ts:333-336 | a run in which the challenged migration is declined and its answers accept another |
| `Challenges.MigrationRecipient.HandleIncoming` | packages/orpal-core/src/messaging/migration-manager.ts:298-305 | a migration is listed once per new key |
| `Challenges.MigrationRecipient.AcceptIncoming` | packages/orpal-core/src/messaging/migration-manager.ts:318-330 | the contact's first pending migration is taken off; its challenge set stays |
| `Challenges.MigrationRecipient.CreateChallenges` | packages/orpal-core/src/messaging/migration-manager.ts:351-384 | fresh nonces sealed to the old and the new key replace the contact's set |
| `Challenges.MigrationRecipient.VerifyChallengeResponse` | packages/orpal-core/src/messaging/migration-manager.ts:390-421 | only the expected nonce under the set's own key marks a target; the set goes when both are marked |
| `Contacts.ImportsAreSound` | packages/orpal-core/src/contacts/contact-export.ts:130-183 | imports have valid bindings and are not this device; skipping collisions, their keys are new and distinct |
| `Contacts.FateIff` | packages/orpal-core/src/contacts/contact-export.ts:130-183 | an entry is rejected exactly if its card is invalid or our own, with a true reason; skipped exactly if known and not to be overwritten; otherwise imported with the name, keys, boards, flags and time it carries |
| `Contacts.ExportImportsBack` | packages/orpal-core/src/contacts/contact-export.ts:61-92 | importing an export elsewhere gives back every contact but the loopback one |
| `Contacts.ImportBundle` | packages/orpal-core/src/contacts/contact-export.ts:130-183 | the loop gives each entry its fate; imported + skipped + rejected = entries |
| `AddressBooks.RegistryMirrorsStore` | packages/orpal-core/src/messaging/orpal-client.ts:357-420 | after any sequence of operations every stored contact has a valid binding and the registry is the projection of the store |
| `AddressBooks.RequestsCanBeAccepted` | packages/orpal-core/src/messaging/orpal-client.ts:757-766 | accepting a pending request always succeeds and adds exactly the sender |
| `AddressBooks.AddCardIff` | packages/orpal-core/src/messaging/orpal-client.ts:357-369 | a card is added exactly if it is valid and not this device's own, and kept as it says |
| `AddressBooks.HelloIff` | packages/orpal-core/src/messaging/orpal-client.ts:1116-1131 | a hello becomes a request exactly if it carries the peer's own valid card and the peer is not blocked, known, asking already or this device |
| `AddressBooks.ImportStores` | packages/orpal-core/src/messaging/orpal-client.ts:397-420 | an import stores, key by key, the last imported contact and leaves every other as it was |
| `AddressBooks.AcceptRequestIff` | packages/orpal-core/src/messaging/orpal-client.ts:757-766 | accepting stores the sender as its card says and takes the request off |
| `AddressBooks.EditIff` | packages/orpal-core/src/messaging/orpal-client.ts:680-722 | an edit changes the one field of that contact, and nothing of an unknown one |
| `AddressBooks.MigrationIff` | packages/orpal-core/src/messaging/orpal-client.ts:802-814 | a stored contact with a valid migration is stored under its new key, keys and binding replaced and all else as it was |
| `AddressBooks.RemovalsIff` | packages/orpal-core/src/messaging/orpal-client.ts:675-743 | removing forgets the contact, blocking drops the requests of the blocked, a restart all requests; nothing else changes |
| `AddressBooks.LoopbackIff` | packages/orpal-core/src/messaging/orpal-client.ts:623-629 | the loopback contact is this device's own, bound, and made once |
| `AddressBooks.AddressBook.RegisterContact` | packages/orpal-core/src/messaging/orpal-client.ts:374-382 | store and registry change together |
| `AddressBooks.AddressBook.AddContactFromCard` | packages/orpal-core/src/messaging/orpal-client.ts:357-369 | an invalid card or our own is refused |
| `AddressBooks.AddressBook.ImportContacts` | packages/orpal-core/src/messaging/orpal-client.ts:397-420 | the imported contacts are registered, and the counts cover the bundle |
| `AddressBooks.AddressBook.EnsureLoopbackContact` | packages/orpal-core/src/messaging/orpal-client.ts:623-629 | one loopback contact at most |
| `AddressBooks.AddressBook.OnHelloFrame` | packages/orpal-core/src/messaging/orpal-client.ts:1116-1131 | only a sender's own valid card, not yet decided on, is kept |
| `AddressBooks.AddressBook.AcceptContactRequest` | packages/orpal-core/src/messaging/orpal-client.ts:757-766 | succeeds exactly for a pending request |
| `AddressBooks.AddressBook.SetContactBoards` | packages/orpal-core/src/messaging/orpal-client.ts:680-692 | the stored contact and its projection change together |
| `AddressBooks.AddressBook.SetContactRelayOnly` | packages/orpal-core/src/messaging/orpal-client.ts:710-716 | likewise |
| `AddressBooks.AddressBook.AcceptContactMigration` | packages/orpal-core/src/messaging/orpal-client.ts:802-814 | the contact is stored under its new key; the old one stays |
| `AddressBooks.AddressBook.RemoveContact` | packages/orpal-core/src/messaging/orpal-client.ts:675-678 | gone from both |
| `AddressBooks.AddressBook.SetBlockedKeys` | packages/orpal-core/src/messaging/orpal-client.ts:737-743 | blocked senders' requests are dropped |
| `AddressBooks.ContactRegistry.LoadAll` | packages/orpal-core/src/messaging/contact-registry.ts:13-22 | mirrors the store whatever order it lists its contacts in |
| `AddressBooks.ContactRegistry.Patch` | packages/orpal-core/src/messaging/contact-registry.ts:32-37 | changes an existing record only |
| `Backups.MergeChangesNothing` | packages/orpal-core/src/messaging/orpal-client.ts:510-597 | a merge changes no existing contact, message or pending row, unblocks no one, and brings in everything valid |
| `Backups.RestoresExactly` | packages/orpal-core/src/messaging/orpal-client.ts:510-612 | key by key what a restored device holds: in a merge what was there, or else the backup's first row; in a replacement the backup's last row and nothing else; contacts only with a valid binding; and exactly the blocked keys |
| `Backups.MergeIsIdempotent` | packages/orpal-core/src/messaging/orpal-client.ts:510-597 | merging again changes and imports nothing |
| `Backups.ReplaceReproduces` | packages/orpal-core/src/messaging/orpal-client.ts:432-465 | replacing any device's data with an export reproduces contacts, registry, messages, pending rows and block list |
| `Backups.CountsCoverEverything` | packages/orpal-core/src/messaging/orpal-client.ts:547-590 | counting each item's own fate, imported, skipped and rejected are all the contacts and all the messages, and in a merge the imported are exactly what the device gains |
| `Backups.BackupClient.RestoreContacts` | packages/orpal-core/src/messaging/orpal-client.ts:540-571 | the contacts' part of a restore, store and registry cleared first when replacing |
| `Backups.BackupClient.RestoreContactList` | packages/orpal-core/src/messaging/orpal-client.ts:547-571 | the contact loop: re-validated, skipped when present in a merge |
| `Backups.BackupClient.RestoreMessages` | packages/orpal-core/src/messaging/orpal-client.ts:574-582 | the nested message loops |
| `Backups.BackupClient.RestorePending` | packages/orpal-core/src/messaging/orpal-client.ts:585-590 | the pending loop |
| `Backups.BackupClient.RestoreBackup` | packages/orpal-core/src/messaging/orpal-client.ts:510-606 | the whole restore and its counts |
| `Backups.BackupClient.GroupMessages` | packages/orpal-core/src/messaging/orpal-client.ts:438-439 | one group per conversation, holding each message once |
| `FakeClocks.FakeClock.Callback` | orp-ref/core/clock.ts:47-62 | a callback sets its timers in order, each at the present plus its delay, and clears what it names; nothing else |
| `FakeClocks.FakeClock.Advance` | orp-ref/core/clock.ts:47-62 | every fired timer has its callback run: the timers set since are exactly theirs, in order, at firing plus delay; what one clears does not fire after it; and ends when callbacks arm only delays of at least 1; afterwards no timer is due, and every timer ever set is armed, cleared or fired once, firings in order of deadline and id |
| `FakeClocks.FakeClock.Next` | orp-ref/core/clock.ts:50-55 | the earliest due timer, the first set among equals |
| `FakeClocks.FakeClock.SetTimer` | orp-ref/core/clock.ts:38-42 | a fresh id and its deadline |
| `FakeClocks.FakeClock.ClearTimer` | orp-ref/core/clock.ts:43-45 | a cleared timer never fires |
| `BoardConnections.EveryRunKeepsOrder` | packages/orpal-core/src/broker/browser-broker.ts:79-203 | handed-over followed by buffered messages are exactly those sent, in order, across any disconnects; a socket and a reconnect timer never coexist; the k-th delay since the last open is min(maxMs, initialMs * 2^k) |
| `BoardConnections.OpenMeansFlushed` | packages/orpal-core/src/broker/browser-broker.ts:150-154 | an open connection has handed over everything sent |
| `BoardConnections.CanOpenIff` | packages/orpal-core/src/broker/browser-broker.ts:79-203 | from every reached state a socket can open in some continuation if and only if one is open or connecting, a reconnect is scheduled, or one is closing that may be retried; with unlimited retries always, until the caller closes |
| `BoardConnections.ClosedForGood` | packages/orpal-core/src/broker/browser-broker.ts:115-139 | after close nothing is handed over or armed, and no socket opens |
| `BoardConnections.CloseIff` | packages/orpal-core/src/broker/browser-broker.ts:125-139 | closing starts the close of a socket if there is one, and forgets the timer and the buffer |
| `BoardConnections.RetriesIff` | packages/orpal-core/src/broker/browser-broker.ts:170-203 | a disconnect or a socket that cannot be made is followed by a reconnect exactly if one is allowed |
| `BoardConnections.EverySendCounts` | packages/orpal-core/src/broker/browser-broker.ts:115-123 | what is sent is exactly what the caller sent before closing, in order |
| `BoardConnections.DelaysDouble` | packages/orpal-core/src/broker/browser-broker.ts:193-203 | the first delay is the configured one, each next twice the last, up to the maximum |
| `BoardConnections.BrowserBoardConnection.constructor` | packages/orpal-core/src/broker/browser-broker.ts:93-110 | opens at once |
| `BoardConnections.BrowserBoardConnection.SendMessage` | packages/orpal-core/src/broker/browser-broker.ts:115-122 | handed over when open, else buffered, ignored once closed by the caller |
| `BoardConnections.BrowserBoardConnection.OnOpen` | packages/orpal-core/src/broker/browser-broker.ts:150-154 | the buffer goes out in order and the backoff starts over |
| `BoardConnections.BrowserBoardConnection.OnClose` | packages/orpal-core/src/broker/browser-broker.ts:176-184 | reconnects unless closed or out of attempts |
| `BoardConnections.BrowserBoardConnection.ScheduleReconnect` | packages/orpal-core/src/broker/browser-broker.ts:193-203 | the capped exponential delay |
| `BoardConnections.BrowserBoardConnection.OnReconnectTimer` | packages/orpal-core/src/broker/browser-broker.ts:198-201 | opens again unless closed |
| `BoardConnections.BrowserBoardConnection.CloseConnection` | packages/orpal-core/src/broker/browser-broker.ts:125-137 | no reconnect, nothing buffered |
| `Connections.ConnectsSettleOnce` | packages/orpal-core/src/messaging/connection-manager.ts:73-115 | a contact has a pending connect exactly when it has one waiter with a live timer; every connect promise is waiting or settled, never twice |
| `Connections.OnlyRegisteredOpenIff` | packages/orpal-core/src/messaging/orpal-client.ts:1038-1059 | in every run, repeated match keys included, the only endpoint of a contact left open is always the registered one if and only if handleConnected is never entered for an unblocked contact whose open registered connection has this very match key while the match has a different endpoint, or none |
| `Connections.StepLeaksIff` | packages/orpal-core/src/messaging/orpal-client.ts:1048-1052 | the same for one step, whatever the event |
| `Connections.DoublesIff` | packages/orpal-core/src/messaging/orpal-client.ts:1048-1057 | from a state with only the registered endpoint open, an admission leaves two open if and only if that branch is entered and the new endpoint is open |
| `Connections.AtMostOneOpenIff` | packages/orpal-core/src/messaging/orpal-client.ts:1038-1059 | in every run in which handleConnected finds an endpoint that was not closed, never are two endpoints of a contact left open if and only if that branch is never entered |
| `Connections.CanDoubleIff` | packages/orpal-core/src/messaging/orpal-client.ts:1048-1059 | without entering that branch two endpoints of a contact can be left open in some continuation if and only if one is open already that is not the registered one |
| `Connections.FreshMatchesSuffice` | packages/orpal-core/src/messaging/orpal-client.ts:1038-1059 | with match keys given once, only the registered connection's endpoint is open |
| `Connections.RepeatedMatchLeavesTwo` | packages/orpal-core/src/messaging/orpal-client.ts:1049-1053 | a repeated match key leaves two open |
| `Connections.BlockedHaveNoConnection` | packages/orpal-core/src/messaging/orpal-client.ts:737-743 | no blocked contact has a connection |
| `Connections.UpIff` | packages/orpal-core/src/messaging/orpal-client.ts:1038-1059 | a contact is connected after an event if and only if the event brings it up, being neither blocked nor live under another match, or it was and its registered match did not go down and it was not blocked |
| `Connections.PendingIff` | packages/orpal-core/src/messaging/connection-manager.ts:73-115 | a connect promise is pending if and only if it was and was not settled, or a contact that is not connected is asked for; only then a new one is made |
| `Connections.SettledExactly` | packages/orpal-core/src/messaging/connection-manager.ts:91-115 | a pending promise is settled exactly by its timer or by its contact coming up |
| `Connections.ConnectionManager.EnsureConnection` | packages/orpal-core/src/messaging/connection-manager.ts:73-108 | a live connection, the pending promise, or a new one with waiter and timer |
| `Connections.ConnectionManager.ConnectTimeout` | packages/orpal-core/src/messaging/connection-manager.ts:91-98 | waiter, promise and timer go together |
| `Connections.ConnectionManager.ResolveConnectWaiters` | packages/orpal-core/src/messaging/connection-manager.ts:110-115 | every waiter once, its timer cleared |
| `Connections.ConnectionManager.HandleConnected` | packages/orpal-core/src/messaging/orpal-client.ts:1038-1059 | a blocked peer or a second connection beside a live one is refused and closed; a dead one is replaced and closed |
| `Connections.ConnectionManager.HandleEndpointState` | packages/orpal-core/src/messaging/connection-manager.ts:117-128 | only the registered match can go down |
| `Connections.ConnectionManager.DropConnection` | packages/orpal-core/src/messaging/connection-manager.ts:132-137 | closed and forgotten |
| `Connections.ConnectionManager.SetBlockedKeys` | packages/orpal-core/src/messaging/orpal-client.ts:737-743 | every newly blocked contact is dropped |

## Left out

- Message state (`sending`, `delivered`, `acknowledged`) is not modelled: it is not monotone in the code.
- Backoff delays and jitter of the delivery worker: its timers fire at any time; the attempt counter is recorded but nothing is claimed about it, since overlapping attempts can undercount.
- The queue metrics computed by `computePendingMetrics`: an accumulating loop over rows with easy properties.
- `DeliverySystem.QueuedOrStored`: no wipe of the queue or of an inbox, and no claim about messages to contacts that are not honest; other parties cannot name an id that has not been made yet, and an honest contact uses only ids of its own making.
- `OfferGuard.RunIsSafeIff`: no empty files; one receiver, that of the current connection; a new connection makes a new one, with no handlers of its own.
- `FileReceiverProofs.TransfersAreSound`: runs without `abort`; a write reaches the sink when it is issued, as in the in-memory sink; progress counters of the receiver can double-count interleaved duplicates and are not modelled.
- Reading an actual byte source and hashing: a hash is a free function of the bytes.
- Base64url: its lenient decoding means several texts stand for one signature or key; the model has one each.
- `SignedRecords.AcceptedIsSigned`: extra properties named like a member of `Object.prototype`, which the schema checker lets through, are rejected by the model's schemas.
- Exotic JavaScript values in the printer: sparse arrays, `toJSON`, getters, and objects such as dates.
- `Handshake.KeyAgreement`: agreement on keys and match, not on whom the peer believes it is talking to, since a binding does not prove possession of the transport key; relays may reach any session, not only the latest of a match id.
- `ReliableChannels.ResolvedMeansDelivered`: a message callback that itself sends is treated as sending just before, and a malformed one-time key, which an honest peer never sends, is not modelled.
- `KeyHandover.NewKeysAreKept`: the manager's own operations, one at a time; a restore of a backup between them is treated by lemmas of its own as one uninterrupted change of the slots, and a deliberate `rotate` of the identity and stores that fail rather than crash are not modelled.
- `KeyHandover.StuckForever`: likewise the manager's own operations only.
- `Challenges.PassingTakesBothKeys`: the rest of the world does not answer with a key the party lacks.
- `Backups.ReplaceReproduces`: settings, identity and migration state of a backup, encryption of the file, and a device without a pending queue; restored rows are put into the queue without delivering meanwhile.
- `Connections.ConnectsSettleOnce`: the intents sent by `ensureConnection` never resolve a waiter synchronously, and re-arming of the connection loop, which happens in a later microtask, is not modelled.
- `BoardConnections.EveryRunKeepsOrder`: a socket's opening and its listener are one step, and its `send` does not throw.
- ICE filtering, the schema checker's error texts, app-frame encoding, board matching, push, UI, and all real cryptography and I/O.

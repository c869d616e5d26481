# Release distribution: protocols and proofs

A Dafny model of the three algorithms that carry a release from the pipeline to
its recipients, with proofs that hold for every input, every interleaving and
every reachable state.

* **Notification journal.** Workers take at-least-once deliveries and drive one
  receipt per recipient through `CLAIMED`, `SEND_STARTED` and an outcome, over a
  compare-and-set blob store. `Receipts` holds the transitions, `Mail` the
  classification of provider responses and the retry policy, `RowProtocol` the
  program of one row stopped at each remote call, `Ledgers` what holds at one
  receipt path, `Journal` the whole system as a state machine, `Guarantees` its
  theorems, and `Orphans` the one way in which a receipt can be lost for ever.
  `ReceiptStore` is the conditional write with its read-back as a class;
  `Sequential` is the worker as it is written, over that store, proved equal to
  the row protocol run alone; `Progress` bounds the deliveries a message takes.
  `Outcomes` says case by case what a row and a delivery come to, and
  `Undisturbed` that the worker as it is written is a run of the state machine,
  in which every deliverable message is sent.
* **Publication.** `Releases` holds plans, blobs, references and messages,
  `Publishers` any number of publishers as a state machine, and
  `PublicationGuarantees` its theorems. `PublisherRun` is the publisher and its
  blob writer as a class over remote calls that may fail; each method is proved
  to be a run of that state machine. `Blocking` says what can stand in the way
  of a plan, and `Uninterrupted` that nothing else can. `Batches`, `Rows` and
  `Versions` are the batch files, their JSON lines and the version order, and
  `Links` follows the link of a message through the download route to the archive.
* **End to end.** `EndToEnd` joins the two: what a publisher queues is what a
  worker delivers.
* **Ranged streaming.** `Ranges` reads and resolves `Range` and `If-Range`
  (sections 13.1.5, 14.1.2 and 14.2 of RFC 9110); `Streaming` is the copy loop
  of one exchange while the object may be replaced.
* **Lock renewal.** `Renewal` is the processor and the lock renewer of one
  delivery as two interleaved processes.

`Basics`, `Decimals` and `Texts` are shared. `dafny verify dfyconfig.toml` checks
everything.

## How the environment is modelled

* Any number of workers (or publishers), at any speeds. A worker may crash at
  every remote call. Messages may be delivered again at any time, to any worker.
* A read or a write may fail; a write may take effect and still be reported as a
  failure or as a conflict. A request that is still under way when its worker is
  told of a failure, or crashes, may take effect at any later time. Every write
  gets an ETag never used before.
* The clock of each worker may read anything at any time. Stored times are whole
  seconds in the years 0000 to 9999, the only ones the fixed layout reads back.
* The mail provider may give any answer, at any time, or none.
* SHA-256 and operation identifiers are injective, JSON documents stand for
  their contents, and the recipient HMAC is any function of key and address.
  Text is a sequence of bytes. Request ids are cut by bytes and taken to be ASCII:
  one cut inside a longer character would be stored in a form that its own reader
  refuses.
* 64-bit arithmetic is explicit where it matters: saturating time differences,
  the wrapping jitter hash, and a 64-bit integer type for ranges and offsets.

## Where a natural claim is false

* **Long rows.** The publisher accepts an encoded row of up to 1024 bytes, but
  the worker's scanner has 1024 bytes for the row and its newline. An accepted
  batch is unreadable if and only if one of its rows has exactly 1024 bytes
  (`Rows.UnreadableExactly`), which the six-byte escape of an ampersand makes
  possible (`Rows.SomeRowIsUnreadable`).
* **Dead links.** The publisher accepts versions of up to 120 characters, but the
  download route takes no version segment of more than 96. The link of a queued
  message leads to its archive if and only if its version has at most 96
  characters (`Links.LinkLeadsToArchive`); every longer version is published all
  the same, with a link that leads nowhere (`Links.LongVersionHasDeadLink`). A
  version with a key has at most 36, so this takes a group over 32 bits.
* **Scans that break off.** An unavailable manifest or batch abandons the delivery,
  but a stream that breaks off while its rows are read, in the validating scan or
  later, dead-letters it, although a second try could succeed
  (`Journal.PrepareIsExact`, `Guarantees.SettledBecause`).
* **Overtaken renewal failures.** A delivery can be settled although a renewal
  failed while the message context was live: the processor may cancel between
  the failed call and the renewer's look at the context
  (`Renewal.FailureCanBeOvertaken`). Exactly that window lets it through.
* **A missed budget.** A delivery can be settled although the renewal budget ran
  out while the context was live: the timer may fire during a renewal call, or
  together with the cancellation, and the renewer then never takes its branch
  (`Renewal.BudgetCanBeMissed`). `Renewal.SettledExactlyWhen` gives the exact
  condition for both.
* **Unrecordable outcomes.** A transition out of a reachable receipt fails if and
  only if the clock has left the representable years, or the request id to be
  stored holds a control character (`Mail.EveryResponseIsRecorded`,
  `Guarantees.DefensiveBranchesAreDead`).
* **Valid plans that cannot be published.** The plan step puts no limit on the
  download name, but the contract of the manifest does, so that a valid plan can
  fail on every attempt after its identity and archive are stored. What stands in
  the way of a plan is `Blocking.Blocked`: a blob with another body, an empty or
  refused document, or a current manifest that may not be replaced. A plan can be
  completed if and only if nothing of the kind does
  (`Uninterrupted.UnblockedCompletes`, `Uninterrupted.CompletedWasUnblocked`).
* **Versions without a key.** A plan's version is checked for its shape only, so
  a group over 32 bits can become the first current manifest, if and only if it
  has at most 112 digits (`Uninterrupted.UnkeyedCanBecomeCurrent`), and is then
  never replaced (`PublicationGuarantees.UnkeyedCurrentIsFrozen`). The shipped
  command takes its source from the release directory
  (cmd/dar-release-publisher/main.go:154), which refuses such names
  (internal/publication/source.go:89-92), so only another caller of Publish can
  send one.
* **Copies of a message.** Copies of one message id agree in everything but the
  link's origin and the batch count; they are identical if and only if their
  publishers have one origin and their plans as many batches
  (`PublicationGuarantees.CopiesAgree`). Requests of one operation that differ in
  either can both complete and leave different copies
  (`Uninterrupted.CopiesCanDiffer`, `Uninterrupted.OriginsCanDiffer`); copies of
  one request to one publisher are identical.
* **Termination under crashes.** Workers that claim a row and crash, as often as
  the attempt limit allows, leave a claim (`Orphans.CrashesOrphan`) that no worker
  ever takes over: the receipt never changes again and no delivery that holds its
  row ever completes (`Orphans.OrphanedForever`, `Orphans.OrphanNeverCompletes`).
  A claim that nobody holds is lost in this way exactly when it has used up the
  limit (`Orphans.LostExactlyAtLimit`). The progress bound is for crash-free runs.

## Model

| member | source | states |
|---|---|---|
| `Receipts.ShapeIsValid` | internal/distribution/receipt.go:278-299 | The status-determined shape (which optional fields are present, which provider status) is stronger than the program's own validation. |
| `Receipts.ClaimIsFirst` | internal/distribution/receipt.go:67-88 | A claim succeeds exactly for a well-formed intent and a representable clock, and is a first receipt of version 1 with its full write budget. |
| `Receipts.StartSendSteps` | internal/distribution/receipt.go:109-121 | From a well-shaped receipt, succeeds exactly on CLAIMED with a representable clock, and is then one edge of the graph to a well-shaped SEND_STARTED. |
| `Receipts.FinishSteps` | internal/distribution/receipt.go:247-276 | The four terminal transitions succeed exactly on SEND_STARTED with a representable clock and a storable request id; the result is one edge on, well shaped, with the given provider status, id, reason and time, and the earlier times kept. |
| `Receipts.RetrySteps` | internal/distribution/receipt.go:140-156 | Succeeds exactly for a transient status, a retry time not before now and representable times; the stored retry time is the requested one in whole seconds. |
| `Receipts.ReclaimSteps` | internal/distribution/receipt.go:175-196 | Succeeds exactly when the retry is due and attempts remain, and spends one attempt. |
| `Receipts.ExhaustSteps` | internal/distribution/receipt.go:199-211 | Succeeds exactly on RETRYABLE with a representable clock, and ends in FAILED. |
| `Receipts.RecoverClaimSteps` | internal/distribution/receipt.go:214-245 | A stale claim is taken over exactly when its stored time plus the timeout has passed and attempts remain; at the limit it never is. |
| `Receipts.RecoverSendSteps` | internal/distribution/receipt.go:214-245 | A stale SEND_STARTED becomes UNKNOWN, never a claim, exactly when its timeout has passed. |
| `Receipts.EdgeConsumesBudget` | internal/distribution/receipt.go:108-276 | Every edge strictly decreases a measure that bounds the versions of a receipt by 3 * MaxAttempts + 1. |
| `Mail.ComputeJitterSeed` | internal/distribution/worker.go:397-414 | The hash loop computes the jitter seed in 64-bit arithmetic that never overflows, and the result fits 31 bits. |
| `Mail.JitterSeedIsNumber` | internal/distribution/worker.go:408-412 | The seed is the characters read as digits to base 33, first character first, cut to 31 bits: cutting at every step changes nothing. |
| `Mail.RetryDelayWithinPolicy` | internal/distribution/worker.go:397-424 | For attempts 1 to 5 the delay is at least the longer of Retry-After and 1, 2, 4, 8 or 16 seconds, within 1 and 300 seconds, at most a quarter of that (but 1 to 10 seconds) more, and never over 300 seconds. |
| `Mail.ApplySteps` | internal/distribution/worker.go:355-388 | Applying a result to a SEND_STARTED receipt gives the successor that the outcome calls for, exactly when it can be recorded. |
| `Mail.EveryResponseIsRecorded` | internal/distribution/mail.go:197-261 | For every mode, status and header, the classified response gives a valid successor if and only if the clock is representable and an id to be stored is control-free. Status, reason and provider status of the receipt are tabulated by HTTP status and mode: taken, 429, 5xx, 401 and 403, the rest of 4xx, and everything else, which alone is UNKNOWN. The delivery goes on, is retried or is dead-lettered accordingly, and a retry is no sooner than Retry-After. |
| `Mail.ClassifiedAs` | internal/distribution/mail.go:197-227 | Which outcome each status and mode stands for, both ways, with its reason, the id kept (cut to 128) and Retry-After within 1 and 300 seconds. |
| `Ledgers.ConditionMeansNewest` | internal/distribution/azure_storage.go:165-203 | A conditional write that takes effect was computed from the newest committed receipt. |
| `Ledgers.OvertakenWasSent` | internal/distribution/worker.go:324-346 | A SEND_STARTED followed by any later call at its path was answered as retryable and recorded so by the very next write. |
| `Ledgers.ConfirmedIsOwn` | internal/distribution/azure_storage.go:165-203 | A read-back with the version just written is the writer's own upload, by invariant of the ledger. |
| `Ledgers.ConfirmFits` | internal/distribution/worker.go:230-353 | After a confirmed write the worker's next program point again satisfies the ledger invariant, for each purpose of the write. |
| `Journal.Reachable` | internal/distribution/worker.go:154-353 | The system invariant (ledgers, workers, jobs) holds in every state of every run. |
| `Journal.PrepareIsExact` | internal/distribution/worker.go:154-228 | A delivery is ready if and only if message, manifest, batch and declared count are in order and every read goes well, and then for exactly the scanned rows. It is abandoned only for an unavailable blob, and dead-lettered only for a message that does not parse, a document that was rejected or is not in order, or a validating scan that broke off. |
| `Journal.LingerKeeps` | internal/distribution/worker.go:230-353 | A request left behind by a worker that was told of a failure or crashed, and free to take effect later, keeps the invariant. |
| `Guarantees.NoBlindResendEver` | internal/distribution/worker.go:230-353 | In every state of every run, each mail call at a path except possibly the last was answered as retryable and durably recorded so. |
| `Guarantees.AtMostOneDecisiveCall` | internal/distribution/worker.go:324-346 | At most one call per path is ever accepted, refused for good, ambiguous or unanswered. |
| `Guarantees.CallsNeverOverlap` | internal/distribution/worker.go:324-346 | A call starts only when every earlier call at its path has been answered and recorded as retryable. |
| `Guarantees.CallsAreBounded` | internal/distribution/worker.go:324-346 | Every call belongs to its own committed SEND_STARTED, attempt counts strictly increase from call to call, and there are at most MaxAttempts calls. |
| `Guarantees.WritesAreBounded` | internal/distribution/receipt.go:108-276 | A path is written at most 3 * MaxAttempts + 1 times in any run. |
| `Guarantees.WritesAreSpent` | internal/distribution/receipt.go:108-276 | Consecutive writes at a path strictly use up a measure that starts at 3 * MaxAttempts. |
| `Guarantees.StepsAreAtomic` | internal/distribution/azure_storage.go:120-203 | Every action of the concurrent system moves each path by nothing, its first claim or one edge: the store refines one atomic state machine. |
| `Guarantees.HistoryGrows` | internal/distribution/azure_storage.go:165-203 | The committed history of a path is only ever extended. |
| `Guarantees.CommitsWalkTheGraph` | internal/distribution/receipt.go:66-276 | The committed receipts of a path start at CLAIMED version 1, follow the graph, raise the version by one each, keep one identity and are all valid. |
| `Guarantees.TerminalForever` | internal/distribution/receipt.go:301-304 | A terminal receipt stays the blob, with its ETag, in every later state. |
| `Guarantees.PutReturnsOwnUpload` | internal/distribution/azure_storage.go:165-203 | If the read-back of a write is accepted, receipt and ETag are the worker's own upload, whatever was written in between. |
| `Guarantees.CompleteMeansDelivered` | internal/distribution/worker.go:154-209 | A delivery reported Complete has a delivered receipt for every row, unchanged in every later state, and its two counters add up to the declared count. |
| `Guarantees.SettledBecause` | internal/distribution/worker.go:154-209 | A delivery is settled only because it was refused before its first row, because all its rows are done, because its batch broke off, or with the disposition, reason and delay of a row that did not complete, which is counted. |
| `Guarantees.EffectsNeedValidation` | internal/distribution/worker.go:154-228 | No receipt is written and no mail sent except by a delivery whose whole batch has been validated, and only for one of its rows. |
| `Guarantees.DefensiveBranchesAreDead` | internal/distribution/worker.go:230-353 | On any reachable receipt the error branches for Exhaust, Reclaim and StartSend are taken if and only if the clock is not representable. |
| `Orphans.NoCallPending` | internal/distribution/worker.go:324-346 | While the newest receipt of a path is a claim, no worker there is about to call or waiting for an answer. |
| `Orphans.OrphanStays` | internal/distribution/receipt.go:214-232 | Every action of every worker leaves a claim at the attempt limit that nobody holds as it is, and unheld. |
| `Orphans.OrphanedForever` | internal/distribution/receipt.go:214-232 | Such a path never changes again in any run. |
| `Orphans.OrphanNeverCompletes` | internal/distribution/worker.go:154-209 | No delivery that holds the row ever completes. |
| `Orphans.WritesExactlyWhenMovable` | internal/distribution/worker.go:230-322 | A row that finds a well-shaped receipt, or none, writes at some clock reading if and only if it finds nothing, a retry, or a stale claim with attempts left or a stale start of its message, at a storable time. |
| `Orphans.MovableCanMove` | internal/distribution/worker.go:230-322 | In every reachable state, a delivery that comes to such a path can write there, whoever else is at work. |
| `Orphans.LostExactlyAtLimit` | internal/distribution/receipt.go:214-232 | A claim that nobody holds, met by a delivery with the whole budget, is lost if and only if it has reached the limit. |
| `Orphans.CrashesOrphan` | internal/distribution/receipt.go:214-232 | For every limit and every deliverable message, a run of claims and crashes that leaves its first row lost. |
| `Orphans.SomeDelivery` | internal/distribution/worker.go:154-209 | There are such messages, for every limit. |
| `ReceiptStore.ReceiptContainer.Interfere` | internal/distribution/azure_storage.go:165-203 | Whatever rivals write along the graph, the blob is the same one exactly when its version is the same. |
| `ReceiptStore.ReceiptContainer.Put` | internal/distribution/azure_storage.go:165-203 | Success returns exactly the caller's own upload, still stored; a failed condition or a lost upload changes nothing; undisturbed writes succeed; other paths are untouched. |
| `ReceiptStore.ReceiptContainer.Create` | internal/distribution/azure_storage.go:147-152 | Succeeds only where nothing was stored, and always there if undisturbed, returning its own upload; a taken path changes nothing; other paths are untouched. |
| `ReceiptStore.ReceiptContainer.Replace` | internal/distribution/azure_storage.go:155-163 | Succeeds only over the given ETag, and always there if undisturbed, returning its own upload; another ETag changes nothing; other paths are untouched. |
| `Sequential.SoleWorker.Put` | internal/distribution/azure_storage.go:147-163 | Over the receipt container without rivals or faults, writes and returns itself exactly when the condition holds. |
| `Sequential.SoleWorker.ProcessRecipient` | internal/distribution/worker.go:230-353 | The imperative row, with its successive writes and its mail call, ends with the store, the mail log and the result of the row protocol run without interruption. |
| `Sequential.SoleWorker.Reserve` | internal/distribution/worker.go:264-322 | The switch over the observed status ends the row or leaves the worker holding its own claim, as the protocol does. |
| `Sequential.SoleWorker.ReserveRetry` | internal/distribution/worker.go:272-302 | The RETRYABLE case: exhaust, wait, or reclaim, as the protocol does. |
| `Sequential.SoleWorker.SendOnce` | internal/distribution/worker.go:324-353 | Commit the start, call the mailer once, commit the answer, as the protocol does; the call is logged. |
| `Sequential.SoleWorker.Send` | internal/distribution/worker.go:333-338 | The mailer is called for this path: the log grows by it. |
| `Sequential.SoleWorker.Process` | internal/distribution/worker.go:187-209 | The row loop, its counters and its mail calls end as the protocol's delivery does, stopping at the first row that does not complete. |
| `Outcomes.RowTable` | internal/distribution/worker.go:230-353 | What a row does, for every store, clock and answer, by what it finds: nothing, another message's receipt, or its own receipt in each status. Whether the mailer is called (once, for this path, as which attempt), what the journal says afterwards, and disposition, reason and delay; nothing else changes. |
| `Outcomes.TakenIsDelivered` | internal/distribution/worker.go:324-353 | A well-formed row on a free path, with a storable clock and a provider that takes the mail, makes exactly one call and ends Complete with a delivered receipt. |
| `Outcomes.DeadLetterHasCause` | internal/distribution/worker.go:230-353 | A row is dead-lettered only for a foreign, closed, exhausted or stale started receipt, for a claim that cannot be formed, or after a call whose answer is permanent, unknown or unrecordable. |
| `Outcomes.TakenBatchCompletes` | internal/distribution/worker.go:187-209 | From a store without receipts of the message, with every mail taken, the delivery is Complete, every row is delivered, the mailer is called exactly once for each recipient, and the counters say so. |
| `Outcomes.DeliveredIsSkipped` | internal/distribution/worker.go:187-269 | A delivery of a batch that is delivered already completes at any clock: every row is skipped, nothing is written and nobody is called. |
| `Outcomes.StoreFailureAbandons` | internal/distribution/worker.go:238-263 | A failed receipt call abandons the row for a second, or looks again after a lost claim; only an answer that cannot be committed is dead-lettered. |
| `Outcomes.ActiveDelayIsRemaining` | internal/distribution/worker.go:426-439 | The delay asked for an active receipt is the time left until it is stale, within 1 second and 5 minutes, except for a clock so far back that the difference overflows 64 bits. |
| `Outcomes.ComingBackFindsItStale` | internal/distribution/worker.go:426-439 | Coming back after that delay, if it was not cut at five minutes, finds the receipt stale. |
| `Undisturbed.RowRuns` | internal/distribution/worker.go:230-353 | The row protocol run alone is a run of the concurrent state machine, call by call: same receipt, same result, as many mail calls at its path. |
| `Undisturbed.DeliveryRuns` | internal/distribution/worker.go:187-209 | So is a whole delivery: settled with the same result and counters, same receipts, same mail calls. |
| `Undisturbed.MailIsSent` | internal/distribution/worker.go:154-353 | Every deliverable message has a run of the state machine, from the empty one, in which it is reported Complete, every row has a delivered receipt, and exactly one mail call was made for each. |
| `Progress.DeliveryEnds` | internal/distribution/worker.go:187-301 | An abandoned delivery has delivered a prefix of the rows and left the next one waiting on a spent attempt that is due when the delay has passed. |
| `Progress.StuckIsBounded` | internal/distribution/worker.go:187-301 | Deliveries abandoned in a row use up the attempts of the rows still open, whatever other messages do to the store in between. |
| `Progress.MessageSettles` | internal/distribution/worker.go:187-301 | With one worker, no faults and no early redelivery, from any store without receipts of this message and with any deliveries of other messages in between, a message for n recipients is abandoned at most n * (MaxAttempts - 1) + 1 times, so it is settled within n * MaxAttempts + 1 deliveries. |
| `Progress.OtherDelivery` | internal/distribution/worker.go:187-353 | A whole delivery of another message changes nothing that the bound above does not allow for: it takes only free paths and its own. |
| `Batches.ScanRows` | internal/distribution/worker.go:479-515 | The scan loop hands over exactly the rows of the reference scan and succeeds exactly when that does. |
| `Batches.ScanIsExact` | internal/distribution/worker.go:479-515 | A batch is accepted with given rows if and only if there is at least one and the text is their lines, each ended by a newline within the buffer and parsing to its row, less one carriage return. |
| `Batches.BodyScans` | internal/distribution/worker.go:479-502 | Scanning a body written from rows gives back the rows, and fails if any row leaves no room for its newline. |
| `Batches.BuildBody` | internal/publication/publisher.go:372-380 | The append loop writes the lines of the rows in order. |
| `Batches.BuildBatches` | internal/publication/publisher.go:364-384 | Refuses exactly the empty list and more than 10000 batches; otherwise the ceiling quotient of batches, each the text of its slice. |
| `Batches.BatchesRoundTrip` | internal/publication/publisher.go:364-407 | Scanning the bodies in order gives back exactly the recipient list, and each body has as many rows as its message declares. |
| `Batches.ReadBackNeedsRoom` | internal/distribution/worker.go:479-502 | A batch is read back if and only if no encoded row fills the scanner's buffer. |
| `Rows.EncodingIsInjective` | internal/distribution/contracts.go:152-162 | Two valid recipients with the same canonical line are the same recipient, escapes included. |
| `Rows.FieldsAreNamed` | internal/distribution/contracts.go:152-162 | Read off the text by cutting it at its quotes, the value of each key in an encoded row is the recipient's field of that name. |
| `Rows.AcceptedExactly` | internal/publication/publisher.go:170-182 | The publisher accepts exactly the valid recipients of at most 1024 encoded bytes, and each fills one line that parses back to it. |
| `Rows.UnreadableExactly` | internal/distribution/worker.go:479-502 | A batch of accepted recipients cannot be read back if and only if one encoded row has exactly 1024 bytes. |
| `Rows.SomeRowIsUnreadable` | internal/distribution/contracts.go:152-162 | A valid recipient whose row is accepted and makes its batch unreadable. |
| `Batches.LeftPadIsInjective` | internal/publication/publisher.go:428-430 | Padded indexes are distinct, also beyond the padding width. |
| `Batches.LeftPadReads` | internal/publication/publisher.go:428-430 | A padded index is its digits behind zeros up to the width, and reads back as its number. |
| `Batches.BatchNamesAreDistinct` | internal/publication/publisher.go:249-266 | The batches of one operation have pairwise distinct blob names. |
| `Versions.ProductVersionKey` | internal/publication/source.go:211-225 | The loop yields a key exactly for versions of the pattern whose groups fit 32 bits, and it is their numeric key. |
| `Versions.KeyIsInjective` | internal/publication/source.go:211-225 | Two accepted versions with the same key are the same text. |
| `Versions.KeyOfText` | internal/publication/source.go:211-225 | A version written from four numbers has exactly these numbers, in this order, as its key, if they fit 32 bits. |
| `Versions.TextOfKey` | internal/publication/source.go:211-225 | Conversely every accepted version is the text of its key. |
| `Versions.LargeGroups` | internal/publication/source.go:345-350 | A version with a first group of any size has the pattern that a plan is checked for, and a key exactly when the group fits 32 bits. |
| `Versions.VersionKeyLess` | internal/publication/source.go:227-234 | The loop decides whether the first key has the smaller number at the first group in which the two differ. |
| `Versions.LessIsBelow` | internal/publication/source.go:227-234 | The order used everywhere is that one, stated on the numbers alone. |
| `Versions.LessIsStrictTotal` | internal/publication/source.go:227-234 | The order is irreflexive, transitive and total. |
| `Versions.SelectRelease` | internal/publication/source.go:73-101 | A release is selected exactly when every entry is acceptable and one is a release, and no release then has a higher number at the first group in which it differs from the selected one. |
| `Versions.HighestIsUnique` | internal/publication/source.go:81-101 | The selected release does not depend on the order of the directory. |
| `Releases.DueIsWanted` | internal/publication/publisher.go:184-282 | The blob written at each stage is the one that the independent description of a publication wants under that name. |
| `Releases.CountIsRows` | internal/publication/publisher.go:405-407 | The declared recipient count of a batch is its number of rows. |
| `Publishers.StepExtends` | internal/publication/azure.go:148-178 | No action of any publisher changes a stored blob other than a current manifest, or takes back a message, a write or a reference. |
| `Publishers.Reachable` | internal/publication/publisher.go:112-330 | The invariant of blobs, writes, messages and runs holds in every state of every run. |
| `PublicationGuarantees.MessagesAreDeliverable` | internal/publication/publisher.go:284-330 | Every message ever queued refers only to blobs that exist with the stated digest, size and version; its manifest is of its own operation and names an archive that exists; its batch has the declared rows. |
| `Links.ValidDownloadSegment` | internal/httpapi/handler.go:277-291 | The loop accepts exactly the segments within the limit, of the allowed characters, with something other than a dot. |
| `Links.RouteIsExact` | internal/httpapi/handler.go:242-260 | The route takes exactly the paths of its form, and reads version and file name from where they stand. |
| `Links.LinkLeadsToArchive` | internal/publication/publisher.go:302-330 | Behind its publisher's origin, the link of every message ever queued is a path that the download route takes if and only if the version has at most 96 characters, and the route then looks for exactly the blob that the message's manifest names as its archive, with the digest of its source. |
| `Links.LongVersionHasDeadLink` | internal/httpapi/handler.go:242-260 | For every version of 97 to 120 characters, a run that queues a message whose link the route refuses. |
| `PublicationGuarantees.OneOperationPerVersion` | internal/publication/publisher.go:184-202 | All messages ever queued for one release and version carry one operation id. |
| `PublicationGuarantees.CopiesAgree` | internal/publication/publisher.go:302-330 | Copies of one message id agree in everything but the link's origin and the batch count; they are identical if and only if their publishers have one origin and their plans as many batches. |
| `PublicationGuarantees.SharedRecipientSharedId` | internal/publication/publisher.go:249-300 | Over all requests of an operation, whatever their lists and batch sizes, two queued messages that share a recipient have one message id. |
| `Releases.BatchesAreDisjoint` | internal/publication/publisher.go:170-182 | With ascending addresses, as the plan step demands, no address is in two batches of a plan. |
| `PublicationGuarantees.CurrentStep` | internal/publication/azure.go:80-132 | One action leaves a current manifest alone or replaces it by one of a strictly higher version, although properties and body are read separately. |
| `PublicationGuarantees.AdvancesIsOutranks` | internal/publication/azure.go:106-114 | The version rule lets a manifest through exactly if both versions have keys and the new one has the higher number at the first group in which they differ. |
| `PublicationGuarantees.CurrentNeverDecreases` | internal/publication/azure.go:80-132 | Over any stretch of any run the version of a current manifest only goes up. |
| `PublicationGuarantees.UnkeyedCurrentIsFrozen` | internal/publication/azure.go:106-114 | A current manifest whose version has no key is never replaced. |
| `PublicationGuarantees.CurrentIsAnnounced` | internal/publication/publisher.go:112-139 | A current manifest is one of a run that sent every message of its plan. |
| `PublicationGuarantees.PublishedIsAccepted` | internal/publication/publisher.go:234-237 | Every message ever queued and every manifest that ever becomes current passes its contract. |
| `PublicationGuarantees.ReplayPublishes` | internal/publication/publisher.go:112-330 | After any number of runs of one plan, cut off anywhere and with writes that committed but reported failure, one completed run leaves the store as it was overlaid with exactly the plan's blobs. |
| `PublicationGuarantees.ReplaysAgree` | internal/publication/publisher.go:112-330 | Two such histories from one store end with the same contents, given the same version id for the archive, and without that if the archive was stored already. |
| `PublicationGuarantees.CompletionLasts` | internal/publication/publisher.go:112-139 | Among any other publishers, a completed run has its blobs in place and its messages queued, and the current manifest is its own or of a higher version, now and later. |
| `Blocking.Verdict` | internal/publication/azure.go:80-132 | Once every message is sent, a plan is blocked exactly when the current manifest may not be replaced. |
| `Blocking.StageIsBlocked` | internal/publication/azure.go:148-178 | A stage that cannot be stored now, because of its size, its contract or another body, could not be stored from the start. |
| `Blocking.MessagesAreWanted` | internal/publication/publisher.go:302-330 | Once every blob is stored, the messages of a run are those that the independent description of the plan wants. |
| `Uninterrupted.UnblockedCompletes` | internal/publication/publisher.go:112-139 | From every reachable store, a valid plan that nothing blocks, given the version ids of new blobs, has a run that completes and leaves exactly its blobs. |
| `Uninterrupted.CompletedWasUnblocked` | internal/publication/publisher.go:112-139 | Conversely, whatever runs of a plan completed, interrupted or not, nothing blocked it. |
| `Uninterrupted.FirstPublication` | internal/publication/publisher.go:112-168 | Any valid plan that nothing blocks can be the first to be published and become current, with or without a version key. |
| `Uninterrupted.CurrentVersionIsShort` | internal/publication/publisher.go:227-237 | In every run, no current manifest names a version of more than 120 characters. |
| `Uninterrupted.UnkeyedCanBecomeCurrent` | internal/publication/azure.go:88-96 | A version whose first group exceeds 32 bits can become current if and only if the group has at most 112 digits. |
| `Uninterrupted.CopiesCanDiffer` | internal/publication/publisher.go:302-330 | A run of two requests of one operation that leaves two different messages under one id. |
| `Uninterrupted.OriginsCanDiffer` | internal/publication/publisher.go:302-330 | For any two origins, a run in which one request completes under both and leaves two different messages under one id. |
| `EndToEnd.QueuedIsReady` | internal/distribution/worker.go:154-189 | Every message ever queued by any publishers is prepared by a worker that can read its blobs as a delivery to exactly the recipients of the plan's slice, if and only if its rows fit the scanner; otherwise it is dead-lettered. |
| `EndToEnd.AcceptedIsReady` | internal/distribution/worker.go:154-189 | For the canonical rows that the publisher accepts, the delivery is ready if and only if no row has exactly 1024 bytes. |
| `EndToEnd.CompleteReachesThePlan` | internal/distribution/worker.go:154-209 | When any worker in any run reports that message Complete, every recipient of the plan's slice has a delivered receipt, for ever. |
| `PublisherRun.Publisher.PutImmutable` | internal/publication/azure.go:148-178 | Success means that the blob is stored as referenced; nothing stored is changed; without faults it succeeds exactly when the name is free or holds the same body. |
| `PublisherRun.Publisher.PutCurrent` | internal/publication/azure.go:80-132 | Is a run of the state machine; without faults it succeeds exactly when the manifest is absent, equal, or of a lower version. |
| `PublisherRun.Publisher.Supersede` | internal/publication/azure.go:97-131 | The separate body read, the version rule and the conditional write are the corresponding steps of the state machine. |
| `PublisherRun.Publisher.PublishBatches` | internal/publication/publisher.go:249-266 | The loop stores every batch, or without faults fails only if the plan is blocked whatever ids its missing blobs would get. |
| `PublisherRun.Publisher.RefuseManifest` | internal/publication/publisher.go:234-237 | A manifest that its contract refuses stops the publication before it is stored, and no attempt can succeed. |
| `PublisherRun.Publisher.EnqueueBatches` | internal/publication/publisher.go:284-300 | The queue grows by a prefix of the plan's messages in order, and by all of them on success; without faults it succeeds exactly when the contract accepts every message. |
| `PublisherRun.Publisher.AdvanceCurrent` | internal/publication/publisher.go:268-282 | Completes the run; without faults it fails exactly when the current manifest blocks it. |
| `PublisherRun.Publisher.Publish` | internal/publication/publisher.go:112-139 | Success: the store is overlaid with exactly the plan's blobs, the queue has received its messages in order, and nothing blocked the plan. Failure: some of those blobs and a prefix of those messages; without faults only if the plan is blocked, by the store or by a contract, whatever ids its missing blobs would get. |
| `Ranges.ParseRange` | internal/download/range.go:82-122 | The parse with its reassigned bounds, in 64-bit arithmetic without overflow, is the interval its specification resolves to. |
| `Ranges.SpecifyIsExact` | internal/download/range.go:82-130 | A header of at most 128 bytes is read as a specification if and only if it denotes it. |
| `Ranges.ResolveIsExact` | internal/download/range.go:94-122 | The interval is exactly the requested positions that the object has; there is none if and only if the object has none. |
| `Ranges.IsStrongETag` | internal/download/range.go:68-80 | The index loop decides the strong validator syntax. |
| `Ranges.IfRangeIsExact` | internal/download/range.go:57-66 | A range is permitted exactly without If-Range, or with one strong validator of at most the limit that equals the object's. |
| `Ranges.SelectIsExact` | internal/download/range.go:30-66 | A single Range header that the validator permits is answered with exactly the positions it denotes, or refused exactly when there are none; otherwise the whole object is selected, and several Range headers are refused. |
| `Ranges.PrintedReadsBack` | internal/download/range.go:82-130 | Reading a printed `bytes=a-b` gives back a and min(b, size - 1). |
| `Ranges.ResumeCompletes` | internal/download/range.go:30-66 | For every split point a prefix request and a resumed request with the object's ETag concatenate to the object; after a replacement the resumed request gives the whole new object, marked so. |
| `Streaming.Exchange.Stat` | internal/blob/azure.go:110-123 | Size and ETag of the object at that moment, or nothing. |
| `Streaming.Exchange.OpenRange` | internal/blob/azure.go:126-159 | The exact slice of the object at that moment, exactly when the bounds hold and the ETag is unchanged. |
| `Streaming.Exchange.CopySegment` | internal/httpapi/handler.go:209-221 | Writes a prefix of the segment, all of it on success. |
| `Streaming.Exchange.CopyRest` | internal/httpapi/handler.go:184-206 | The loop keeps the payload a prefix of the selected slice of the version seen, over contiguous reads within the store's bounds. |
| `Streaming.Exchange.Stream` | internal/httpapi/handler.go:147-207 | However the object changes, the payload is a prefix of the selected slice of the version seen, a completed stream is all of it, reads tile it in segments of 1 byte to 4 MiB, and an undisturbed stream completes. |
| `Streaming.HeadDescribes` | internal/httpapi/handler.go:293-312 | 206 and Content-Range appear exactly for a partial answer; first, last, size, length and ETag describe the payload. |
| `Streaming.Exchange.Serve` | internal/httpapi/handler.go:79-118 | Each answer is given exactly when it is due: a storage error if the store offers no object with a strong ETag, too large over the limit, a refused range if the selection is refused, and a stream otherwise. The payload is what the request selects from the one version looked at, or a prefix of it, and the headers describe it. |
| `Renewal.Reachable` | internal/distribution/runtime.go:122-196 | The invariant of processor and renewer holds in every state of every run. |
| `Renewal.SettledAtMostOnce` | internal/distribution/runtime.go:122-159 | A delivery is settled at most once, as the worker decided, and only if the renewer posted no error: it neither took the deadline branch nor saw a renewal fail with a live context. |
| `Renewal.LiveFailureIsReported` | internal/distribution/runtime.go:161-196 | A renewal failure with a live context is posted as an error if and only if nobody cancelled before the renewer looked. |
| `Renewal.SettledExactlyWhen` | internal/distribution/runtime.go:122-196 | When the processor has returned, it has settled exactly if it received no error and was not interrupted, and a settled Abandon has waited for its delay. After a failure with a live context that is exactly if it was overtaken; after the budget ran out with a live context, exactly if the renewer never took the deadline branch, and then the context was cancelled first. |
| `Renewal.FailureCanBeOvertaken` | internal/distribution/runtime.go:181-193 | A run that settles after a renewal failed with a live context. |
| `Renewal.BudgetCanBeMissed` | internal/distribution/runtime.go:161-196 | A run that settles after the budget timer fired with a live context, without any failed renewal before the cancel. |
| `Renewal.ReceiveCannotDeadlock` | internal/distribution/runtime.go:122-196 | The renewer posts at most once, its post never blocks, and while the processor waits the renewer always has a step. |
| `Renewal.WaitIsBounded` | internal/distribution/runtime.go:161-196 | Without a successful renewal in between, the renewer has posted after at most five of its own steps. |

## Left out

- Azure SDK clients, Service Bus and HTTP transport: only their contracts appear (conditional write, versioned read, at-least-once delivery).
- JSON, SHA-256 and HMAC: a document stands for its content, except for recipient rows, whose canonical text is modelled; digests are injective, and the HMAC is any function; the constant schema version is dropped.
- Text patterns of identifiers other than those of recipient rows and product versions: their verdict is one flag of an intent or a message, since nothing else depends on them. The contracts of generated manifests and messages appear with what a valid plan leaves open: sizes, the length of the download name and the version ids.
- Blob names are structures: release ids, versions and operation ids contain no slash, so the spelled names are distinct; `Batches.BatchNamesAreDistinct` covers the one numeric part.
- Publishers of one store may differ in repository (in lower case), origin (without a final slash) and batch size; they share its containers, and the archive file does not change during a run.
- Reads of manifests and batches by the worker name exact blob versions, so their contents are fixed; the digest and name checks around them appear as reads that are rejected.
- Sequential: one worker without store faults; interleavings, crashes and faults are in Journal.
- PublisherRun: one publisher with faults; interleavings with others are in Publishers.
- Renewal: time is abstract (the budget timer may fire once and ticks may come at any moment), and a settle call counts whether or not the broker confirms it.
- Streaming: one exchange; response headers other than those that describe the payload are not modelled.
- Authentication, configuration parsing, ZIP and CSV validation, file paths, mail payload text, the mail stub, audit and health servers: branch reading over library behaviour, no protocol.

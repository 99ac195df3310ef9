# Radish Nexus: verified models

A Dafny model of the parts of Radish Nexus whose correctness depends on order, crashes or agreement between two sides.

The main part is the durable Jenkins delivery spool, a single-owner worker that imports build snapshots, reserves a
retry round on disk before each send, publishes acknowledgements, allows manual budget resets and compacts delivered
records into tombstones. It is modelled twice. `SpoolProtocol` is a state machine over the three directories, the clock,
the receiver and the worker's volatile phase; its writes end in one of three ways (new file and success, old file and
failure, new file and failure) and a crash may come between any two steps. `SpoolRuns` and `SpoolSchedule` prove the
safety and progress theorems over every run of it, `SpoolWaits` those about the waits between rounds. `SpoolLaws` says
field by field and in plain numbers what each operation makes of a record. `SpoolWorker` holds the class with the source's own operations; each
is proved to take only steps of that state machine, so its world is always one that a legal run reaches, and to meet a
contract of its own that includes the cause of every error it returns. `SpoolQuiescence` holds the loop of the run command
and proves where it ends. `Sender` is the attempt loop over an unreliable network, `Receiver` the transaction that claims
a delivery before it creates a CI Run.

The other parts are the delivery protocol from the payload text to the core command (`Json`, `Payload`, `SourceConfig`,
`RepositoryIdentity`, `CoreCommand`, `SourceMap`), the channel page reducer (`ChannelState`), the restore-order splice
(`RestoreList`) and the bounded Markdown projection with its client (`Markdown`, `MarkdownView`).

Three results say where the code falls short of its documentation or of the other side:

- `SpoolRuns.OddStatusUnreadable`: the sender stores any final three-digit response status, but the record reader accepts
  only 0 and 100..599, so such a response makes the worker's own record unreadable. `FilesStayReadable` gives the exact
  condition.
- `SpoolRecords.ResetReadableIff` and `OutcomeReadableIff`: a record is written without being validated, so a clock that
  stands before the record's creation makes it unreadable, at the write for good and at the read for as long as the payload
  lies too far ahead. `BackwardResetUnreadable` is such a record. All theorems about runs assume that the clock does not
  go back.
- `Markdown.DeepAutolinkIsRefused`: the text the server makes up for an autolink is not tested against the depth limit, so
  a document with an autolink at depth 32 is accepted by the server and refused by the client.

The stored first attempt of a record is the instant after its first send, not before it, because the source keeps the
address of the variable it reassigns. The model keeps that: `SpoolWorker.Instant` is the shared variable.

The project verifies with `dafny verify dfyconfig.toml`.

## Model

| member | source | states |
|---|---|---|
| SpoolRuns.RunKeepsInv | server/internal/jenkins/spool_worker.go:18-260 | every run of imports, ticks, resets, cleanups, publications, failed writes and crashes keeps the on-disk invariant: own files well formed, acknowledgements only for finished records with the same digest, digests of published bytes, finished records backed by the receiver |
| SpoolRuns.CrashAnywhere | server/internal/jenkins/spool_files.go:49-98 | a crash may follow any prefix of a legal run and the result is again a legal run, so every theorem about runs covers crashes between any two writes |
| SpoolRuns.FilesStayReadable | server/internal/jenkins/spool.go:231-292 | at every later instant each file the worker wrote is accepted by its reader exactly when its stored response status is in the reader's range, which holds as long as no response status outside 100..599 came in; each acknowledgement belongs to a finished record and has its bytes |
| SpoolRuns.OddStatusUnreadable | server/internal/jenkins/spool.go:249-251 | a concrete legal run in which a final response status outside 100..599 is stored and the record can never be read again |
| SpoolRuns.BudgetBinds | server/internal/jenkins/spool_worker.go:139-180 | sends of a build since its last reset never exceed the stored rounds, which never exceed 12; over a whole run a build is sent at most 12 * (1 + 128) times |
| SpoolRuns.DeliveredIsFinal | server/internal/jenkins/spool_worker.go:124-139 | digest, payload, acknowledgement, CI Run and delivery time of a build never change along a run, and once it is delivered no later step sends it, after compaction, restarts, resets and new inputs alike |
| SpoolRuns.EffectivelyOnce | experiments/m0-core-contracts/store.go:197-283 | with lost replies, retries and crashes the receiver creates at most one CI Run per build, and exactly the recorded one for a delivered build |
| SpoolRuns.RoundClaimsOwnKey | server/internal/jenkins/sender.go:72 | in every reachable state with a reserved round the stored payload parses, and the key its own delivery ID claims at the receiver is that of the build whose round it is |
| SpoolRuns.DeliveryKeysDiffer | server/internal/jenkins/protocol.go:113 | different builds claim different keys at the receiver |
| SpoolResend.ResendIsDuplicate | server/internal/goldenpath/postgres/ci_run.go:43-85 | unless another deliverer used its key, a round that repeats a committed delivery is answered as a duplicate of the original CI Run and changes nothing |
| SpoolRuns.SentPayloadWasPublished | server/internal/jenkins/spool_worker.go:180 | what a round sends is bytes the producer published for that build, and they are still sendable when they are sent |
| SpoolRuns.ResetAlwaysReadable | server/internal/jenkins/spool_worker.go:240-259 | whatever blocked record `Retry` may reset, the pending record it writes is accepted by the reader, its payload included: the invariant the reader does not check |
| SpoolRuns.CompactionJustified | server/internal/jenkins/spool_cleanup.go:282-315 | every tombstone goes back to a step with the full evidence of both sides (order of delivery, handoff, retirement, observation and compaction, equal digests, acknowledgement present, input gone) and keeps number, digest, CI Run and delivery time |
| SpoolRuns.TombstoneIsInert | server/internal/jenkins/spool_cleanup.go:35-44 | what the reader makes of a tombstone can be neither sent nor reset and has the tombstone's identity |
| SpoolRuns.FailedIsSilent | server/internal/jenkins/spool.go:302-305 | after a failed write nothing is written or sent until the process is restarted |
| SpoolProtocol.RenameKeepsInv | server/internal/jenkins/spool_files.go:85-98 | each write the worker may do keeps the invariant both when it is reported and when only the rename happened and an error is reported |
| SpoolProtocol.WrittenIdentity | server/internal/jenkins/spool_worker.go:166-194 | no write changes the digest or the payload of a build, and only an answered success or a compaction leaves a finished record |
| SpoolProtocol.AckedFileStays | server/internal/jenkins/spool.go:210-219 | a record with an acknowledgement stays finished and keeps its digest under every write |
| SpoolSchedule.SendsAreFinite | server/internal/jenkins/spool_worker.go:118-216 | sends plus remaining credit (12 minus the rounds of every live record, plus 12 for each published build without a record) never exceed the credit at the start plus 12 for each reset and each build published for the first time, crashes included; publishing the same builds again grants nothing |
| SpoolSchedule.FixedBuildsBoundSends | server/internal/jenkins/spool_worker.go:118-216 | with a fixed set of builds and no reset a run of any length sends at most as often as the credit at its start |
| SpoolSchedule.WaitingIsBounded | server/internal/jenkins/spool_worker.go:115-166 | a live record waits for at most as many sends as there are records before it in the order of next attempt and build number, one more for every crash |
| SpoolQuiescence.EveryRecordEnds | server/internal/jenkins/spool_worker.go:139-147 | among more error-free ticks of any spacing than there are rounds to give, with any steps and crashes between them, one finds nothing to do; every error-free tick a day after it leaves each record it found delivered, compacted or blocked, and without a reset they stay so |
| SpoolQuiescence.LoopEnds | server/cmd/jenkins-worker/main.go:135-167 | the same for the worker's own loop without a premise on time: 17,280 more turns than there are rounds to give, and the last one leaves every record that an earlier one found ended |
| SpoolQuiescence.FixedBuildsEnd | server/internal/jenkins/spool_worker.go:103-217 | with a fixed set of builds and no reset, a day more of the loop's turns than the credit at the start leaves every record that an earlier turn found delivered, compacted or blocked |
| SpoolQuiescence.Serve | server/cmd/jenkins-worker/main.go:135-167 | the loop of the run command with its five-second wait: the turns it completes are error-free ticks on the log of all steps, in order and paced as the ending theorems ask, and it resets no budget |
| SpoolQuiescence.ServedEnds | server/cmd/jenkins-worker/main.go:135-167 | a spool that started empty, after more than 12 turns for each build published and each reset and 17,280 besides: the records that an earlier turn found have ended |
| SpoolQuiescence.RestedTurnEnds | server/internal/jenkins/spool_worker.go:118-162 | where no live record changed for an hour, one error-free tick gives a round or leaves no record at all live |
| SpoolWaits.StoredWaitFits | server/internal/jenkins/spool_worker.go:200-228 | in every run a build that waits after round k has had at most eleven rounds and was told to wait at least min(2^(k-1), 60) minutes, at most a tenth more and at most an hour |
| SpoolWaits.WaitsNeverShrink | server/internal/jenkins/spool_worker.go:200-228 | along a run the wait stored after a round is never below the one stored after an earlier round of the same budget, crashes and failed writes between them included |
| SpoolWaits.FullBudgetLasts | server/internal/jenkins/spool_worker.go:200-228 | the eleven waits a run stores for one budget of a build total 363 to 370 minutes |
| SpoolRecords.OwnFileReadable | server/internal/jenkins/spool.go:231-292 | a file satisfying the invariant is readable at every later instant if and only if its response status is in the reader's range |
| SpoolRecords.ImportKeepsInv | server/internal/jenkins/spool_worker.go:63-84 | an imported record satisfies the invariant, and it is pending exactly when the payload is one the worker may send |
| SpoolRecords.ReserveKeepsInv | server/internal/jenkins/spool_worker.go:166-175 | reserving a round keeps the record invariant |
| SpoolRecords.OutcomeKeepsInv | server/internal/jenkins/spool_worker.go:181-209 | the outcome of a round keeps the record invariant, although the first outcome stores the later instant as the first attempt |
| SpoolRecords.ExhaustKeepsInv | server/internal/jenkins/spool_worker.go:139-143 | blocking an exhausted record keeps the record invariant |
| SpoolRecords.ResetKeepsInv | server/internal/jenkins/spool_worker.go:249-259 | a manual reset keeps the record invariant |
| SpoolRecords.TombstoneKeepsInv | server/internal/jenkins/spool_cleanup.go:297-301 | a tombstone written past the retention satisfies the tombstone invariant |
| SpoolRecords.ResetReadableIff | server/internal/jenkins/spool_worker.go:249-259 | for any clock readings, a reset record is readable exactly when its stamp is not before the record's creation and the payload is sendable at the reader's instant, and the latter holds at every instant from the creation on |
| SpoolRecords.BackwardResetUnreadable | server/internal/jenkins/spool_worker.go:249-259 | a concrete blocked record that is readable and may be reset, and whose reset one nanosecond before its creation can never be read again |
| SpoolRecords.OutcomeReadableIff | server/internal/jenkins/spool_worker.go:181-209 | for any clock readings, an outcome is readable exactly when its stamp is not before the creation, the answer's status is in range, and the answer blocked the record or the payload is sendable at the reader's instant |
| SpoolLaws.ImportsRecord | server/internal/jenkins/spool_worker.go:63-84 | an import is pending exactly for an accepted version 1 payload of this job and number; version 2 and malformed payloads are blocked, and a known foreign job or number pauses the source, an unfinished or unsupported run's included |
| SpoolLaws.RoundGiven | server/internal/jenkins/spool_worker.go:166-209 | field by field what a round makes of a record: delivered, waiting with a wait that fits its round, blocked by its own code, or exhausted after twelve rounds or a day since the first attempt |
| SpoolLaws.ExhaustedMayReset | server/internal/jenkins/spool_worker.go:232-260 | a record blocked because its budget ran out, by the scan or by its last answer, is one that a retry does not refuse while it has fewer than 128 resets |
| SpoolSize.OwnFilesFit | server/internal/jenkins/spool_files.go:49-52 | every record, tombstone and acknowledgement the worker encodes fits its limit, 128 resets and a 4096-byte CI Run ID included, so neither the write guard nor the read limit refuses one |
| SpoolNames.NameRoundTrip | server/internal/jenkins/spool.go:61-69 | the name reader accepts exactly the names the name writer produces and returns the same number |
| SpoolNames.NamesInjective | server/internal/jenkins/spool.go:61 | two builds never share a file name |
| SpoolNames.WrittenNameIsListed | server/internal/jenkins/spool.go:188-205 | a name the worker writes is never taken for a temporary or fixed file of any directory |
| SpoolNames.ClassifiedExactly | server/internal/jenkins/spool.go:188-205 | a listed name is a build exactly when the writer produces it; a leftover temporary of a build only in the input directory; the lock and the manifest are the state directory's only own names |
| Backoff.DelayBounds | server/internal/jenkins/spool_worker.go:219-228 | a delay is between one minute and one hour, at most a tenth above its base, and no product overflows 64 bits |
| Backoff.DelaysNeverDecrease | server/internal/jenkins/spool_worker.go:219-228 | a later round never waits less than an earlier one, whatever the jitter |
| Backoff.BudgetWindow | server/internal/jenkins/spool_worker.go:200-228 | the eleven waits of a full budget total 363 to 370 minutes, inside the 24-hour window |
| SpoolWorld.BoundedNames | server/internal/jenkins/spool_files.go:103-132 | a directory is listed exactly when it is within both limits, with its names and the sum of its sizes |
| SpoolWorld.OwnAcksNeverFail | server/internal/jenkins/spool.go:210-219 | in no reachable state, at no later instant, does an acknowledgement fail the inventory's comparison |
| SpoolWorld.UnreadableIsOdd | server/internal/jenkins/spool.go:231-292 | a record of a reachable state that cannot be read is one with a response status out of range |
| SpoolWorker.OpenSpool | server/internal/jenkins/spool.go:107-155 | run mode: reopening after a stop at any point refuses only for a missing or foreign manifest, an improper input directory or an exhausted capacity, never for the worker's own files |
| SpoolWorker.Spool.Inventory | server/internal/jenkins/spool.go:166-229 | lists the records in order with the total size and refuses only for an improper input directory or an exceeded capacity |
| SpoolWorker.Spool.ReadRecord | server/internal/jenkins/spool.go:231-292 | reads what the file holds at the clock's instant; failure means a stored response status out of range |
| SpoolWorker.Spool.WriteState | server/internal/jenkins/spool_files.go:49-98 | a reported success is the new file; a reported failure is the old or the new file, and marks the process failed |
| SpoolWorker.Spool.ReadFile | server/internal/jenkins/spool.go:231-292 | reads one record file step by step and accepts exactly what the specified reader accepts at that instant |
| SpoolWorker.Spool.Save | server/internal/jenkins/spool.go:302-327 | replaces exactly one record, or fails with the cause it names and the old or the new record in place |
| SpoolWorker.Spool.Acknowledge | server/internal/jenkins/spool.go:329-359 | afterwards the acknowledgement of the finished record exists with its bytes and no other one changed |
| SpoolWorker.Spool.Import | server/internal/jenkins/spool_worker.go:18-91 | adds at most one hundred records, each made from published bytes and pending, blocked or pausing by what they say; on success every input either agrees with its record or has none because a full batch of earlier names came first; different bytes are a conflict and change nothing |
| SpoolWorker.Spool.DraftImport | server/internal/jenkins/spool_worker.go:63-84 | the new record, built branch by branch, is the specified import |
| SpoolWorker.Spool.Scan | server/internal/jenkins/spool_worker.go:115-156 | the chosen record is the least due one in the order of next attempt and build number, finished records are acknowledged, exhausted ones blocked at the tick's instant, every other record stays as it was, and a pause is reported exactly when one exists |
| SpoolScan.FirstIsInFront | server/internal/jenkins/spool_worker.go:115-166 | the record that gets the round is live and within its budget, it comes before every other due record in the order of next attempt and build number, and no record pauses the source |
| SpoolWorker.Spool.ReserveRound | server/internal/jenkins/spool_worker.go:166-179 | the round is on disk before anything is sent, it goes to the first record in line, and no other record changes |
| SpoolWorker.Spool.SendOne | server/internal/jenkins/spool_worker.go:180 | one send of the reserved payload, claimed under the key computed from that payload, while the producer may publish |
| SpoolWorker.Spool.Outcome | server/internal/jenkins/spool_worker.go:181-209 | the record after a round, built field by field through the shared first-attempt variable, with the delay of its own round, equals the specified outcome |
| SpoolWorker.Spool.Conclude | server/internal/jenkins/spool_worker.go:181-217 | the outcome, with a wait that fits the number of rounds, is on disk unless the process failed, no other record changes, a delivered record is acknowledged when no error is reported, and a pause reported is a pause stored |
| SpoolWorker.Spool.Tick | server/internal/jenkins/spool_worker.go:103-217 | sends at most one round, to the record first in line, and only while no input contradicts a record; without a round and without an error nothing is due, over budget, paused or unacknowledged; the record in round ends as delivered, waiting with a wait that fits its round, or blocked by what was answered; other records stay or are blocked as exhausted, no budget is reset, and every error has the cause it names |
| SpoolTick.FrameKeepsResets | server/internal/jenkins/spool_worker.go:103-217 | what a tick may do to the records leaves the resets of every one as they were |
| SpoolWorker.Spool.Retry | server/internal/jenkins/spool_worker.go:232-260 | resets exactly the one record and leaves every other; refuses a record exactly when it is not blocked, has 128 resets or is blocked for one of six reasons, an exhausted budget not among them, and leaves it untouched |
| SpoolWorker.Spool.Status | server/internal/jenkins/spool_worker.go:307-351 | reports, of all records, the counts by state, the oldest unfinished and the latest delivered instant, a pause, the delivered records past the retention, bytes, remaining records and one item; refuses any conflicting input and changes no file |
| SpoolWorker.Spool.CleanupPlan | server/internal/jenkins/spool_cleanup.go:213-278 | is eligible only with the evidence of both sides and without a pause, and then names the payload bytes a compaction drops; every other outcome carries a reason or an error that holds; changes no file |
| SpoolWorker.Spool.Cleanup | server/internal/jenkins/spool_cleanup.go:282-315 | the only change to any file is the one warranted record becoming its tombstone; success means it is one now or was one already |
| SpoolReport.CompactionAllowed | server/internal/jenkins/spool_cleanup.go:293-310 | what the plan established still justifies the tombstone at the later instant it is written |
| Collector.CollectorEntries | server/internal/jenkins/spool_cleanup.go:55-112 | accepts exactly the well-formed entry tables and returns the table they denote |
| Collector.ReadEntry | server/internal/jenkins/spool_cleanup.go:76-103 | one entry, read step by step with the rules of its kind, is the specified entry |
| Collector.Prefix | server/internal/jenkins/spool_cleanup.go:179-186 | the end of the longest run of collected builds from the first one |
| Collector.CollectorProof | server/internal/jenkins/spool_cleanup.go:114-198 | answers proven, not ready, other binding or corrupt exactly by the checkpoint's binding, rules, entries and prefix; a proof carries the build's own entry |
| Collector.ProvenJustifies | server/internal/jenkins/spool_cleanup.go:165-197 | a proof, with matching digest and handoff after delivery, is the justification the protocol demands of a compaction |
| Sender.Send | server/internal/jenkins/sender.go:26-121 | posts again only after an answer that settles nothing, at most four times with at most thirty seconds of pauses, and reports exactly what the last answer settled, or the last error after the fourth; only no reply without a certificate failure, a status 408, 429, 500, 502, 503 or 504 and an unread 200 or 201 are asked again, so those statuses are reported after four posts with disposition retry, and any other pauses exactly for 401 or a binding mismatch; the receiver sees at most one new claim, with the payload's own facts under the payload's own delivery ID; a reported success is the receiver's own CI Run for it |
| Sender.Classify | server/internal/jenkins/sender.go:75-113 | settled result, remembered error and pause of one answer; every error it reports has a controlled code |
| Sender.ConcludedByStatus | server/internal/jenkins/sender.go:84-116 | what a round reports follows from statuses alone: which answers ask again, and disposition and number of posts of each reported failure |
| Sender.ReadResponse | server/internal/jenkins/sender.go:123-141 | reads the receipt step by step as specified |
| Sender.ReceiptRoundTrip | server/internal/jenkins/sender.go:123-141 | the sender reads back the CI Run of the receiver's own receipt exactly when its ID is a CI Run's, it is not too long and its status says the same about a duplicate |
| Sender.CodeKeepsText | server/internal/jenkins/sender.go:142-156 | each of the thirteen protocol codes keeps its text and everything else becomes a failed delivery |
| DeliveryError.ClassifiedExactly | server/internal/jenkins/delivery_error.go:26-47 | the code and the one disposition of every untyped error |
| DeliveryError.SafeReasonIsListed | server/internal/jenkins/spool.go:294-300 | a record may carry exactly the nineteen listed reasons |
| Receiver.Store.RecordCompletedCIRun | server/internal/goldenpath/postgres/ci_run.go:14-162 | a transaction commits claim and CI Run together or neither; a refused component or checkout binding claims nothing, not even a duplicate receipt; a repeated key answers duplicate or conflict by its facts and creates nothing |
| Receiver.DeliverKeepsMatched | experiments/m0-core-contracts/store.go:197-283 | claims and CI Runs stay in one-to-one correspondence |
| Receiver.ClaimsArePermanent | experiments/m0-core-contracts/store.go:204-223 | a claim is never changed or removed by any later delivery |
| Json.DecodeObject | server/internal/jenkins/protocol.go:39-82 | reads an object exactly when every schema name occurs once and no other name occurs |
| Json.FieldsKeys | server/internal/jenkins/protocol.go:73-80 | an accepted object's keys are exactly the schema's names |
| Payload.AcceptedStaysAccepted | server/internal/jenkins/protocol.go:114-184 | a payload accepted at one instant has the same meaning at every later one |
| Payload.AcceptedFacts | server/internal/jenkins/protocol.go:114-184 | an accepted payload has version 1 or 2, a valid job, a number in 1..2147483647, a terminal status, ordered times not in the far future, and a valid checkout exactly in version 2 |
| Payload.AcceptedExactly | server/internal/jenkins/protocol.go:114-184 | a payload is accepted with given facts if and only if it is at most 16,384 bytes of an object with exactly the version's members, that says those facts: not building, not in progress, one of three results, instants not zero, in order and at most five minutes ahead |
| Payload.ReadPayload | server/internal/jenkins/protocol.go:114-184 | the decoder step by step, with its probe and its two late refusals, computes the specified parse |
| RepositoryIdentity.RepositoryUrl | server/internal/goldenpath/repository_configuration.go:122-174 | the step-by-step normalisation of an origin, label loop included, computes the specified origin |
| RepositoryIdentity.FixedPoints | server/internal/goldenpath/repository_configuration.go:108-174 | normalisation is idempotent, and its fixed points are exactly the printed canonical host and port pairs |
| RepositoryIdentity.EverySpellingNormalises | server/internal/goldenpath/repository_configuration.go:122-174 | any letter case of scheme and host, the default port or none, a final slash or none give the same canonical origin (sections 6.2.2.1 and 6.2.3 of RFC 3986) |
| RepositoryIdentity.IdentityIsIdempotent | server/internal/goldenpath/repository_configuration.go:108-120 | a normalised repository identity is a fixed point of its own normalisation |
| CoreCommand.BindingExactly | server/internal/goldenpath/ci_checkout.go:52-56 | a binding is normalised if and only if its provider, external ID, repository ID, profile and first build are within the rules and its origin normalises; nothing but the origin changes |
| Checkout.CheckoutExactly | server/internal/goldenpath/ci_checkout.go:41-70 | a checkout is valid if and only if it was observed at a full SHA-1 that is not zero, or is unavailable for one of three reasons |
| CoreCommand.BindingIsIdempotent | server/internal/goldenpath/ci_checkout.go:52-56 | a normalised checkout binding normalises to itself, which the core's equality test relies on |
| SourceConfig.LoadSources | server/internal/jenkins/config.go:75-140 | computes the specified sources, refusing a repeated source ID, a repeated key ID and every invalid entry |
| SourceConfig.ReadKeys | server/internal/jenkins/config.go:113-133 | the key loop computes the specified key table or refuses |
| SourceConfig.LoadedSourcesAreValid | server/internal/jenkins/config.go:75-140 | 1 to 32 sources, each well formed with one or two keys and a binding in normal form, and no two with one ID |
| SourceConfig.LoadedAsWritten | server/internal/jenkins/config.go:75-158 | the i-th loaded source says what the i-th entry says: IDs, job, keys with the secrets of their files, and the binding with its first build, only its origin normalised |
| SourceMap.MappedIsAccepted | server/internal/jenkins/protocol.go:230-274 | for every configured source and accepted payload, a mapped command passes all three core validators, in both versions |
| SourceMap.MappedDelivery | server/internal/goldenpath/ci_run.go:136-153 | the delivery half of every mapped command is valid |
| SourceMap.MappedInput | server/internal/goldenpath/ci_run.go:155-177 | the input half of every mapped command is valid; `MappedFaithfully` says what it holds |
| SourceMap.MappedPair | server/internal/goldenpath/ci_checkout.go:72-90 | delivery and input of every mapped command fit together: normal binding, canonical run key, checkout exactly from the effective build on |
| SourceMap.MapsExactly | server/internal/jenkins/protocol.go:230-252 | a sound payload is mapped exactly when job, delivery ID, version and checkout binding are the source's |
| SourceMap.MappedFaithfully | server/internal/jenkins/protocol.go:217-274 | a mapped command is succeeded, failed or canceled exactly for SUCCESS, FAILURE and ABORTED, has the payload's times, checkout and number, and the source's component, workspace, ID, job and binding |
| SourceMap.RecordedAsReported | server/internal/jenkins/protocol.go:114-274 | from the body to the command: the recorded status is the one the object's result names, its times are the decoded started_at and completed_at, its run key the build number as written |
| SourceMap.CanonicalDeterminesCommand | server/internal/jenkins/protocol.go:253-273 | the hashed facts determine the command: equal canonical values give equal inputs and, in version 2, equal deliveries with their binding |
| ChannelState.MergeInitialHistory | web/src/channel/state.ts:94-107 | the merge loop appends the buffered messages one by one and stops at the first conflict |
| ChannelState.HistoryPositionIsIrrelevant | web/src/channel/state.ts:27-140 | whenever the history arrives between the events, the final state is the one in which it arrived first, errors included |
| ChannelState.ReadyExactly | web/src/channel/state.ts:27-140 | from any state a connected and opened session shows page and events exactly if every event equals the first message with its ID, and then all of them and nothing else; any other content under a known ID ends in the contract error |
| ChannelState.FailureStays | web/src/channel/state.ts:89-90 | a reported failure is shown whatever came before and whatever follows until the next connection or failure |
| ChannelState.NothingIsLost | web/src/channel/state.ts:42-140 | a page log[a..b) and events log[c..d) with a <= c <= b, in any interleaving, show exactly log[a..max(b, d)), each message once |
| ChannelState.GapIsKept | web/src/channel/state.ts:63-82 | with c > b the messages between page and events stay out and no error is reported, so the overlap is needed |
| ChannelState.OlderPageIsContiguous | web/src/channel/state.ts:70-118 | an older page that ends where the shown stretch begins extends it without a gap |
| ChannelState.OlderPageExactly | web/src/channel/state.ts:73-118 | an older page that repeats an ID ends in the paging error, any other one goes in front as it is |
| ChannelState.PageIsContiguous | web/src/channel/state.ts:27-140 | the history page anywhere among the events, and then events and a chain of older pages in any interleaving, show one contiguous stretch of the log, each message once, with the last page's cursor |
| ChannelState.RunKeepsDistinct | web/src/channel/state.ts:27-140 | no run shows a message ID twice as long as no single page repeats one |
| RestoreList.MoveLine | server/internal/backuprestore/backuprestore.go:476-484 | the in-place removal and overlapping copy move one line to an earlier index and keep the order of the others |
| RestoreList.BuildRestoreList | server/internal/backuprestore/backuprestore.go:452-486 | the scanning and splicing method computes the specified list; the branch at line 479 is never taken |
| RestoreList.RegistryIsTableData | server/internal/backuprestore/backuprestore.go:458-481 | the registry entry never lies before the first table data, which is why that branch is dead |
| RestoreList.RestoreListTableData | server/internal/backuprestore/backuprestore.go:488-496 | schema and table of the first TABLE DATA marker that both follow |
| RestoreList.ListedExactly | server/internal/backuprestore/backuprestore.go:456-475 | a list results exactly when there is one registry entry and no derived activity data, and each error is the first one in line order |
| RestoreList.ListMovesOnlyTheRegistry | server/internal/backuprestore/backuprestore.go:476-486 | the lines are a permutation, the registry entry is the first table data, all other lines keep their order, no activity data occurs |
| RestoreList.RestoreIsIdempotent | server/internal/backuprestore/backuprestore.go:452-486 | building the list from a built list changes nothing |
| Markdown.Converter.Convert | server/internal/markdown/markdown.go:114-230 | the recursive conversion with its captured counter computes, shape by shape, the specified projection and leaves the counter it specifies |
| Markdown.Converter.ConvertDocument | server/internal/markdown/markdown.go:112-236 | the whole document: nodes and final counter, or the first diagnostic; the nodes show the document, constructor by constructor and in order, as `AcceptedShows` says |
| Markdown.ParseExactly | server/internal/markdown/markdown.go:112-236 | accepted exactly when nothing in the document is refused for what it is, no node is deeper than 32 and it stands for at most 19,999 display nodes; the view is then the projection without limits |
| Markdown.AcceptedShows | server/internal/markdown/markdown.go:112-236 | every accepted document is shown node for node: headings with their level, lists with order and start, strong exactly for emphasis of level 2, links with the decoded destination, code and text with their line ends, autolinks with their title, children in order |
| Markdown.ViewBounds | server/internal/markdown/markdown.go:112-230 | an accepted view has one node less than the counter, at most 19,999, and depth 32 at most except the text of an autolink at depth 32 |
| MarkdownView.ViewRoundTrip | web/src/document/api.ts:178-240 | the client reads an encoded view of up to 20,000 nodes back node for node, or refuses it exactly for a node outside its rules |
| MarkdownView.AcceptedViewIsFine | web/src/document/api.ts:178-240 | whatever value it is sent, the client accepts at most 20,000 nodes, none deeper than 32 or outside its kind's rules, from objects with no member but their kind's own, provided its URL test refuses the empty text |
| Markdown.ClientAgrees | web/src/document/api.ts:178-240 | the client accepts an accepted document's view exactly when headings, list starts and URLs are in its range and no autolink stands at depth 32 |
| Markdown.DeepAutolinkIsRefused | server/internal/markdown/markdown.go:195-203 | a document the server accepts and the client refuses: an autolink under a paragraph under 30 quotes |

## Left out

- Host loss: a crash is a process crash and a rename is the commit point; the two directories' independent syncs after a power failure are not modelled.
- Directories are maps from build numbers; that names and numbers correspond one to one is proved separately in `SpoolNames`. Files in the input directory that are no build files are counted, not named.
- The producer acts between operations and while a send is under way, not between two steps of one listing; an input file cannot vanish between its listing and its reading.
- Read errors, permissions, ownership, locks between processes, file-system types and symbolic links: foreign calls. The held lock is a flag; a write may fail at any stage.
- SpoolWorker.OpenSpool: the modes `init` and `inspect`, and parsing of the manifest and the spool configuration, are straight-line checks on foreign calls; the manifest is a parameter. An inspecting process beside a running one is not modelled.
- JSON text, SHA-256, HMAC signatures, the time parser and the length of a printed instant are function parameters; every theorem holds for all of them. Decoding starts from a value that keeps key order and repetition.
- The version probe of `ParsePayload` also accepts the key in other letter cases before the strict decoder refuses it; both end in a refusal and the model has only one of them.
- A JSON number with a fraction or an exponent that is integral is an integer to the client's reader; the model reads integer numerals only.
- The answers of the network are arbitrary except that a well-formed success comes from the receiver: TLS and the signature check stand behind that.
- Receiver.Store.RecordCompletedCIRun: whether the component exists and the checkout binding is active is a parameter; the event and outbox rows commit together with the claim and are left out. The receiver's configuration of the source is fixed, and it means the workspace and source of the worker's binding.
- The collector's directory checks and the decoding of its checkpoint text: the checkpoint is a parameter with its entries still undecoded.
- IP literals: their parser and printer are a parameter, assumed to print canonical text that parses to itself. Percent-decoding of a host is a parameter, assumed to leave plain host characters alone.
- `NormalizeRepositoryMetadata` with its web URL and branch rules: it needs percent-decoding of paths.
- `Source.Verify` and `LoadSender`: a comparison of digests and a list of field checks.
- `time.UTC` conversions: an instant has no zone in the model.
- Bytes of a Markdown source: goldmark's parser with its own limits, byte offsets of diagnostics and `ValidURL` are outside; the projection starts from the syntax tree below the document node, and text unescaping and both URL tests are parameters.
- The loading of pages over HTTP and the React component around the channel reducer: they only feed it actions.
- The rest of the backup commands, ticket tables, pages, API clients, command entry points and migrations: no loop or state that the modelled parts depend on.

# Verified model of the energy-flexibility coordination platform

The platform keeps offers, reservations, dispatches, meter readings and settlements in one
database, hands dispatches to the outside world through a transactional outbox, and records
every decision in a hash-linked audit log. This project models it as one state machine and
proves what the platform promises about whole runs: any interleaving of API commands, any
number of outbox workers, crashes at any point between claim and finalization, lease expiry
and re-drives.

`dafny verify dfyconfig.toml` checks everything.

## How it is laid out

| files | content |
|---|---|
| `Domain`, `Outbox`, `Coordination`, `Signals`, `Decimals`, `Text`, `Ordering` | vocabulary, rows, and each transaction as a function from the database to its outcome; a raised error has no database, so nothing of it can survive |
| `Store`, `Service`, `Worker`, `Publishers` | the program's own shape: a mutable database, `CoordinationService`, `OutboxWorker` with its `run_once` loop, the re-drive operation and the fault-injecting publisher. Every method is proved to give the answer and the new state of the corresponding function |
| `Invariants`, `Preservation`, `CommandPreservation` | what holds of the tables in every reachable state, and what no transaction changes |
| `Replay`, `Accounting`, `Evidence` | the audit log folded into books, and settlement evidence |
| `Machine`, `MachineInvariants`, `MachineSafety`, `Runs`, `MessageSteps` | the interleaving machine, its invariant, and how one step can change one message |
| `Origins`, `Provenance`, `DeliveryRecords`, `Answers`, `Fingerprints` | the log as the book of record of every row, who did what, and exactly when each operation answers what |
| `Guarantees`, `Payments`, `DoublePayment`, `EffectivelyOnce`, `IdempotentReplay`, `Leases`, `RetryBudget`, `Overdraft`, `Overtaking`, `Snapshots` | the results about reachable states and runs |
| `ClaimOrder`, `Batch`, `BatchLaws`, `FaultRuns`, `FaultyWorker`, `WorkerRuns`, `Drain` | one worker's batch: what it does alone, against injected faults, that it is a run of the machine, and that nothing is ever stuck |
| `Possible` | that the hypotheses on hashes and fault runs can be met |
| `AuditChain`, `CanonicalJson`, `CanonicalJsonLaws`, `WireForms`, `EventForms`, `RequestForms`, `EvidenceForms`, `FieldNames`, `Checkpoints`, `PinnedState`, `PinnedRows` | the hash chain over any payload type, the canonical JSON text, the hashed and signed texts of events, requests, manifests and checkpoints, and what a checkpoint pins |

The functions and the methods describe the same transactions twice on purpose: lemmas about
runs speak of the functions, and each method's postcondition carries them over to the code.

## Assumptions

- Transactions are serial: each `with session.begin()` block is one atomic step. The code
  reads without a row lock when it finalizes (`outbox.py:252`, `outbox.py:290`) and locks
  only the latest audit row when it appends (`audit.py:81-86`), so this is assumed, not
  enforced by the code alone.
- New row ids, event ids and claim tokens have not been used before.
- All workers share one `max_attempts` and one clock that does not run backwards; a
  transaction takes one reading of it.
- A publisher that acknowledges has reached its destination. One that raises may have
  reached it or not.
- SHA-256 is an arbitrary function. Results about tampering and about what a checkpoint pins
  assume that it has no collisions and never gives sixty-four zeros.
- Row ids are compared by code point when queries sort by them.
- Money, power and energy columns (`Numeric(18, 6)`) hold whole millionths.

## Where the documents and the code differ

`docs/RELIABLE_INTEGRATION.md:33-34` says that a message is never retried beyond
`max_attempts`. The claim transaction (`outbox.py:201-246`) has no budget check, so a message
whose worker crashed on its last budgeted attempt is claimed again when the lease expires.
The model follows the code. `Overdraft.AttemptsCanExceed` exhibits the runs,
`RetryBudget.AttemptsBoundedExactly` says exactly which runs keep the promise, and
`RetryBudget.FailureBudget` shows what survives: recorded failures never exceed the budget.

## Model

| member | source | states |
|---|---|---|
| `Guarantees.LogTellsState` | src/energy_flex_trust/service.py:179-190 | In every reachable state the audit log verifies, every event was permitted when written, folding the log from empty gives the status of every offer, reservation, dispatch and message (pending and processing alike), and the events of each dispatch spell its life: queued, any number of failed-and-redriven cycles, then the ending of its present status |
| `Replay.LawfulLives` | src/energy_flex_trust/redrive.py:112-126 | In any lawful log the events of a dispatch form the word queued (delivery_failed redrive_authorized)* followed by nothing, delivery_failed, published, or published settled, matching its status |
| `Replay.AccountedKeeps` | src/energy_flex_trust/audit.py:70-102 | A transaction that appends one permitted event accounting for its status changes keeps the log intact, lawful and telling |
| `MachineInvariants.PerformAccounted` | src/energy_flex_trust/service.py:215-287 | Every command either changes nothing or writes exactly one permitted event whose effect is exactly its status changes |
| `Accounting.SuccessAccounted` | src/energy_flex_trust/outbox.py:260-284 | A finalized success is one permitted dispatch.published event |
| `Accounting.FailureAccounted` | src/energy_flex_trust/outbox.py:286-327 | A recorded failure writes no event while budget is left and one permitted dispatch.delivery_failed event when it is used up |
| `Accounting.ClaimSilent` | src/energy_flex_trust/outbox.py:201-246 | A claim changes no status that the log shows and writes no event |
| `MachineSafety.NextKeeps` | src/energy_flex_trust/outbox.py:171-327 | Every step of any actor keeps the machine invariant: tables, log, evidence, flights, fencing, locks, deliveries, failure counts |
| `MachineSafety.RunKeeps` | src/energy_flex_trust/outbox.py:136-193 | The invariant holds at the end of every run from a state that has it, whatever is interleaved |
| `Runs.RunExtends` | src/energy_flex_trust/models.py:35-185 | Over any run rows and events are only added: identities, quantities, windows, readings, settlements, idempotency records and the log so far never change |
| `Origins.LogTellsRows` | src/energy_flex_trust/audit.py:70-102 | In every reachable state the log is the book of record: each event that makes rows has them, with its actor, its key and its figures in their write-once columns and in the idempotency record; a row exists if and only if an event made it; no two events made the same row; events are numbered from one, in order of time, under different ids |
| `Origins.CommandWrites` | src/energy_flex_trust/service.py:57-457 | Every command either changes nothing or appends one event that shows its actor, its key and its request, with just the rows that this event tells of |
| `Provenance.RowsAsCommanded` | src/energy_flex_trust/service.py:215-287 | Whatever runs after a command that changed anything, its rows show its actor, its quantities in millionths, its instants and its key, and its event stays in the log |
| `Provenance.FourEyes` | src/energy_flex_trust/service.py:371-377 | The actor of a settlement.calculated event is neither that of the offer.reserved nor that of the dispatch.queued event of the same reservation |
| `Provenance.SettlementHasThreeEvents` | src/energy_flex_trust/service.py:371-377 | Each settlement has three events: reserved by the requested_by of its reservation, queued by the issued_by of its dispatch, calculated by its settled_by, who is neither |
| `Guarantees.StatusesAgree` | src/energy_flex_trust/outbox.py:255-270 | Each dispatch has exactly one message; pending or processing goes with queued and dispatch_pending, published with issued/dispatched or completed/completed, dead with rejected and cancelled, in both directions |
| `Guarantees.CompletedMeansSettledOnce` | src/energy_flex_trust/service.py:359-377 | A reservation is completed if and only if it has a settlement, has at most one, and its settler is neither the requester nor the dispatcher that the rows name (`Origins.LogTellsRows` ties those names to who acted) |
| `Guarantees.RedriveNeedsOnlyDead` | src/energy_flex_trust/redrive.py:44-96 | Re-drive succeeds exactly when a recovery operator gives a reason whose words, joined by single spaces, make at least twelve characters, for a dead message of that dispatch; the checks on dispatch and reservation beyond that cannot fail |
| `Guarantees.FinalizationIsSafe` | src/energy_flex_trust/outbox.py:248-270 | Finalizing never meets a missing aggregate, changes something if and only if the claim still holds its lease, and then the dispatch was still queued |
| `DeliveryRecords.DeliveriesShown` | src/energy_flex_trust/outbox.py:260-322 | In every reachable state a published message shows the reference, time and attempt of a dispatch.published event and its dispatch the same reference; a dead one the error and attempts of a dispatch.delivery_failed event; and a dispatch that waits or was rejected points to its message |
| `DeliveryRecords.FailureLeaves` | src/energy_flex_trust/outbox.py:293-331 | A failure recorded under its lease keeps the first 2000 characters of the error and drops the lock; the message is dead if attempts reached the limit and otherwise waits min(base * 2^(attempts-1), max) seconds from now |
| `DeliveryRecords.ChangesAreStamped` | src/energy_flex_trust/outbox.py:229-238 | Every step that changes a message sets updated_at to the time of the step |
| `Preservation.MovedKeeps` | src/energy_flex_trust/outbox.py:260-270 | Rewriting a message together with its dispatch and reservation keeps every table invariant when the three new statuses agree |
| `Preservation.RedriveKeeps` | src/energy_flex_trust/redrive.py:96-126 | A re-drive keeps every table invariant and only extends the database |
| `CommandPreservation.IssueKeeps` | src/energy_flex_trust/service.py:215-287 | issue_dispatch keeps every table invariant (statuses, windows, quantities, keys, payloads) and only extends the database |
| `CommandPreservation.ReserveKeeps` | src/energy_flex_trust/service.py:154-197 | reserve_offer keeps every table invariant and only extends the database |
| `CommandPreservation.SettleKeeps` | src/energy_flex_trust/service.py:349-457 | settle_reservation keeps every table invariant and only extends the database |
| `CommandPreservation.SettleShape` | src/energy_flex_trust/service.py:359-377 | Settlement can fail only for reasons a client can cause: never for a missing dispatch, a missing record target or a second settlement |
| `Answers.RegisterExactly` | src/energy_flex_trust/service.py:58-71 | register_asset fails exactly for a role, for another's asset and for a known external id, in this order, and succeeds otherwise |
| `Answers.OfferExactly` | src/energy_flex_trust/service.py:97-108 | create_offer fails exactly for a role, a missing asset, another's asset, a suspended asset and too large a quantity, in this order |
| `Answers.AssetsStayActive` | src/energy_flex_trust/service.py:102-106 | No operation ever suspends an asset |
| `Answers.ReserveExactly` | src/energy_flex_trust/service.py:146-178 | In every reachable state reserve_offer makes a reservation if and only if a market operator asks under a real, unused key for an offer without a reservation and for no more than it offers; a repeated request is replayed, and each of the six refusals has exactly its own cause |
| `Answers.IssueExactly` | src/energy_flex_trust/service.py:207-240 | In every reachable state issue_dispatch makes a dispatch if and only if a market operator asks under a real, unused key for a reservation without a dispatch, for no more than it reserves and inside the offered window; replay and each of the seven refusals have exactly their own cause |
| `Answers.SettleExactly` | src/energy_flex_trust/service.py:344-405 | In every reachable state settle_reservation makes a settlement if and only if an analyst who took neither earlier step asks under a real, unused key for a published, unsettled reservation with readings inside the window whose exact figures fit, and it lists those readings and bills those figures; replay and each of the eight refusals have exactly their own cause |
| `Answers.RedriveExactly` | src/energy_flex_trust/redrive.py:44-96 | In every reachable state each refusal of a re-drive has exactly its own cause, and the further checks refuse nothing |
| `Answers.EnqueueExactly` | src/energy_flex_trust/outbox.py:122-133 | Enqueueing refuses exactly a blank key and a key that a dispatch message has; otherwise it adds one untouched message available now with the payload of the signal |
| `EffectivelyOnce.EffectivelyOnce` | src/energy_flex_trust/outbox.py:175-193 | A destination that deduplicates by key acts at most once on each dispatch, exactly once on each issued or completed one, and on the asset, target and window of its row |
| `EffectivelyOnce.DeliveriesAgree` | src/energy_flex_trust/outbox.py:239-246 | All publishes for one dispatch carry the same key and signal; publishes for different dispatches never share a key |
| `EffectivelyOnce.EffectsLaw` | README.md:130 | Deduplicating by key keeps exactly one delivery for each key that was delivered |
| `EffectivelyOnce.EffectsStay` | README.md:130 | Later deliveries never take an effect back |
| `EffectivelyOnce.PayloadsTellRows` | src/energy_flex_trust/service.py:242-262 | In every reachable state each stored payload decodes to its own dispatch identity, target and window and to the external id of the asset |
| `Leases.FencedLeases` | src/energy_flex_trust/outbox.py:205-238 | A message has a lock iff it is processing iff it has a lease; of two claims in flight on it the older had expired when the newer was made; an unexpired claim holds its message |
| `Leases.ClaimTakesEffectOnce` | src/energy_flex_trust/outbox.py:252-254 | Once a claim was finalized, no finalization with its token changes anything at any later time |
| `Leases.SupersededNeverTakesEffect` | src/energy_flex_trust/outbox.py:290-292 | Once a message was taken from a claim, no finalization with its token ever changes anything |
| `Leases.PublicationIsFinal` | src/energy_flex_trust/outbox.py:260-270 | A published message is never changed again by anyone, and its dispatch stays issued or completed |
| `MessageSteps.RowsNext` | src/energy_flex_trust/outbox.py:201-327 | The only ways a message row can change: the claim that picks it, the finalization that holds its lease, the re-drive of a dead message; new rows are pending, unclaimed and available now |
| `RetryBudget.FailureBudget` | src/energy_flex_trust/outbox.py:286-327 | A pending message has budget left, and failures recorded since it was queued or re-driven never exceed max_attempts, whatever crashes |
| `RetryBudget.AttemptsBoundedExactly` | src/energy_flex_trust/outbox.py:201-246 | Attempts stay within max_attempts throughout a run if and only if no claim of the run picks up an expired lease of a message with no budget left |
| `RetryBudget.BudgetWithoutExpiry` | src/energy_flex_trust/outbox.py:293-327 | Without lease expiry attempts never exceed max_attempts and dead means exactly max_attempts |
| `Overdraft.AttemptsCanExceed` | docs/RELIABLE_INTEGRATION.md:33-34 | The promise fails with crashes: for any budget and any excess there is a reachable state with that many attempts beyond it |
| `Overdraft.ClaimAndCrash` | src/energy_flex_trust/outbox.py:217-233 | From any reachable state with one unfinished message, a claim and a crash raise its attempts by one |
| `Overtaking.BoundedOvertaking` | src/energy_flex_trust/outbox.py:205-227 | Without lease expiry an overdue message is claimed within one more claim than there were messages ahead of it |
| `Overtaking.NothingGetsAhead` | src/energy_flex_trust/outbox.py:323-326 | No enqueue, retry or re-drive puts a message ahead of an overdue one |
| `Overtaking.ClaimTakesOneAhead` | src/energy_flex_trust/outbox.py:222-227 | Every claim of another message strictly lowers the number ahead of an overdue one |
| `IdempotentReplay.ReserveReplays` | src/energy_flex_trust/service.py:154-197 | After a reservation succeeded, whatever runs in between, the same request under the same key returns it and changes nothing, and a request with another hash is refused with no change |
| `IdempotentReplay.IssueReplays` | src/energy_flex_trust/service.py:215-287 | The same for a dispatch |
| `IdempotentReplay.SettleReplays` | src/energy_flex_trust/service.py:349-457 | The same for a settlement |
| `IdempotentReplay.KeysAndRecordsPair` | src/energy_flex_trust/service.py:252-287 | Outbox keys and issue_dispatch records correspond one to one, each record naming the dispatch of the message with its key |
| `Fingerprints.FingerprintsUnique` | src/energy_flex_trust/models.py:108-110 | In every reachable state two readings with one fingerprint are one row |
| `Fingerprints.ReadingReplays` | src/energy_flex_trust/service.py:303-307 | After a reading was recorded, whatever runs in between, the same command by anyone who may record for the asset returns its row and changes nothing |
| `Fingerprints.RecordExactly` | src/energy_flex_trust/service.py:295-318 | record_meter_reading returns the stored row if one has the fingerprint and otherwise adds a row with the columns of the command; it fails exactly for a role, a missing asset and another owner's asset |
| `Fingerprints.OthersGetOtherRows` | src/energy_flex_trust/service.py:296-307 | With a collision-free SHA-256, of all later commands exactly the one recorded before is answered with its row |
| `Fingerprints.ReadingTextInjective` | src/energy_flex_trust/service.py:296 | The dumped text of a reading command determines the command |
| `IdempotentReplay.ReserveErrorsAreClient` | src/energy_flex_trust/service.py:154-178 | Reserving fails only for six client reasons: the unique constraint on the offer and the missing-resource error are unreachable |
| `IdempotentReplay.SettleErrorsAreClient` | src/energy_flex_trust/service.py:349-405 | Settling fails only for eight client reasons: a missing dispatch, a dispatch that is not issued, a missing offer and a second settlement are unreachable |
| `IdempotentReplay.IssueErrorsAreClient` | src/energy_flex_trust/outbox.py:122-133 | From issue_dispatch the outbox blank-key and uniqueness errors are unreachable: only seven client errors remain |
| `RequestForms.ReserveReplaysCanonical` | src/energy_flex_trust/service.py:143-153 | With a collision-free SHA-256: at any later time exactly the canonical request of a successful reservation is replayed under its key, every other request is refused, and nothing changes |
| `RequestForms.IssueReplaysCanonical` | src/energy_flex_trust/service.py:208-214 | The same for a dispatch, with reservation, target, both instants with their offsets, and actor told apart |
| `RequestForms.SettleReplaysCanonical` | src/energy_flex_trust/service.py:346-348 | The same for a settlement |
| `RequestForms.RequestTextDecides` | src/energy_flex_trust/service.py:517-519 | Two requests of one operation have the same canonical text if and only if they are equal up to the exponent of a reserved quantity |
| `RequestForms.DecimalStrInjective` | src/energy_flex_trust/service.py:208-213 | The dumped text of a decimal, fixed-point or scientific, determines its digits and its exponent |
| `FieldNames.RequestNames` | src/energy_flex_trust/service.py:148-152 | A JSON reader of a fingerprinted request finds its fields under their names |
| `FieldNames.ReadingNames` | src/energy_flex_trust/service.py:296 | The same for a fingerprinted reading |
| `EvidenceForms.EvidenceHashDecides` | src/energy_flex_trust/service.py:471-479 | In every reachable state, for a collision-free SHA-256, the hash check accepts a stored object if and only if it is the manifest of the settlement up to the order of its names |
| `EvidenceForms.StoredManifestRehashes` | src/energy_flex_trust/service.py:428-448 | The manifest read back from its canonical text passes the hash check in every reachable state |
| `EvidenceForms.ManifestTextInjective` | src/energy_flex_trust/service.py:428-441 | The text of a manifest determines all of it, up to the exponents of its figures |
| `FieldNames.ManifestNames` | src/energy_flex_trust/service.py:428-441 | A JSON reader of the manifest finds its twelve fields under their names |
| `Guarantees.EvidenceRecomputes` | src/energy_flex_trust/service.py:407-448 | In every state after a settlement its manifest hash is valid, the named audit event has the named hash and the same figures, sums and price still give the stored figures exactly, the amount within half a millionth of the product, and it lists, by start and then id, just the readings of the asset that start no earlier than the dispatch, end no later, and were recorded before that event |
| `Payments.PaidExactly` | src/energy_flex_trust/service.py:380-392 | A settlement lists a reading if and only if an event before its own recorded it, it is of the offered asset, starts_at <= interval_start and interval_end <= ends_at; the list runs by interval_start, then id |
| `Payments.PaidTwice` | src/energy_flex_trust/service.py:380-392 | Two settlements of a reachable state list one reading only if both are for its asset and both dispatch windows hold it, so their windows overlap |
| `Payments.SettlementsIndependent` | src/energy_flex_trust/service.py:349-405 | Settling one reservation neither opens nor closes the way to settle another, and both settlements show the bills that stood before either, so a reading in both bills is paid twice |
| `DoublePayment.ReadingPaidTwice` | src/energy_flex_trust/service.py:380-392 | Double payment happens: a reachable state has two settlements of different reservations that both list, and were both paid for, one and the same reading |
| `Evidence.EvidencedKept` | src/energy_flex_trust/service.py:471-479 | Evidence that recomputes keeps recomputing under anything that only extends the database |
| `Decimals.SettleIsExact` | src/energy_flex_trust/service.py:399-405 | With the 28-digit decimal context a bill is produced iff the exact figures fit their columns, and then it is the exact sum and the product rounded half up to a millionth |
| `Decimals.SettleMonotone` | src/energy_flex_trust/service.py:399-405 | Amount and energy are monotone in every reading and in the price |
| `Decimals.SumLaw` | src/energy_flex_trust/service.py:399-401 | The running sum in the rounding context is exact while it fits the context |
| `CanonicalJsonLaws.LoadsCanonical` | src/energy_flex_trust/audit.py:80 | Parsing the canonical text of any payload gives its normalized value |
| `CanonicalJsonLaws.StoredPayloadRehashes` | src/energy_flex_trust/audit.py:49-67 | The stored payload prints to the very text it was normalized from, so it re-hashes identically |
| `CanonicalJsonLaws.TextDecidesValue` | src/energy_flex_trust/audit.py:25-46 | Two values print alike if and only if they are equal up to key order after leaf rendering |
| `CanonicalJsonLaws.ValueRoundTrip` | src/energy_flex_trust/audit.py:35-42 | The reader of sections 4 and 7 of RFC 8259 reads back every printed value, in any context that ends it |
| `CanonicalJsonLaws.SortLaw` | src/energy_flex_trust/audit.py:41 | Sorting by key gives ascending keys and keeps exactly the members |
| `CanonicalJsonLaws.SortedTwice` | src/energy_flex_trust/audit.py:41 | Normalizing a normalized value changes nothing |
| `Decimals.FixedRoundTrip` | src/energy_flex_trust/audit.py:30-31 | A decimal read back from its fixed-point text has the same value |
| `Decimals.ColumnKeepsNumber` | src/energy_flex_trust/models.py:42 | A Numeric(18, 6) column gives back the number that was stored |
| `CanonicalJsonLaws.EscapesOnly` | src/energy_flex_trust/audit.py:35-42 | Only quotes, backslashes and control characters are escaped, in the short form where there is one and with lower-case digits otherwise |
| `AuditChain.VerifyChain` | src/energy_flex_trust/audit.py:113-134 | The verification loop returns the verdict: valid iff every event is linked and re-hashes, else the first broken event |
| `AuditChain.VerdictTells` | src/energy_flex_trust/audit.py:113-134 | Valid if and only if every event carries its predecessor's hash and the hash of its own fields; the count is the number of events, the head the last event's hash or sixty-four zeros, and the broken sequence that of the first event that does not follow |
| `AuditChain.BuiltAccepted` | src/energy_flex_trust/audit.py:70-102 | Every prefix of a log built by append_event is accepted |
| `AuditChain.AppendKeepsValid` | src/energy_flex_trust/audit.py:81-99 | Appending keeps a log acceptable |
| `AuditChain.EditCaught` | src/energy_flex_trust/audit.py:118-130 | Editing event i under its old hash is reported at i |
| `AuditChain.RehashedEditCaught` | src/energy_flex_trust/audit.py:118-130 | Editing event i and recomputing its hash is reported at i if the link was changed and at i + 1 otherwise; it goes unnoticed exactly when the link is kept and i is the last event |
| `AuditChain.DeletionCaught` | src/energy_flex_trust/audit.py:118-130 | Deleting a block of events is reported at the first survivor after the gap; only cutting off the end is accepted |
| `AuditChain.ArrangementsArePrefixes` | src/energy_flex_trust/audit.py:113-134 | Of all arrangements of the events of an accepted log exactly its prefixes are accepted |
| `AuditChain.HeadPinsLog` | src/energy_flex_trust/audit.py:113-134 | Two accepted logs with the same head hash agree on every hashed field of every event |
| `AuditChain.HashesDistinct` | src/energy_flex_trust/models.py:161 | Event hashes never repeat inside an accepted log |
| `WireForms.MaterialTextInjective` | src/energy_flex_trust/audit.py:49-63 | The hashed text determines all nine hashed fields of an event |
| `FieldNames.HashedFields` | src/energy_flex_trust/audit.py:49-63 | A JSON reader of the hashed text of an event finds each of the nine hashed fields under its name |
| `FieldNames.FactFields` | src/energy_flex_trust/service.py:86-91 | The stored payload of each of the nine kinds of event shows the fields of its fact under their names, and nothing else |
| `WireForms.EventDigestCollisionFree` | src/energy_flex_trust/audit.py:66-67 | If SHA-256 has no collisions, event hashes have none |
| `Possible.HashesPossible` | src/energy_flex_trust/audit.py:45-67 | The hypotheses on SHA-256 and on the hashes of events, requests, readings and manifests can hold together |
| `WireForms.FieldsAgree` | src/energy_flex_trust/audit.py:35-42 | Dicts over the same names have the same normal form only if their values agree name by name |
| `EventForms.VerdictStored` | src/energy_flex_trust/audit.py:80 | Verification gives the same verdict on the stored JSON events as on the facts they stand for |
| `Checkpoints.SigningPayloadInjective` | src/energy_flex_trust/checkpoints.py:42-45 | The signed text determines every field but the signature |
| `FieldNames.SignedFields` | src/energy_flex_trust/checkpoints.py:34-45 | A JSON reader of the signed text finds each of the five signed fields under its name and no other value under it |
| `Checkpoints.CreatedIsAccepted` | src/energy_flex_trust/checkpoints.py:67-94 | A checkpoint is made exactly of a valid verdict, shows its count and head, the signer's key and the instant of issue, and is accepted if the signature on it verifies |
| `Checkpoints.AcceptedWasIssued` | src/energy_flex_trust/checkpoints.py:97-115 | If signatures verify only for what the holder signed, an accepted checkpoint says what an issued one said, under the one known version |
| `Checkpoints.CheckpointPinsHistory` | src/energy_flex_trust/checkpoints.py:67-94 | A later accepted log carries the checkpointed head at the checkpointed count iff it begins with the checkpointed log; equal count and head iff it is that log |
| `Checkpoints.AcceptedPinsHistory` | src/energy_flex_trust/checkpoints.py:67-115 | If the signatures on what a trusted signer issued verify, and signatures verify for nothing else, then an auditor accepts every checkpoint it issued, and only ones that pin the history of an accepted log |
| `Checkpoints.SchemePossible` | src/energy_flex_trust/checkpoints.py:67-115 | For every accepted log there are a key and a signature scheme under which these hypotheses hold together and its checkpoint is accepted |
| `PinnedState.CheckpointPinsState` | src/energy_flex_trust/checkpoints.py:76-83 | For reachable states a checkpoint pins the status of every row: a log that carries its head at its count replays to the checkpointed statuses there |
| `PinnedState.StoredDecidesEffect` | src/energy_flex_trust/audit.py:49-63 | What is stored of an event decides its effect on statuses |
| `PinnedRows.CheckpointPinsRows` | src/energy_flex_trust/checkpoints.py:76-83 | A checkpoint pins the tables: a reachable state whose log carries its head at its count has every asset, offer, reservation, dispatch, reading and settlement of the checkpointed state with the same write-once columns; with just that count the tables are equal, dispatches up to their adapter reference |
| `PinnedRows.StoredDecidesTold` | src/energy_flex_trust/audit.py:49-63 | What is stored of an event decides the rows that it tells of, up to the exponents of figures and the offsets of times |
| `BatchLaws.BatchExact` | src/energy_flex_trust/outbox.py:171-199 | With the clock at rest and no other actor, run_once(limit) claims exactly the first min(limit, n) of the n claimable messages, each once, by available_at, then created_at, then id, whether pending or left by an expired lease; it touches no other, reports attempted = published + retried + dead, never raises, and leaves nothing claimable when limit >= n |
| `BatchLaws.RunOnceConserves` | src/energy_flex_trust/outbox.py:171-199 | Whatever the clock does, published and dead counts rise by just the reported amounts, pending plus processing falls by their sum, and every attempt is accounted for |
| `BatchLaws.ConcludedCounts` | src/energy_flex_trust/outbox.py:182-193 | With or without the lease: a success counts only while it is held, a failure counts as dead if it was the last one under the lease and as retried otherwise, and without the lease nothing is written |
| `ClaimOrder.ClaimTakesEarliest` | src/energy_flex_trust/outbox.py:201-246 | A claim takes the message that comes first by available_at, created_at and id among those available and either pending or left by an expired lease, adds one attempt, the token and a lease of lease_seconds, and changes nothing else |
| `BatchLaws.RoundDoes` | src/energy_flex_trust/outbox.py:176-193 | One pass claims the earliest ready message by available_at, created_at and id, still holds its lease at the end, never raises, and rewrites that row only |
| `FaultRuns.FaultInjectionRun` | src/energy_flex_trust/ports.py:59-73 | A fresh message that alone waits, against a publisher that fails its first N calls, under any clock and any number of passes: pending until its last call, then published on attempt N+1 if N < max_attempts and otherwise dead after exactly max_attempts, with the counters and, in closed form, the delays scheduled so far |
| `FaultRuns.EventuallyEnds` | src/energy_flex_trust/outbox.py:323-326 | Under any clock that goes on, some number of passes brings that run to its end |
| `Possible.FaultRunPossible` | src/energy_flex_trust/ports.py:44-73 | For every number of injected failures a fault run can start from a state that satisfies all its hypotheses |
| `FaultRuns.SumDelaysClosed` | src/energy_flex_trust/outbox.py:329-331 | The sum of min(base * 2^(i-1), max) over k retries has the closed form with the knee where doubling reaches the cap |
| `FaultRuns.SpacedPassesAreDue` | src/energy_flex_trust/outbox.py:323-326 | A worker that waits out the largest delay between a finalization and the next claim, however quick its publishing, never passes in vain before the end: as many passes as calls |
| `Drain.NothingIsStuck` | docs/RELIABLE_INTEGRATION.md:49-50 | From every reachable state, whatever claims, crashes and failures came before, some continuation publishes every message that waits, changes no other, and leaves assets, offers, readings, settlements and idempotency records alone |
| `Drain.BatchDrains` | src/energy_flex_trust/outbox.py:171-199 | A batch large enough, run when all that waits is due, with a publisher that acknowledges, publishes everything that waits |
| `FaultyWorker.RunAgainstFaults` | src/energy_flex_trust/ports.py:44-73 | A worker object that calls run_once(limit=1) until the message waits no more, against the fault injector before the no-op publisher and under any clock that goes on, stops, with the message published on attempt N+1 if N < max_attempts and otherwise dead after exactly max_attempts, and every other message as it was |
| `FaultyWorker.ScenarioStages` | src/energy_flex_trust/outbox.py:286-331 | After any number of such calls and whatever the clock does: pending with one attempt for each publisher call, or ended, with the scheduled backoff in closed form |
| `FaultyWorker.ScenarioEnds` | src/energy_flex_trust/outbox.py:323-331 | If the worker waits out the largest delay between passes, the run has ended after just min(N, max_attempts - 1) + 1 calls of run_once |
| `FaultyWorker.PassesAreRounds` | src/energy_flex_trust/outbox.py:171-199 | Repeated run_once(limit=1) leaves the same database and position as as many rounds |
| `WorkerRuns.RunOnceIsRun` | src/energy_flex_trust/outbox.py:171-199 | Whatever a batch does to the database, a run of claims, publishes and finalizations of the machine does |
| `WorkerRuns.BatchesAreReachable` | src/energy_flex_trust/outbox.py:171-199 | A batch from a reachable state ends in the database of a reachable state |
| `Snapshots.CountsSum` | src/energy_flex_trust/outbox.py:341-347 | The four counts sum to the number of messages |
| `Snapshots.CountsEach` | src/energy_flex_trust/outbox.py:341-353 | Each count is the number of messages with its status, and due the number of pending ones that are available |
| `Snapshots.ClaimableIsDueAndExpired` | src/energy_flex_trust/outbox.py:348-353 | The claimable messages are the due ones and the processing ones with an expired lease, disjointly, and are counted so |
| `Snapshots.OldestAge` | src/energy_flex_trust/outbox.py:354-361 | The reported age is the largest age of a pending message, cut off at zero, and absent iff none is pending |
| `Signals.ShapeDecides` | src/energy_flex_trust/outbox.py:89-111 | Of all payloads that agree with an encoded signal in the fields they share, with fields missing or added and any version, exactly the two known shapes decode, both to that signal; any other field set or version is refused |
| `Signals.PayloadRoundTrip` | src/energy_flex_trust/outbox.py:76-111 | Decoding an encoded signal gives the same ids, the same decimal value and the same instants; the legacy form decodes identically |
| `FieldNames.PayloadFields` | src/energy_flex_trust/outbox.py:76-86 | The payload of a signal has exactly six names, each with its own field, the target in fixed-point text and the times in UTC |
| `Ordering.ListingLaw` | src/energy_flex_trust/outbox.py:222-227 | The ordered query lists exactly the selected rows in ascending order |
| `Text.LessMeans` | src/energy_flex_trust/outbox.py:225 | One id comes before another if it is a proper beginning of it or has the smaller character at the first difference |
| `Text.SqueezeJoins` | src/energy_flex_trust/redrive.py:45 | The normalized reason is the text's words, maximal runs of characters that are no space, joined by single spaces |
| `Store.Database.AppendEvent` | src/energy_flex_trust/audit.py:81-102 | Appends the event linked to the head and hashed with that link |
| `Service.CoordinationService.RegisterAsset` | src/energy_flex_trust/service.py:57-94 | Answers and changes the database as the transaction function says; an error changes nothing |
| `Service.CoordinationService.CreateOffer` | src/energy_flex_trust/service.py:96-137 | The same for create_offer |
| `Service.CoordinationService.ReserveOffer` | src/energy_flex_trust/service.py:139-198 | The same for reserve_offer, with roll-back of the offer when the reservation is refused |
| `Service.CoordinationService.IssueDispatch` | src/energy_flex_trust/service.py:200-288 | The same for issue_dispatch, with roll-back of the dispatch when the outbox refuses |
| `Service.CoordinationService.EnqueueDispatch` | src/energy_flex_trust/outbox.py:114-133 | Adds a pending message available now, or refuses a blank or used key |
| `Service.CoordinationService.RecordMeterReading` | src/energy_flex_trust/service.py:290-336 | The same for record_meter_reading; a known fingerprint returns the stored reading |
| `Service.CoordinationService.SettleReservation` | src/energy_flex_trust/service.py:338-458 | The same for settle_reservation |
| `Service.CoordinationService.SaveSettlement` | src/energy_flex_trust/service.py:406-457 | Writes the row, then the event, then the manifest naming the event, as one settlement |
| `Service.CoordinationService.SettlementEvidence` | src/energy_flex_trust/service.py:460-479 | Three roles may read; reports manifest, stored hash and whether it still matches |
| `Service.CoordinationService.AuditVerification` | src/energy_flex_trust/service.py:481-483 | Only an auditor may ask; reports the verdict on the stored log |
| `Service.CoordinationService.FindResource` | src/energy_flex_trust/service.py:527-551 | Blank key, unseen key, same request, other request and missing resource are told apart |
| `Worker.OutboxWorker.ClaimOne` | src/energy_flex_trust/outbox.py:201-246 | Leases the earliest ready message, by available_at, created_at and id, under a new token, or does nothing exactly when none is ready |
| `Worker.OutboxWorker.FinishSuccess` | src/energy_flex_trust/outbox.py:248-284 | Publishes message, dispatch and reservation together with the event if the lease is held; changes nothing otherwise |
| `Worker.OutboxWorker.FinishFailure` | src/energy_flex_trust/outbox.py:286-327 | Reschedules, or kills message, dispatch and reservation with the event, if the lease is held; changes nothing otherwise |
| `Worker.OutboxWorker.RunOnce` | src/energy_flex_trust/outbox.py:171-199 | The loop does and reports what the batch specification says, for any destination given by its answers call by call; a limit below one is refused |
| `Worker.NewWorker` | src/energy_flex_trust/outbox.py:144-169 | Settings out of range are refused |
| `Worker.AuthorizeDeadDispatchRedrive` | src/energy_flex_trust/redrive.py:27-134 | Answers and changes the database as the re-drive function says; an error changes nothing |
| `Publishers.FaultInjectingDispatchPublisher.Publish` | src/energy_flex_trust/ports.py:59-73 | Counts the call, raises on the first N, then hands over to the delegate |

## Left out

- PayloadRoundTrip: decimals are read back from fixed-point text only; exponents, underscores, infinities and NaN in foreign payloads count as unreadable.
- IsoText: an instant is written as a number of microseconds with the UTC offset, not as calendar text; only that the text determines the instant is used.
- ReadValue: reads what the canonical printer can print (no white space, fractions, exponents or surrogate escapes); floats, nested model objects and `str()` fallbacks do not occur in the payloads.
- TextDecidesValue: assumes distinct names inside each object, which every Python dict has.
- Restore: a nested container stored under a payload field has no `str()` text here.
- ZonedText: a dumped datetime is a number of microseconds and its offset, not calendar text; only that the text determines both is used.
- ReachableInv: races inside a transaction, isolation levels and row locks are not modelled.
- AttemptsCanExceed: the witness runs use crashes between claim and publish; other crash points are in the machine but not needed.
- Schema limits on text lengths, time zones that are required but absent, and column widths of text columns (a too long adapter reference would be refused by the server).
- Columns `created_at` other than the outbox's, `received_at`, `response_snapshot` and `resource_type`: written once and never read by the modelled code.
- Sequence numbers that a rolled-back insert leaves unused; the model numbers events without gaps.
- HTTP routes, OIDC and role mapping, configuration, CLI, worker process and shutdown, migrations and SQL grants.
- A negative failure count for the fault injector, which its constructor refuses: the count is a natural number here.
- Ed25519 and base64: keys, signatures and their decoding are one arbitrary predicate.
- The OpenADR adapter, the dashboard, demo data, SBOM and recovery-drill scripts.
- CheckpointPinsRows: adapter references of dispatches and the columns of outbox messages are not pinned by it; `DeliveryRecords.DeliveriesShown` says which event each shows.
- The quantity chain target <= reserved <= offered <= capacity: carried as part of the table invariant only.
- Claims the code does not keep are not made: a dead message may have had an external effect, `due` is not the number of claimable messages, `retried` also counts stale failures of concurrent workers, one reading can be paid in several settlements (`DoublePayment.ReadingPaidTwice` shows it, `Payments.PaidTwice` and `Payments.SettlementsIndependent` say when), and offers of one asset may add up beyond its capacity.

# Verification of the RentAsst-Tally middleware

A Dafny model of the synchronisation middleware between RentAsst and Tally Prime, with
proofs about whole runs of it. `dafny verify dfyconfig.toml` checks everything.

## Main results

- **Mutual exclusion, one voucher per marker, one rentout per voucher** in every reachable
  state of the two-way protocol, with crashes anywhere: `ProtocolTheorems.MutualExclusion`,
  `OneVoucherPerMarker`, `OneRentoutPerVoucher`; and for any step at all, assumed or not,
  exactly when it breaks the last two: `StepBreaksMarkersIff`, `StepBreaksRentoutsIff`.
- **One voucher per record**: two living vouchers of one record carry its two markers
  (`ProtocolItems.TwoVouchersAreThePair`); a step makes the second exactly when a create
  lands while the other marker lives (`StepDoublesItemIff`), so a run keeps to one exactly
  when no step is such a create (`OneVoucherPerRecordIff`), and always when Tally leaves
  no identifier stuck (`NeverStuckNeverTwo`).
- **Ping-pong**: whatever forward sync pushes as the copy of a living voucher it let
  through on a mapping to a dead one (`NoPingPong`), exactly when no copy passes
  (`CopyIsStoppedIff`), and exactly when the guard's own oracle lets one pass
  (`OwnOraclePushesIff`); while no number is reused, no such copy is pushed at all
  (`ProtocolNumbers.FreshNumbersNoCopies`).
- **Runs that break each hypothesis**: `ProtocolDepartures` and `ProtocolCopies`.
- **The cloud duplicate test**, on the characters of the listed rentouts:
  `ProtocolCloud.ListDecidesIff`, and when the notes reverse sync posts suffice for it:
  `PostedNotesSuffice`, `PostedNotesFailIff`.
- **The mapping cache**: answers at most 300 seconds old under foreign writers, and current
  without them: `CacheRefinement.AnswersAreRecent`, `AnswersAreCurrent`.
- **The pipeline**: what a pass pushes, read off the table it began with
  (`PipelineFixpoint.PassPushesIff`), which records it waits for (`PassWaitsForParents`),
  what rows it saves (`SavedRowNames`), a quiet second pass (`SecondPassIsQuiet`) and
  exactly when it repeats a push (`SavedIsPushedAgainIff`), and conservation of counts, locks and dead letters
  (`Pipelines.SyncPipeline.RunSyncPipeline`).
- **The queue** over every run with crashes: bounded claims, one active job per key, no
  early claim, a letter for every dead job, exactly what status a thread's report earns,
  and exactly when a terminal job revives: `QueueLife.ClaimsAreBounded`,
  `OneActiveJobPerKey`, `PutOffIsHonoured`, `DeadJobsHaveLetters`, `ReportDecidesIff`,
  `TerminalLeavesIff`; and requeueing resolves exactly the newest
  letter of each free key: `DeadLetters.DeadLetterStore.RequeueAllDeadLetters`.
- **Retry delays**: exactly when a later attempt may wait less:
  `Backoff.MayShrinkIff`, `CapMayShrinkIff`.
- **Double entry**: exactly when order and invoice vouchers balance and ledgers meet their
  lines: `OrderVoucher.OrderBalancesIff`, `InvoiceVoucher.BalanceIsClashAndSlip`,
  `InvoiceBalancesIff`, `MixedHeadsUnbalance`, `IncomeLedgerNearLines`, and
  `InvoiceValidation.RoundOffIsBounded`; and which head carries what tax:
  `InvoiceVoucher.UnsplitTaxIsPlaced`, `BreakdownIsPrinted`,
  `OrderVoucher.RatedTaxIsPercentage`.
- **Leases** over every run of the lock table: `Locks.LeaseExcludes`, `RefusedIff`.
- **Tally's modes and existence cache** over any calls: `TallyClients.ImportsAreBounded`,
  `AbsenceIsLastReply`; **Create or Alter** exactly as Tally last said:
  `CreateIffToldAbsent`; **duplicated items**: `Backfill.DuplicatedIff`.

## What is modelled

**The two-way sync protocol** (`protocol*.dfy`, `locks.dfy`, `markers.dfy`). Forward
workers (RentAsst to Tally) and reverse workers (Tally to RentAsst) share one lock table
and one mapping table; Tally and RentAsst are servers whose users add and delete records
at any moment. Each table operation and each remote call is one step, and any worker may
crash between any two steps. `Protocol.Enabled` is the program order of the code and what
the tables determine; `Protocol.Assumed` is what the theorems ask of the world; a state is
`Reachable` when a run of assumed steps from a fresh installation ends in it. The
assumptions are:

- each critical section ends within its lease;
- the ids of one fetch are distinct, and numeric where they come from RentAsst;
- the guard's oracle, Tally's existence reply and RentAsst's existence reply are truthful
  or err towards "present";
- the cloud list succeeds, is complete, and an adopted mapping is saved;
- the mapping a voucher is looked up under is the table's own, which a store filled inside
  the section, or the only store, answers (`StoreLookupIsCurrent`);
- RentAsst numbers are digits; a number is reused only once its record is gone;
- Tally GUIDs are never reused and are not plain numbers;
- voucher numbers to be imported are not blank, identify their voucher, and match no
  rentout of a user; users write no RENTAL- narrations;
- users never change a rentout's notes or number, or a voucher's number or narration:
  there is no edit step.

They are not idle: `protocol_departures.dfy` and `protocol_copies.dfy` give runs where a
single lapsed lease, repeated id, failed cloud list, stale mapping or untruthful guard
oracle breaks a theorem.

**The mapping store and its cache** (`mapping_table.dfy`, `cache.dfy`,
`mapping_store.dfy`, `cache_refinement.dfy`). Classes over the table as a map, proved
against relations, and runs of one store with other stores writing.

**The forward pipeline** (`pipeline*.dfy`). `run_sync_pipeline` as nested loops over the
store, its cache and the lock manager. Under a coherent cache its pass is a pass of
`PipelineModel`, about which the second-pass theorem is proved. `sync_func` is a method
whose precondition is the held lock; it is reached only past the dependency check.

**The job queue** (`queue_table.dfy`, `queue_store.dfy`, `queue_life.dfy`,
`dead_letters.dfy`, `backoff.dfy`). The store as a class over the sequence of rows, with
the partial unique index checked on every commit, and runs of API calls, pool threads,
crashes and recoveries.

**Voucher amounts** (`amounts.dfy`, `order_voucher.dfy`, `invoice_voucher.dfy`,
`invoice_validation.dfy`, `rounding.dfy`). Exact rationals in paise; printing and `round`
go to the nearest whole paisa, halves to even.

**Tally's learned modes** (`tally_client.dfy`), **the three-strike backfill rule**
(`backfill.dfy`), **reconciliation** (`reconciliation.dfy`; the five reports
share one algorithm with five rules, which the code writes out five times) and **customer
deduplication** (`customer_dedupe.dfy`).

## Where the code departs from its own description

- The guard's oracle compares narrations, stripped and lower-cased, with a GUID
  (`app/connectors/tally/client.py:47-56`, `:251-259`), so it answers "gone" for a living
  voucher: `OwnOraclePushesIff` says exactly when, `OwnOracleCopies` is the run.
  `NoPingPong` assumes a truthful oracle.
- The guard's ranked lookup may pick the mapping of an earlier life of a reused number,
  drop it, and push the order of the present life back (`app/sync/base.py:175-202`):
  `ReusedNumberCopies` is the run, with every assumption met, and `CopyIsStoppedIff` the
  exact condition.
- The `-R2` marker is not recognised as the middleware's own (`SentVoucherIsForeignIff`),
  and the client asks about the marker it is to write, never about the other one. So an
  order may end with both a plain and a `-R2` voucher, either first: `FallbackDoubles`,
  where the second also comes back to RentAsst as a new order, and `PlainBesideFallback`
  are the runs, `StepDoublesItemIff` and `OneVoucherPerRecordIff` the exact conditions.
- An order's identifier is its plain marker (`app/sync/base.py:97-98`), so one that Tally
  holds only under `-R2` is pushed again by every pass: `SavedIsPushedAgainIff`.
- A voucher whose number starts with a space is not found again by the notes its own
  rentout was posted with (`app/sync/tally_to_rentasst.py:523`, `:1201`):
  `PostedNotesFailIff`.
- A non-200 reply, and a cached earlier answer, read as "absent": `AbsenceIsLastReply`.
- A store whose cached mapping is stale drops the current one and imports the voucher
  again, with no lease lapsing: `StaleMappingDuplicates`.
- The backfill is said never to duplicate items once they exist
  (`app/sync/tally_to_rentasst.py:1273-1278`), but a failed list call counts as no items
  (`:1302-1306`): `AddsToItemsIff`, `DuplicatedIff`, `ItemsDuplicated`. Its three strikes
  need not be in a row, although the comments at `:1333-1338` say so: `GivenUpIff`.
- `delete` clears one company's cached key only: `DeleteLeavesOtherCompaniesStale`.
- Marks have no status guard, so a cancelled running job comes back: `TerminalLeavesIff`,
  `CancelledComesBack`. If its key has been taken and all its items failed, the refused
  retry is itself an exception and dead-letters it: `CancelledIsDeadLettered`. `mark_dlq`
  drops the company: `MarkDlq`.
- The invoice's ledger and its lines use different fallbacks: `IncomeLedgerNearLines`.
  Invoice entries need not sum to zero when the totals are not whole paise, nor when tax
  heads have opposite signs: `BalanceIsClashAndSlip`. An accepted Round Off can exceed
  1.00: `RoundOffIsBounded`.
  With tax heads in fractions of a paisa it can reach 1.02:
  `HalfPaiseHeadReachesTwoMore`.
- An order or invoice whose lines have no positive total still prints them beside the
  header amount: `HeaderOnlyLedger`, `HeaderOnlyIncome`. An order without a rate can be a
  paisa out: `UnratedOrderSlips`, `OrderBalancesIff`.
- Backoff need not grow: with jitter it may shrink at the cap, and below it when the
  jitter is large: `MayShrinkIff`, `CapMayShrinkIff`.

## Model

| member | source | states |
|---|---|---|
| Markers.MarkerRoundTrip | app/sync/tally_to_rentasst.py:430-445 | reverse sync parses a plain RENTAL marker back to the kind and id forward sync wrote if and only if the id is numeric, and recognises no other tight one |
| Markers.RetryMarkerIsNotRecognised | app/connectors/tally/client.py:526 | the -R2 fallback marker is never recognised by reverse sync, whatever the id |
| Markers.MarkersAreInjective | app/sync/base.py:92-102 | records with numeric ids never share a marker, plain or fallback |
| Markers.IdentifierIsMarker | app/sync/base.py:74-103 | extract_identifier returns, for every spelling of a voucher type, the plain marker the voucher is created under |
| Locks.LockManager.PurgeExpiredLocks | app/queue/lock_manager.py:30-35 | removes exactly the expired rows and counts them |
| Locks.LockManager.AcquireLock | app/queue/lock_manager.py:37-73 | succeeds exactly when key and worker are given and no live lease holds the key; the row written carries the caller and now plus the lease; a refusal changes nothing |
| Locks.LockManager.ReleaseLock | app/queue/lock_manager.py:75-82 | deletes the row exactly when the caller owns it |
| Locks.LeaseExcludes | app/queue/lock_manager.py:30-82 | over every run without the owner's release and before the expiry, the granted lease stays as written and nobody can acquire the key; other workers' releases and purges never remove it |
| Locks.RefusedIff | app/queue/lock_manager.py:30-82 | after any run from an empty table an acquire is refused if and only if some acquire of the key was granted, its owner has not released it since, and its lease has not run out |
| Locks.KeysSeparateRecords | app/queue/lock_manager.py:17-28 | equal lock keys of one company, entity and direction mean equal trimmed record ids |
| MappingTable.UpsertThenLookup | app/mapping/store.py:28-97 | saving keeps rows under their own keys and integration keys unique; the saved row is what a lookup of its id returns and colon-free lookups of other ids do not change |
| MappingTable.BestIsLookup | app/mapping/store.py:158-187 | for a colon-free id the ranked SELECT has one possible answer: the row stored under that id |
| Cache.TTLCache.Get | app/utils/cache.py:16-24 | answers the unexpired value and drops an expired entry |
| Cache.TTLCache.Set | app/utils/cache.py:26-30 | stores the value with expiry now plus the TTL |
| Cache.TTLCache.Invalidate | app/utils/cache.py:32-34 | removes the key |
| MappingStores.MappingStore.SaveMapping | app/mapping/store.py:28-97 | upserts and clears the cached id, or, when another row carries the integration key, refuses and leaves table and cache as they were |
| MappingStores.MappingStore.FindMapping | app/mapping/store.py:158-187 | answers from the cache while the entry lives, otherwise a best-versioned row of the table, which it caches |
| MappingStores.MappingStore.PrefetchMappings | app/mapping/store.py:118-156 | caches every matching row under its own id with a full TTL and touches nothing else |
| MappingStores.MappingStore.FindByTarget | app/mapping/store.py:189-210 | a best-versioned row whose target, external id or GUID matches, or none exactly when no row does |
| MappingStores.MappingStore.FindByIntegrationKey | app/mapping/store.py:99-116 | a row with that key, or none exactly when there is none or the key is blank |
| MappingStores.MappingStore.Delete | app/mapping/store.py:212-232 | deletes the rows whose rentasst_id or source_id matches, whatever their company, and clears only the default company's cached key |
| MappingStores.MappingStore.IsDuplicate | app/mapping/store.py:234-249 | true exactly when the mapping found is synced with the same non-blank hash |
| CacheRefinement.AnswersAreRecent | app/mapping/store.py:118-187 | in every run, with other stores writing anything at any time, each colon-free find_mapping answer was the table's answer within the last 300 seconds, and an answer of no mapping is current |
| CacheRefinement.AnswersAreCurrent | app/mapping/store.py:28-97 | when all writes of the default company go through this store, each answer is the current row |
| CacheRefinement.DeleteLeavesOtherCompaniesStale | app/mapping/store.py:226-232 | after delete() a cached live entry still answers if and only if its company is not the default one |
| CacheRefinement.KeyIsUnambiguous | app/mapping/store.py:160-163 | the cache key of a colon-free query is the key of no other query |
| Protocol.KeysAreGenerated | app/queue/lock_manager.py:17-28 | the protocol's four keys are those generate_lock_key and generate_integration_key build |
| ProtocolLocks.LeasesKept | app/sync/base.py:249-257 | every protocol step keeps: a worker inside a critical section holds its live lease |
| ProtocolTally.TallyKept | app/connectors/tally/client.py:226-284 | every protocol step keeps: markers are unique in Tally, and a worker about to create knows its marker is absent |
| ProtocolRentouts.RentoutsKept | app/sync/tally_to_rentasst.py:450-546 | every protocol step keeps: one live rentout per voucher, a voucher's mapping names its live rentout, and every imported rentout looks as posted; numbers may be reused |
| ProtocolPing.PingKept | app/sync/base.py:169-238 | every protocol step keeps: what forward sync has in hand or ever pushed as a copy of a voucher it let through on a mapping to a dead voucher |
| ProtocolPing.GuardedItemIsExcused | app/sync/base.py:186-238 | a copy of a voucher passes the guard only by dropping a mapping to a dead voucher; a lost mapping leaves it the notes that stop it |
| ProtocolRentouts.PostedRentoutMatches | app/sync/tally_to_rentasst.py:523-530 | the rentout posted for a numbered voucher passes the cloud test for that voucher |
| ProtocolCloud.ListDecidesIff | app/sync/tally_to_rentasst.py:512-546 | with a complete list the voucher is a duplicate if and only if the trimmed number of some living rentout is the voucher's, alone or after ORD-, or its trimmed notes end in # and the number or hold the trimmed GUID, and its mapping is saved; that mapping is then the only new row; otherwise it is pushed and the table is as it was |
| ProtocolCloud.PostedNotesSuffice | app/sync/tally_to_rentasst.py:523 | the posted notes alone make the voucher a duplicate, whatever the rentout's number, unless the voucher's number starts with a space |
| ProtocolCloud.PostedNotesFailIff | app/sync/tally_to_rentasst.py:1201 | they fail to if and only if the number starts with a space and is not all spaces |
| ProtocolCloud.PostedNumber | app/sync/tally_to_rentasst.py:1183 | a posted rentout bears the voucher's number, or ORD- and the first eight characters of its GUID, never a blank |
| ProtocolCloud.NumberIsMappedIff | app/sync/tally_to_rentasst.py:493-510 | the lookup by number finds a mapping if and only if the number is not blank and some order mapping's Tally name is it, alone or after RENT- or ORD- |
| ProtocolTheorems.GuardIsPipelines | app/sync/base.py:186-238 | the protocol's guard step skips exactly when the pipeline's guard does |
| ProtocolTheorems.SavedRowIsPipelines | app/sync/base.py:352-363 | the mapping row a protocol step saves is the row the pipeline saves |
| ProtocolTheorems.MutualExclusion | app/queue/lock_manager.py:37-81 | in every reachable state two workers in one record's section are the same worker |
| ProtocolTheorems.OneVoucherPerMarker | app/connectors/tally/client.py:535-590 | in every reachable state, whatever the interleaving and crashes, live vouchers with the same RENTAL marker are the same voucher |
| ProtocolTheorems.OneRentoutPerVoucher | app/sync/tally_to_rentasst.py:1270-1418 | in every reachable state live rentouts created from the same voucher are the same rentout |
| ProtocolTheorems.OwnVouchersStayOut | app/sync/tally_to_rentasst.py:416-447 | no rentout was ever created from a voucher carrying a plain forward marker |
| ProtocolTheorems.NoPingPong | app/sync/base.py:169-238 | in every reachable state, what forward sync has in hand or ever pushed as the copy of a living voucher it let through on a mapping to another voucher, a dead one |
| ProtocolTheorems.CopyIsStoppedIff | app/sync/base.py:169-202 | in every reachable state, a fetched copy of a voucher is stopped whatever the guard looks up if and only if every mapping its lookup may pick names a living voucher |
| ProtocolTheorems.StepBreaksMarkersIff | app/connectors/tally/client.py:535-569 | any step of any party, assumed or not, leaves two living vouchers with one marker if and only if it adds a voucher whose marker a living one carries |
| ProtocolTheorems.StepBreaksRentoutsIff | app/sync/tally_to_rentasst.py:1383-1405 | any step of any party, assumed or not, leaves two live rentouts of one voucher if and only if it pushes the voucher's rentout while another lives |
| ProtocolTheorems.StoreLookupIsCurrent | app/mapping/store.py:158-187 | the mapping a store answers by guid is the table's own when the store has no live cache entry for it or its cache is coherent, so the one-rentout theorem covers such stores |
| ProtocolTheorems.SentVoucherIsForeignIff | app/connectors/tally/client.py:526-533 | a voucher forward sync just created counts as foreign to reverse sync if and only if it carries the -R2 marker |
| ProtocolItems.StampsKept | app/connectors/tally/client.py:489-533 | every protocol step keeps: what forward sync pushed carries one of its record's two markers, and what users entered carries none |
| ProtocolItems.TwoVouchersAreThePair | app/connectors/tally/client.py:489-533 | in every reachable state two living vouchers of one record carry its plain and its -R2 marker, and there is no third |
| ProtocolItems.StepDoublesItemIff | app/connectors/tally/client.py:519-569 | any step of any party, assumed or not, gives a record its second living voucher if and only if it is a create that lands while a living voucher carries the record's other marker |
| ProtocolItems.OneVoucherPerRecordIff | app/connectors/tally/client.py:489-569 | in every assumed run no record ever has two living vouchers if and only if no step of it is such a create |
| ProtocolItems.NeverStuckNeverTwo | app/connectors/tally/client.py:519-533 | in every assumed run without a stuck rejection a record ends with at most one living voucher |
| ProtocolNumbers.FreshNumbersNoCopies | app/sync/base.py:169-238 | in every assumed run that never gives an order number a second record, nothing forward sync has in hand or ever pushed is a copy of a living voucher |
| ProtocolTheorems.OwnOraclePushesIff | app/sync/base.py:186-202 | with check_exists itself as the guard's oracle, a mapped imported order whose lock is free reaches Tally while its source lives if and only if no living narration, stripped and lower-cased, spells the source GUID |
| ProtocolDepartures.LapsedLeaseDuplicates | app/sync/base.py:249-257 | a run in which only one clock tick outlasts a lease ends with two vouchers under one marker |
| ProtocolDepartures.RepeatedIdDuplicates | app/connectors/tally/client.py:226-271 | a run in which only the fetch repeats an id ends with two vouchers under one marker, the client's cache answering for the second |
| ProtocolDepartures.FailedListDuplicates | app/sync/tally_to_rentasst.py:543-546 | a run in which only one cloud list fails, after a crash lost the mapping, ends with two live rentouts of one voucher |
| ProtocolDepartures.MappingLost | app/sync/tally_to_rentasst.py:1383-1405 | a crash between the push and the save leaves a live rentout without a mapping |
| ProtocolRuns.Import | app/sync/tally_to_rentasst.py:450-546 | in every sound state a waiting foreign voucher without a live rentout can be imported by a worker's own assumed steps, ending in the stated tables |
| ProtocolCopies.ReusedNumberCopies | app/sync/base.py:175-202 | a run of assumed steps in which a reused order number lets a copy of a living voucher into Tally on the mapping of the number's first life |
| ProtocolCopies.OwnOracleCopies | app/sync/base.py:186-202 | a run in which only the guard's oracle is the code's own ends with a copy of a living voucher in Tally |
| ProtocolCopies.StaleMappingDuplicates | app/sync/tally_to_rentasst.py:473-491 | a run in which only one cached mapping is stale ends with two live rentouts of one voucher |
| ProtocolCopies.FallbackDoubles | app/connectors/tally/client.py:489-533 | a run of assumed steps after which one order has a plain and a -R2 voucher, and the -R2 one has come back as another order |
| ProtocolCopies.PlainBesideFallback | app/connectors/tally/client.py:519-569 | a run of assumed steps in which an order that Tally holds under -R2, its mapping saved, is created again under the plain marker by the next pass |
| Backfill.BackfillItems | app/sync/tally_to_rentasst.py:1277-1375 | one cycle of the backfill: its outcome, its rows and the items the rentout then has are those of the table function when the cache is coherent |
| Backfill.AddsToItemsIff | app/sync/tally_to_rentasst.py:1273-1309 | a cycle adds lines to a rentout that has items if and only if it is not given up, the list call failed and the pushed lines landed |
| Backfill.DuplicatedIff | app/sync/tally_to_rentasst.py:1273-1309 | after any cycles a rentout has more than one copy of the lines if and only if one of them was such a cycle, so never while every list call answers |
| Backfill.ItemsDuplicated | app/sync/tally_to_rentasst.py:1302-1309 | a filled rentout whose list call fails in the next cycle has every line twice |
| Backfill.GivenUpIff | app/sync/tally_to_rentasst.py:1326-1365 | after any cycles the rentout is given up if and only if at least three failed, in a row or not |
| QueueTable.NormalizeIsIdempotent | app/queue/queue_store.py:8-22 | normalising an entity type twice changes nothing more |
| QueueTable.RawTestIsRedundant | app/queue/queue_store.py:49-59 | on normalised tables the extra raw-type test finds no job the normalised test does not |
| QueueTable.EnqueueKeepsIndex | app/queue/queue_store.py:31-73 | enqueue never trips the unique index; on normalised tables it inserts if and only if no active job has the company and normalised type |
| QueueTable.MarkActiveRefusedIff | app/queue/queue_store.py:118-168 | a mark that writes an active status is refused if and only if another active job has the key, which means the job had become inactive |
| QueueTable.BulkRetryRefusedIff | app/queue/queue_store.py:297-309 | retry_failed_jobs is refused as a whole if and only if two rows it would revive, or one and an active row, share a key |
| QueueTable.RecoveryAccepted | app/queue/queue_store.py:201-259 | recovery never trips the index |
| QueueTable.RecoveryIff | app/queue/queue_store.py:214-259 | recovery touches a row if and only if it was running and started, if ever, at least the threshold ago; it is dead if that was its last attempt and due at once otherwise |
| QueueTable.EnqueuedIsDue | app/queue/queue_store.py:31-73 | a job is due as soon as it is enqueued, with or without priority, with three attempts ahead |
| QueueTable.SpellingsShareKeyIff | app/queue/queue_store.py:8-22 | two spellings of an entity type share the queue's key if and only if, trimmed and lower-cased, they are the same or aliases of one type |
| QueueStores.QueueStore.Enqueue | app/queue/queue_store.py:31-73 | appends one pending job and returns its id, or returns None and changes nothing, as the active jobs decide |
| QueueStores.QueueStore.ClaimNextJob | app/queue/queue_store.py:75-116 | claims the first due job in id order, or none exactly when nothing is due |
| QueueStores.QueueStore.MarkWaitingForDependency | app/queue/queue_store.py:118-135 | parks the job for the delay, or raises and changes nothing when its key is busy |
| QueueStores.QueueStore.MarkRetrying | app/queue/queue_store.py:151-168 | counts the attempt and parks the job for the delay, or raises and changes nothing when its key is busy |
| QueueStores.QueueStore.MarkSuccess | app/queue/queue_store.py:137-149 | writes the final status whatever the status was |
| QueueStores.QueueStore.MarkDlq | app/queue/queue_store.py:170-199 | counts the attempt, moves the job to DLQ whatever its status was, and adds its letter |
| QueueStores.QueueStore.RecoverCrashedJobs | app/queue/queue_store.py:201-268 | expired locks are purged and counted; every stale running job is retried or, out of attempts, dead-lettered, others are untouched; the returned counts are exact |
| QueueStores.QueueStore.CancelJob | app/queue/queue_store.py:270-282 | cancels exactly an active job |
| QueueStores.QueueStore.RetryFailedJobs | app/queue/queue_store.py:297-309 | revives every failed row and returns their number, or raises and changes nothing exactly when two of them, or one and an active row, share a key |
| QueueLife.ClaimsAreBounded | app/queue/worker.py:28-101 | in every run, with crashes, recoveries and cancels, a job is claimed at most three times plus once per dependency wait since it was enqueued or revived, and an active job has an attempt left |
| QueueLife.OneActiveJobPerKey | app/queue/queue_store.py:49-73 | in every run of all queue operations active jobs with the same company and type are the same job, and types stay normalised |
| QueueLife.NeverClaimedEarly | app/queue/queue_store.py:75-89 | a job parked until a time is claimed in no run that ends before it |
| QueueLife.PutOffIsHonoured | app/queue/worker.py:66-101 | in every run, a job put off by a retry or a dependency wait while its key is free is not claimed again before its whole delay has passed |
| QueueLife.DeadJobsHaveLetters | app/queue/queue_store.py:170-199 | in every run, every job in DLQ has the dead letter of its last error |
| QueueLife.ReportJob | app/queue/worker.py:46-101 | the end of _process_job over the store: the marks it calls, a refused retry of an all-failed job included, leave the table and the letters of the Finish step |
| QueueLife.ReportDecidesIff | app/queue/worker.py:41-101 | in every run a report without failures earns SUCCESS, one with both failures and successes PARTIAL_SUCCESS, and for a free key DLQ if and only if nothing succeeded and the error is permanent or the attempts are spent, RETRYING if and only if nothing succeeded and they are not, waiting if and only if a dependency is missing; with the attempts, error, due time and letter of each |
| QueueLife.TerminalLeavesIff | app/queue/worker.py:28-101 | a terminal job leaves its state if and only if a thread that was running it when it was cancelled reports back, unless it would put it back over a key taken meanwhile and its items did not all fail, or retry_failed_jobs revives it without a clash |
| QueueLife.CancelledComesBack | app/queue/queue_store.py:151-168 | a run in which a cancelled job is brought back to RETRYING by the thread still running it |
| QueueLife.CancelledIsDeadLettered | app/queue/worker.py:46-75 | a run in which a cancelled job whose key has been taken goes to DLQ, with one attempt more and a letter, because its all-failed retry is refused |
| Backoff.DelayIsNearPlain | app/retry/engine.py:36-63 | every delay is at least a second and within the jitter of the capped exponential, and equals it without jitter |
| Backoff.MayShrinkIff | app/retry/engine.py:46-63 | for any jitter and on either side of the cap, the next attempt may wait less than this one if and only if its shortest draw is below this one's longest |
| Backoff.BackoffGrows | app/retry/engine.py:46-63 | so with jitter at most a third, below the cap, it never does |
| Backoff.CapMayShrinkIff | app/retry/engine.py:50-63 | at the cap it may if and only if the jitter is worth more than half a second, or half a second on an odd cap |
| Backoff.MoreJitterCanShrink | app/retry/engine.py:53-63 | with jitter one half it may below the cap too |
| Backoff.DefaultBackoff | app/retry/engine.py:18-63 | as installed the first delay is four to six seconds, no attempt may wait less than the one before, and there is none after the fifth |
| DeadLetters.DeadLetterStore.RequeueDeadLetter | app/mapping/store.py:424-450 | an unknown id changes nothing; a letter is resolved exactly when its job was enqueued, on normalised tables exactly when its key has no active job, and then the key has one |
| DeadLetters.DeadLetterStore.RequeueAllDeadLetters | app/mapping/store.py:462-468 | on normalised tables the count is the number of distinct keys among the listed letters with no active job before; for each exactly the newest letter becomes resolved, and all others are unchanged |
| DeadLetters.DeadJobRequeued | app/mapping/store.py:424-450 | requeueing the letter of a dead job whose key is free brings it back with its type and payload and under its entity id or number, due at once, but for the default company |
| OrderVoucher.BuildOrderVoucher | app/connectors/tally/sales_voucher.py:89-206 | the item loop and the three tax branches produce the voucher of the amounts function |
| OrderVoucher.OrderBalances | app/connectors/tally/sales_voucher.py:113-139 | for any rational amounts, in every branch, the printed ledger entries sum to within a paisa of zero and CGST and SGST differ by at most one |
| OrderVoucher.OrderBalancesIff | app/connectors/tally/sales_voucher.py:113-139 | on every branch they sum to zero exactly: with a rate, unless the subtotal is half-way between two paise and the tax odd; without one, when no tax is left over or the rounding rests of header and lines are less than half a paisa apart, or just half a paisa and the printed tax even; without lines, always |
| OrderVoucher.UnratedOrderSlips | app/connectors/tally/sales_voucher.py:117-122 | a header of 100.5 and a line of 99.6 paise, without a rate, sum to a paisa |
| OrderVoucher.RateIsFirstUsable | app/connectors/tally/sales_voucher.py:327-350 | the rate is the first field that holds a positive number, and zero if none does |
| OrderVoucher.RatedTaxIsPercentage | app/connectors/tally/sales_voucher.py:113-116 | the printed CGST and SGST come to that percentage of the lines' total to within half a paisa, in halves, and the party is charged the total with them |
| OrderVoucher.UnratedTaxIsRest | app/connectors/tally/sales_voucher.py:117-132 | without a rate they come to what the header has over the lines, if anything |
| OrderVoucher.OneLineOrder | app/connectors/tally/sales_voucher.py:89-111 | an order of one line prints the line's total, or else its price times the quantity it has, as sales and as inventory |
| OrderVoucher.WholeOrderBalances | app/connectors/tally/sales_voucher.py:113-139 | for whole-paise amounts they sum to zero in every branch |
| OrderVoucher.SalesLedgerNearLines | app/connectors/tally/sales_voucher.py:89-111 | with a positive total the sales ledger is within (n+1)/2 paise of its n inventory lines, and equals them for whole paise |
| OrderVoucher.HeaderOnlyLedger | app/connectors/tally/sales_voucher.py:89-139 | without a positive line total, and for whole paise, ledger and lines agree if and only if the header amount equals the lines' total, so never for a positive header |
| InvoiceVoucher.BuildInvoiceVoucher | app/connectors/tally/sales_voucher.py:373-434 | the subtotal, tax-head and line loops and the branches produce the voucher of the amounts function |
| InvoiceVoucher.BreakdownIsPrinted | app/connectors/tally/sales_voucher.py:531-553 | with a breakdown, from the header or else from the rounded sums over the lines, each printed head is within half a paisa of that same head, and zero for one that is not positive |
| InvoiceVoucher.UnsplitTaxIsPlaced | app/connectors/tally/sales_voucher.py:554-580 | without one, states that are both known and differ put the whole tax, stated or left over, on IGST; otherwise IGST is zero and CGST and SGST make up the tax, each within half a paisa of half |
| InvoiceVoucher.BalanceIsClashAndSlip | app/connectors/tally/sales_voucher.py:528-593 | for any rational totals and any whole tax heads of either sign, the entries sum to the smaller of what the positive and the negative heads come to, plus a rounding slip of at most a paisa |
| InvoiceVoucher.InvoiceBalancesIff | app/connectors/tally/sales_voucher.py:528-593 | for whole non-negative heads and any totals they sum to within a paisa of zero, and to zero if and only if the rounding rests of grand total and subtotal are less than half a paisa apart, or just half a paisa and what is left for the Round Off is even |
| InvoiceVoucher.WholeInvoiceBalances | app/connectors/tally/sales_voucher.py:528-593 | for whole-paise totals and whole non-negative heads every invoice voucher sums to zero |
| InvoiceVoucher.FallbackSplitIsEven | app/connectors/tally/sales_voucher.py:560-572 | in the even split CGST and SGST differ by at most a paisa, for any amounts |
| InvoiceVoucher.MixedHeadsUnbalance | app/connectors/tally/sales_voucher.py:531-553 | for whole totals and any whole heads the voucher is off by exactly the clash, so balanced if and only if no head is positive while another is negative |
| InvoiceVoucher.IncomeLedgerNearLines | app/connectors/tally/sales_voucher.py:393-499 | when the lines have a positive pre-tax total, the income ledger is off its n lines by the gaps of the lines that print a grand total for want of a total_price, to within (n+1)/2 paise; for whole lines the two agree if and only if the gaps cancel |
| InvoiceVoucher.HeaderOnlyIncome | app/connectors/tally/sales_voucher.py:393-499 | when they have none, it is off by what the lines print less the header amount, to within (n+1)/2 paise; for whole paise the two agree if and only if these are equal |
| InvoiceVoucher.OneLineInvoice | app/connectors/tally/sales_voucher.py:373-499 | an invoice of one line has its total_price, or else price times quantity or one, as income, and prints that, or for want of a total_price its grand total |
| InvoiceValidation.ValidateInvoice | app/validation/validator.py:68-151 | the verdict, and which check failed, is that of the judging function |
| InvoiceValidation.ItemlessIsAcceptedIff | app/validation/validator.py:68-151 | an itemless payload with subtotal and tax is accepted if and only if they and the charges less the discount come within 1.00 of a grand total that is positive or on a credit note |
| InvoiceValidation.ItemisedIsAcceptedIff | app/validation/validator.py:96-151 | an itemised one without them is judged so by the sums over its lines |
| InvoiceValidation.OneLineIsAcceptedIff | app/validation/validator.py:96-128 | a line counts there with its subtotal or else price times quantity, and with its tax or else its three heads |
| InvoiceValidation.RoundOffIsBounded | app/validation/validator.py:130-150 | an accepted plain invoice with agreeing non-negative taxes gets a Round Off of at most 1.00 if and only if at most 100.5 paise of its total are unexplained by subtotal and printed tax, so always for whole amounts; never more than 1.02, or 1.01 when the tax heads sum to whole paise |
| InvoiceValidation.HalfPaiseReachOneMore | app/validation/validator.py:142-149 | half-paise amounts with a whole tax head reach 1.01 |
| InvoiceValidation.HalfPaiseHeadReachesTwoMore | app/validation/validator.py:142-149 | and with a half-paisa tax head 1.02 |
| TallyClients.TallyClient.CheckExists | app/connectors/tally/client.py:226-284 | a blank id is present; a cached answer is repeated; a 200 reply is cached; an exception says present and another status absent, uncached |
| TallyClients.TallyClient.SendVoucherWithEduFallback | app/connectors/tally/client.py:178-213 | one import, and one more, in edu mode from then on, exactly when the first was rejected for its date outside edu mode |
| TallyClients.TallyClient.AttemptSyncRentalOrder | app/connectors/tally/client.py:535-569 | sends the native or the plain shape as learned, learning from the first success or rejection |
| TallyClients.TallyClient.SyncRentalOrder | app/connectors/tally/client.py:489-533 | one attempt, and a second under the -R2 marker exactly when the first was rejected as stuck |
| TallyClients.CallCosts | app/connectors/tally/client.py:489-590 | one call sends at most two imports for an order and one otherwise, plus the unspent edu retry; both flags only learn; once learned they rule every import |
| TallyClients.ImportsAreBounded | app/connectors/tally/client.py:178-213 | the same over any calls and any replies |
| TallyClients.OrderImportsAreBounded | app/connectors/tally/client.py:489-569 | n order calls send at most 2n+1 imports |
| TallyClients.BoundIsReached | app/connectors/tally/client.py:489-569 | against a Tally that rejects everything a fresh client sends exactly 2n+1 |
| TallyClients.AbsenceIsLastReply | app/connectors/tally/client.py:226-284 | after any calls of a new client a record is called absent if and only if Tally's reply to the last query about it, perhaps an earlier call's, was that, or was not a 200 |
| TallyClients.CreateIffToldAbsent | app/connectors/tally/client.py:519-590 | over any calls of a new client an import is a Create if and only if Tally's reply to the last query about its record before it said absent or was no 200; an edu retry repeats the import it follows, action and all, after a rejected date |
| TallyClients.CallSendsItsMarkers | app/connectors/tally/client.py:489-590 | a call sends its own record's marker in its own shape, and an order's fallback marker after that if and only if its last plain import was rejected as stuck |
| TallyClients.FlagIsLearned | app/connectors/tally/client.py:535-569 | over any calls a client believes in native orders only if Tally accepted one, and in their absence only if Tally rejected one |
| TallyClients.CacheIsForever | app/connectors/tally/client.py:230-232 | a cached answer survives every later call |
| Pipelines.SyncPipeline.CheckDependencies | app/sync/dependencies.py:50-125 | with a coherent cache it answers whether the item's customer, equipment or invoice is mapped in the table |
| Pipelines.SyncPipeline.GuardItem | app/sync/base.py:169-238 | stops the item as the guard rules, or drops the stale reverse mapping and lets it through |
| Pipelines.SyncPipeline.ProcessItem | app/sync/base.py:141-402 | every lock taken is released, sync_func is called exactly for the sync outcomes, a dead letter is added exactly for the failures, and rows and outcome are the model's |
| Pipelines.SyncPipeline.RunSyncPipeline | app/sync/base.py:129-411 | over batches of any size: processed is the list's length and the sum of created, updated, skipped and failed, dead letters are the failures, no lock is left, and the pass is a pass of the model |
| Pipelines.CountedByOutcome | app/sync/base.py:129-411 | each counter of a pass moves by the number of items with its own outcomes |
| PipelineFixpoint.KeysDifferIff | app/sync/idempotency.py:8-22 | two items' integration keys are equal if and only if their trimmed ids are |
| PipelineFixpoint.PassPushesIff | app/sync/base.py:141-381 | in any pass sync_func is called for an item if and only if it passes guard, lock and validator, the records it waits for are there, and it is neither unchanged nor adopted, all judged on the table the pass began with |
| PipelineFixpoint.PassWaitsForParents | app/sync/dependencies.py:47-125 | in any pass sync_func is called only if the starting table has a row, by the trimmed id or by Tally's name, for an order's or invoice's customer and every asset, or a payment's invoice, order or customer; and an item past guard, lock and validator is put off if and only if one is absent |
| PipelineFixpoint.SavedRowNames | app/sync/base.py:298-381 | the row an item saved by a pass leaves carries the target sync_func named, else the one it had, else its own id, or its identifier when adopted, with its hash and key; it counts as updated if and only if it had a target |
| PipelineFixpoint.ItemMoves | app/sync/base.py:141-402 | an item's outcome is read off four facts about the table, and processing it moves no other item's facts |
| PipelineFixpoint.SecondPassIsQuiet | app/sync/base.py:298-381 | a second pass calls sync_func only for items whose sync_func raised in the first pass or that were locked then |
| PipelineFixpoint.SavedIsPushedAgainIff | app/sync/base.py:298-381 | whatever the target does in between, an item saved by the first pass is pushed again by the second if and only if it passes guard and lock and the target does not know its identifier |
| Reconciliation.Reconcile | app/reconciliation/engine.py:84-313 | the two comparison loops over the two indexes build the report function's list, in its order; each of the five reports is this with its own rule for what is indexed and compared |
| Reconciliation.ReportCounts | app/reconciliation/engine.py:121-181 | a report has one entry per key on one side only, per amount mismatch and per date mismatch of shared keys |
| Reconciliation.EmptyReportIff | app/reconciliation/engine.py:121-181 | a report is empty if and only if the last records of every key pair off between the lists and agree within five paise, and on date when both have one |
| Reconciliation.ComparedIff | app/reconciliation/engine.py:84-313 | of two records of one key only invoices and payments have amounts compared, to within five paise, and only invoices dates |
| Reconciliation.DatesDifferIff | app/reconciliation/engine.py:121-181 | a dashed date, with or without a time, and a plain one differ if and only if year, month and day do |
| Reconciliation.BlankReportedIff | app/reconciliation/engine.py:84-313 | a record without a key is reported among invoices and among RentAsst's customers, and passed over elsewhere |
| Reconciliation.LastIsFinal | app/reconciliation/engine.py:127-128 | the last indexed record of its key is the one the index holds |
| Reconciliation.MissingReported | app/reconciliation/engine.py:84-119 | the two MISSING kinds report exactly the keys of one side only |
| Reconciliation.SwapSwapsMissing | app/reconciliation/engine.py:238-271 | swapping the equipment lists swaps the two MISSING sets |
| CustomerDedupe.DedupeByTallyName | app/sync/customers.py:49-85 | the grouping and output loops return the winners and losers of the names in first-seen order |
| CustomerDedupe.DedupeConserves | app/sync/customers.py:49-85 | every named customer is pushed or dead-lettered, exactly once |
| CustomerDedupe.DedupeChooses | app/sync/customers.py:57-66 | one customer per name, names never repeat, and each is the first of the most complete of its name |
| CustomerDedupe.DedupeIsIdempotent | app/sync/customers.py:49-85 | deduping the result keeps it all and dead-letters nothing |
| CustomerDedupe.WinnerIsFirstBest | app/sync/customers.py:63-66 | the head of the stable descending sort is the first element of maximal completeness |
| CustomerDedupe.SameLedgerIff | app/sync/customers.py:13-14 | two names compete for one ledger if and only if they have the same words, lower-cased |
| CustomerDedupe.RivalWinsIff | app/sync/customers.py:17-28 | of two rivals the second is pushed if and only if it is more complete: by an address, then a mobile of ten digits, then a GST number, then an email |

## Left out

- Locks.LockManager.AcquireLock: the delete-then-insert of one call is one step; SQLite's own locking between connections is not modelled.
- ProtocolTheorems.OneVoucherPerMarker: speaks of each marker, so an order's plain and -R2 vouchers count as two markers, and ProtocolItems of both; assumes check_exists answers truthfully, so non-200 replies are the subject of TallyClients.AbsenceIsLastReply instead; the substring test on a reply that is not XML is not modelled.
- ProtocolTheorems.NoPingPong: does not promise that no copy of a living voucher is pushed, which a reused number makes false (ReusedNumberCopies); covers rental orders, since reverse sync no longer imports invoices or payments.
- ProtocolTheorems.OneRentoutPerVoucher: the paged cloud list and each remote call are single steps; a rentasst_id tag on a voucher, which only makes the code skip it, is not modelled.
- PipelineFixpoint.SecondPassIsQuiet: asks for colon-free ids distinct after trimming, rows of the default company in one direction, reverse sources that are not item ids, and a target that loses nothing between the passes.
- Pipelines.SyncPipeline.RunSyncPipeline: a MissingDependencyException raised by sync_func itself, which aborts the pass, is not modelled; other workers do not write between the steps of one pass.
- QueueLife.DeadJobsHaveLetters: a letter is written in the same transaction and its insert does not fail; resolving letters is the subject of dead_letters.dfy.
- QueueLife.ClaimsAreBounded: starts from an empty table; rows in the statuses of earlier releases are covered by the table lemmas only, and recovery is assumed to run when no pool thread is live.
- QueueLife.NeverClaimedEarly: the claim itself is atomic; the lost race of two claiming connections returns None in the code and is not a step.
- InvoiceVoucher.BalanceIsClashAndSlip: asks for whole tax heads, as line heads always are once summed; fractional header heads are printed and summed separately.
- InvoiceValidation.RoundOffIsBounded: asks for a payload with no items, charges or discount whose tax fields the validator and the builder read alike.
- CacheRefinement.AnswersAreCurrent: default company and colon-free ids, as every caller of the store uses; AnswersAreRecent covers other companies and other writers.
- The protocol's lookups other than that by guid go past the cache in the code too; the cache itself is the subject of cache_refinement.dfy.
- Strings are sequences of characters and strip/lower act on ASCII; the marker pattern's tolerance of a final newline cannot arise after strip.
- Floating-point error: amounts are exact rationals, and the 1.00 and 0.05 tolerances are 100 and 5 paise. Numbers that fail to parse, and items that are not dictionaries on an invoice, are not modelled.
- A negative header amount on an order prints a doubled minus sign; the model gives the amount itself.
- JSON, SHA-256 and error classification: the payload hash is a field assumed injective, a dead letter's payload passes through unchanged, and retryability is part of a job's outcome.
- The customer and equipment loops of reverse sync, stock reconciliation, macro totals, the scheduler, history and statistics, conflicts and ownership filters: they would only add easier members.
- The payment receipt's amounts and the native Sales Order voucher, which posts one amount twice: nothing can go wrong in them.
- HTTP sessions, XML text, company switching, request pacing, WAL and migrations, routes, logging, packaging: input, output and plumbing.
- check_dependencies' reason text, the queue's direction column and its created_at and updated_at stamps: no rule reads them.

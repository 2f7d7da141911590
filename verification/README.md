# Payment facilitator: a verified model

The facilitator accepts signed quotes and payment transactions, broadcasts each payment once, watches the chain until it
confirms, and then issues a receipt and delivers a resource. Beside it stand a store of encrypted private evidence, a
direct upload service that keeps evidence in versioned object storage with backups and recovery, a public page of recent
payments, and two request limiters. This project models that behaviour in Dafny and proves what it guarantees.

`dafny verify dfyconfig.toml` checks everything.

## How the model is organised

**Settlement ledger.** `Ledger` gives each SQL transaction as a function from database to database and reply, with its
rollbacks: the unique indexes, the lease CHECK and every refusal. `Database` is the database object, whose methods issue the
statements in order and are proved equal to those functions. `LedgerInvariants`, `LedgerLog` and `LedgerTheorems` prove what
any history of transactions keeps, and `LedgerColumns` reads refusals and writes off the columns. `Reconciliation` and
`SettlementService` are the worker's batch loop and the settle call as methods. `Services` puts any number of settle
callers, reconciliation workers and delivery callers of any number of resource services around one ledger and one chain as
an event machine: a caller is a program counter that may stop at any await, for ever or for as long as the schedule likes,
and broadcast results, chain answers and clocks are arbitrary. `ServiceInvariants`, `ServiceTheorems` and `BoundedWait`
speak about every run of that machine, `ServiceOutcomes` about how what the network and the chain answer becomes rows,
`Deliveries` and `Retrieval` about what the resource services answer, and `ServiceWitnesses` runs one payment from the empty
ledger to its open delivery. `Chain` says what a chain may do that replaces at most its top blocks.

**Evidence in object storage.** `Evidence` is an event machine over the metadata rows, the backup ledger, the primary and
the backup bucket (versions numbered in creation order, conditional writes that land only where nothing lies, as
`If-None-Match: *` of section 13.1.2 of RFC 9110) and a clock. A worker's progress is a fact it has learnt; facts are never
forgotten, so every step may be repeated, taken late, taken by another worker or never taken, which covers crashes, lost
responses, retries and stale workers at once. Cleanup and retention are open transactions that hold row locks, delete
versions one at a time and may abort at any point. `Lose` removes a primary version from outside the program.
`EvidenceInvariants`, `EvidenceSteps`, `EvidenceEffects` and `EvidenceRuns` prove the invariant; `EvidenceTheorems`,
`EvidenceRecovery`, `EvidenceAttempts`, `EvidenceRetries`, `EvidenceBacklog` and `EvidenceScope` hold the results, and
`EvidenceWitnesses` runs the machine from the empty system into the states that recovery cannot leave by itself.
`BackupQueue` is the order in which pending backups are tried. `EvidenceSystem` is the same state as an object behind a
network that may lose a request or an answer and delay either; `BackupS3`, `BackupLedger`, `Deletion`, `BackupRetention`,
`EvidenceCleanup`, `BackupReconcile` and `DirectEvidence` are the programs, call by call. Each call they make is proved to
be an enabled event of the machine (`EvidenceSystem.System.Valid`), so every theorem about reachable states applies to them.
Each also says exactly when it succeeds if the network disturbs nothing (`turns == []`), so none of them may give up without
cause.

**Encrypted evidence table.** `Vault` and `VaultStore`: capped puts, expiry and key rotation in batches; `VaultDecisions`:
who may put and read, and what maintenance picks.

**Concurrent and arithmetic pieces.** `PublicPayments`, `PaymentPool` and `PaymentCache`: the four-worker pool stepped in
any order against a sequential pass, and the snapshot cache. `RateLimit`: the fixed-window limiter and the evicting
admission control.

Hashes, signatures and sealed envelopes are data constructors, so they are injective and open only under what made them.
Time is milliseconds. `Basics` holds optional values, digests and order-independent sums over maps.

## Results that needed a condition

- All attempts at recovering a lost object agree on one version until it expires exactly when none of them holds a readback of
  a version that is no longer there; uploads that still land do not matter for that (`EvidenceAttempts.AttemptsAgreeIff`). A
  run reaches the bad state: restore, read back, lose the object again (`EvidenceWitnesses.StaleReadbackIsReachable`).
- Recovery can be completed at every later moment before expiry exactly when it could be now, no plain upload can land any
  more, and nothing stale can still be committed (`EvidenceRetries.RecoverableForGoodIff`). An upload replayed after the loss
  blocks it until expiry (`EvidenceAttempts.UploadBlocksUntilExpiry`, `EvidenceWitnesses.UploadOnTopIsReachable`).
- One undisturbed call of the recovery program succeeds exactly when the record is live and verified, no plain upload is the
  newest version under its key, and a version restored earlier, if any, is still the newest there
  (`EvidenceAttempts.Recoverable`, `BackupLedger.RecoverPrivateEvidence`).
- A cleanup batch commits exactly when none of the first rows it picks has more than a hundred versions under its key. Such a
  row is never tombstoned, and once it has expired and comes first in the order, cleanups that run one at a time never
  tombstone or prune anything again (`EvidenceBacklog.CrowdedIsNeverCleaned`, `EvidenceBacklog.JamLastsForGood`); replaying one
  upload link a hundred and one times gets there (`EvidenceBacklog.JamIsReachable`). A retention batch never gets stuck, since
  its keys hold at most one version (`BackupRetention.NothingStuck`).
- A pending backup is sure to be tried before it expires, given enough undisturbed batches and whatever is inserted, completed
  or removed meanwhile, exactly when fewer records are stuck in its way than a batch takes (`BackupQueue.AlwaysTriedIff`). In
  its way is whoever sorts before it and is, or can still be completed into, a candidate; stuck is who has no intent while
  more than thirty days are left until it expires, so that its reservation fails with nothing recorded
  (`BackupReconcile.QueueIsFaithful`). Ten records kept for forty days block everything behind them
  (`BackupQueue.BlockedIsReachable`); under the deployed retention of thirty days nothing is ever blocked
  (`BackupQueue.DeployedRetentionNeverBlocks`).
- Depth is finality exactly when the required confirmations exceed what a reorganisation may replace
  (`Chain.FinalIffDeeperThanReorganisations`); README.md of the repository states the limitation in words. If blocks may arrive
  between the two reads of one observation, the required depth has to exceed both bounds together (`Chain.FinalAcrossReadsIff`).
- Resubmitting a payment returns the stored settlement exactly while the quote is only reserved, its token still verifies,
  and the transaction is the stored one (`SettlementService.ResubmittedPaymentIsReplayed`).
- What the network answered to a posting is recorded, whatever runs in between, unless a worker has moved the row on by then
  or holds it while a rejection is recorded (`ServiceOutcomes.PostedAnswerIsRecorded`).
- A delivery meets a digest conflict in some run exactly when two of the resource services over the ledger serve different
  bodies, as an x402 and an MPP service do (`Deliveries.ConflictsIffServicesDiffer`, `Deliveries.TwoProtocolsConflict`).
- A confirmed settlement is answered with its report for good once its delivery was started; until then exactly while its
  retry window is open, and as expired for good afterwards (`Retrieval.RetrievalDecided`, `Retrieval.AnswersAreFinal`).
- The evicting admission control agrees with the plain limiter exactly on the sequences in which no new window is needed
  while 10000 are live (`RateLimit.AdmissionAgreesWithLimiter`), which does happen (`RateLimit.SlotBoundIsReached`).
- A rotation batch commits exactly when the table would fit the cap afterwards (`Vault.BatchCommitsIff`); a run reaches a table
  it does not fit (`Vault.RotationCanBeRefused`).

## Model

| member | source | states |
|---|---|---|
| Database.PostgresDatabase.InsertIssuedQuote | src/database.ts:350-379 | inserts one issued quote or refuses a taken id, leaving every other table as it was |
| Database.PostgresDatabase.ReserveSettlement | src/database.ts:408-504 | the whole reservation transaction: replay, refusal or one new validated row with its log entry and a reserved quote, rolled back entirely on any refusal |
| Database.PostgresDatabase.UpdateSettlementStatus | src/database.ts:506-549 | moves only a validated row, logs the move, and rolls back when the row was raced or the lease CHECK forbids it |
| Database.PostgresDatabase.SelectBatch | src/database.ts:569-580 | up to limit due rows with no live lease, none of them sorting after a due row left out |
| Database.PostgresDatabase.ClaimSettlements | src/database.ts:564-597 | leases exactly the picked batch and changes nothing else |
| Database.PostgresDatabase.LoadCandidates | src/database.ts:591-596 | one candidate per claimed settlement, each reading the stored payment and terms |
| Database.PostgresDatabase.ApplyReconciliationResult | src/database.ts:599-735 | requeue, end or confirm in one transaction; a settlement that already ended is answered as it is; a unique violation rolls everything back |
| Database.PostgresDatabase.ClaimDelivery | src/database.ts:737-785 | starts a pending delivery once, expires one whose window has passed, answers otherwise |
| Database.PostgresDatabase.CompleteDelivery | src/database.ts:787-835 | stores the digest of a started delivery; a retry with the same digest changes nothing, another digest is refused |
| LedgerInvariants.DeterministicIdInjective | src/reconciliation.ts:201-203 | receipt and delivery ids derived from two settlement ids coincide only if the settlements do |
| LedgerInvariants.ExecKeepsInv | src/database.ts:408-835 | every transaction, committed or rolled back, keeps all cross-table coupling |
| LedgerTheorems.HistoryAdvances | src/database.ts:408-835 | over any history identities persist, ended rows and receipts are frozen, and the log only grows at its end |
| LedgerTheorems.QuoteStatusMeaning | src/database.ts:408-735 | issued iff no settlement, reserved iff an unconfirmed one, consumed iff a confirmed one with receipt and delivery; never two settlements |
| LedgerTheorems.SettlementMeaning | migrations/003_testnet_settlement.sql:15-20 | confirmed iff a receipt iff a delivery iff its quote is consumed; validated iff no attempt time; a lease implies an active status |
| LedgerTheorems.ConfirmationNeverRollsBack | src/database.ts:655-720 | with inputs the worker can produce a confirmation always commits and has its full effect |
| LedgerTheorems.ReceiptsConserveQuotes | src/database.ts:655-720 | for every merchant and asset the receipted amounts total exactly the consumed quotes' amounts |
| LedgerTheorems.ReceiptsAreInjective | src/database.ts:655-720 | two receipts never share a quote, a transaction, a receipt id or a delivery |
| LedgerTheorems.LateAppliesAreHarmless | src/database.ts:616-623 | once a settlement ended, no later history changes its row or receipt, and every late apply answers with the row as it ended |
| LedgerTheorems.FailureIsNeverPaid | src/database.ts:599-735 | a failed or dropped settlement never gets a receipt or a delivery |
| LedgerTheorems.ClaimsAreALeaseApart | src/database.ts:564-597 | between two claims of one settlement with no apply in between the first lease has run out |
| LedgerTheorems.RejectionUnderLeaseAborts | migrations/004_reconciliation_receipts_delivery.sql:33-38 | recording a rejected broadcast aborts iff the row is leased; the other two outcomes always record |
| LedgerTheorems.ResubmissionReturnsTheSameSettlement | src/database.ts:431-444 | a replay finds the stored settlement and writes nothing, iff token, transaction and bytes are the stored ones |
| LedgerTheorems.CreatedOnlyOnce | src/database.ts:426-489 | after a creating reservation no later one for its quote or its transaction creates anything |
| LedgerColumns.IndexesHoldInEveryHistory | migrations/001_facilitator_foundation.sql:17-100 | over every history, with any inputs at all, no two quotes share a fingerprint or token hash, no two settlements a quote or a transaction, no two receipts an id or a hash, no two deliveries an id; quotes live at most five minutes for an amount above zero |
| LedgerColumns.QuoteIssuedIff | src/database.ts:350-379 | a quote is inserted iff its id, fingerprint and token hash are new and its amount and lifetime are in range |
| LedgerColumns.ReservationCreatesIff | src/database.ts:408-504 | a settlement is created iff the quote is issued, unexpired, of this merchant and token, and neither it nor the transaction has one yet; its row is due at once, unattempted and unleased |
| LedgerColumns.ReservationRefusal | src/database.ts:413-456 | anything wrong with the quote is answered as unavailable; for a quote that has a settlement, the stored transaction and bytes are a replay of it and any others a refusal |
| LedgerColumns.ReportRefusedIff | src/database.ts:599-735 | a report rolls back iff its settlement is unknown, or it confirms an active one while an index already holds its receipt or delivery |
| LedgerColumns.BatchIff | src/database.ts:569-580 | a claim may return a set of rows iff all are active, past their retry time, unlocked and not under a running lease, and any ready row left out sorts no earlier and found the batch full |
| LedgerLog.ExecKeepsLog | src/database.ts:474-534 | every transaction keeps rows equal to the replay of their log and histories within the lifecycle |
| LedgerLog.RowsAreReplays | src/database.ts:625-720 | status, reason and whether a broadcast was recorded are, for every row, the fold of its log entries |
| LedgerLog.LifecycleIffWord | src/database.ts:516-534 | a history has legal steps iff it is a word validated broadcast? pending* (confirmed, failed or dropped)? with adjacent pending reasons distinct |
| LedgerLog.AtMostThreeChanges | src/database.ts:625-720 | a settlement changes status at most three times |
| LedgerLog.BroadcastRecorded | src/database.ts:516-527 | the replay says broadcast iff some entry does |
| Reconciliation.TerminalOnlyFromThisTransaction | src/reconciliation.ts:103-145 | a terminal or confirmed verdict is read only from a successful answer about this very transaction |
| Reconciliation.VerdictIff | src/reconciliation.ts:103-170 | failed iff such an answer has a status that begins with abort or is problematic_skipped, dropped iff it begins with drop, confirmed iff it succeeded in a block deep enough below the tip; the reason is the status cut to 128 characters |
| Reconciliation.NoVerdictReasons | src/reconciliation.ts:103-170 | every other answer, 404 and unreadable ones included, ends nothing, and each way to fail is recorded under its own reason |
| Reconciliation.AnswersDecideOutcome | src/reconciliation.ts:228-300 | from the chain's raw answers to the tables: what status, reason, confirmation and retry time the row gets, the receipt's every field, the pending delivery, the consumed quote and the one log entry; an ended settlement stays as it is |
| Reconciliation.ReportsAreWellFormed | src/reconciliation.ts:228-300 | whatever was observed and however stale the candidate, the report is well formed for the store |
| Reconciliation.ReportsCommit | src/reconciliation.ts:228-300 | a report about a known settlement never meets a store error |
| Reconciliation.ReconcileCandidate | src/reconciliation.ts:228-300 | asking the chain about one candidate ends in exactly one apply, after which row, receipt, delivery, quote and log are what the answers say, and the returned status is the row's |
| Reconciliation.ReconcileAll | src/reconciliation.ts:302-321 | the loop runs one apply per candidate whose observation did not throw, each reporting what some answers say about it, and the counts are the tally of those applies |
| Reconciliation.RunOnce | src/reconciliation.ts:302-321 | a batch is one claim and at most one apply per claimed settlement, each a report of what the chain answered about it and counted once |
| Chain.ConfirmedIsBuried | src/reconciliation.ts:147-170 | a confirmed observation names a canonical block buried below every possible reorganisation |
| Chain.FinalIffDeeperThanReorganisations | src/reconciliation.ts:166-170 | confirmations survive any reorganisation iff the minimum exceeds its depth |
| Chain.FinalAcrossReadsIff | src/reconciliation.ts:147-170 | if the chain may be reorganised and grow between the two reads, confirmations are final iff the minimum exceeds both bounds together, or no block is ever replaced |
| SettlementService.ValidatedQuoteReserves | src/settlement.ts:313-360 | after validation a reservation is refused as unavailable only if the quote is unsettled and expired meanwhile; any other refusal is a replay |
| SettlementService.ResubmittedPaymentIsReplayed | src/settlement.ts:229-248 | validation and reservation together answer a resubmission with the stored settlement under an exact condition |
| SettlementService.QuoteRefusedIff | src/settlement.ts:313-360 | who is refused and as what: an unverified or expired token, another merchant, audience or network, a stored row that differs from the token in any term, a settled quote; the stored expiry never refuses what the token's does not |
| SettlementService.SettleValidated | src/settlement.ts:480-541 | the bytes are posted iff this call created the reservation, and the row then says what the network answered to that posting: broadcast iff accepted under this txid, failed iff rejected, pending otherwise, with the given reason |
| ServiceInvariants.StepKeepsSysInv | src/settlement.ts:480-541 | every event of any caller, worker or the chain keeps the system invariant |
| ServiceTheorems.AtMostOneBroadcast | src/settlement.ts:510-530 | in every run each quote and each network transaction is posted at most once |
| ServiceTheorems.BroadcastFollowsReservation | src/settlement.ts:486-518 | a posting is made only after its reservation committed, and writes nothing |
| ServiceTheorems.PostedPaymentsAreNeverCreatedAgain | src/database.ts:431-456 | resubmitting anything that shares a quote or transaction with a posted payment creates nothing |
| ServiceOutcomes.PostedAnswerIsRecorded | src/settlement.ts:510-541 | whatever runs between a posting and its record, the row moves to what the network answered, unless a worker moved it on or holds it while a rejection is recorded; nothing but a rejection ends an active settlement |
| ServiceOutcomes.ObservedAnswersAreApplied | src/reconciliation.ts:228-300 | whatever runs between a worker's observation and its apply, the settlement becomes what the chain answered then, or stays as it ended |
| ServiceOutcomes.OnlyValidatedQuotesAreSettled | src/settlement.ts:327-347 | in every run settlements exist and payments are posted only for quotes of the service's own network, and a caller about to reserve holds its merchant's quote under the token it showed |
| ServiceTheorems.ReceiptsStayCanonical | src/reconciliation.ts:250-284 | with enough confirmations the block named by every receipt is canonical in every later state, however long a worker stalled |
| ServiceTheorems.BooksBalanceInEveryRun | src/database.ts:599-735 | coupling, log replay and conservation hold in every reachable state |
| ServiceTheorems.DeliveryIsConfluent | src/paid-resource.ts:159-193 | any two servings of one settlement, by whichever services, return the same body, whose digest is the stored one and which states that settlement's network, transaction, payer and receipt |
| ServiceTheorems.DeliveryNeverConflicts | src/mpp-resource.ts:150-190 | with one service the only refusal is an expired window, never a digest conflict |
| ServiceTheorems.DeliveriesAreAttemptedOnce | src/database.ts:737-785 | a delivery's attempt count is at most one, and one exactly when it was started |
| ServiceTheorems.DeliveryOutcomesArePermanent | src/database.ts:787-835 | delivered stays delivered under one digest and expired is never delivered |
| ServiceTheorems.RefusalsAreExplained | src/database.ts:800-820 | every refused server met an expired window, or the stored body of another deployed service |
| Deliveries.ConflictAheadIff | src/database.ts:800-820 | from any reachable state with a deliverable settlement some run ends in a digest conflict iff two deployed services differ |
| Deliveries.ConflictsIffServicesDiffer | src/database.ts:800-820 | over all runs from the empty ledger a digest conflict happens iff two deployed services differ |
| Deliveries.TwoProtocolsConflict | src/mpp-resource.ts:109-140 | an x402 and an MPP service over one ledger do conflict, in a run from the empty ledger |
| Retrieval.RetrievalDecided | src/paid-resource.ts:159-208 | with one service a confirmed settlement is answered with its report iff its delivery was started or its window is open, and as expired otherwise; the report states its payment and receipt, and the answering call starts the delivery |
| Retrieval.AnswersStateThePayment | src/paid-resource.ts:104-135 | whatever the ledger holds, an answered body has the id asked for, that settlement's network, transaction and payer, its stored receipt, and the protocol and facilitator of the service asked |
| Retrieval.OthersAreOnlyRead | src/paid-resource.ts:195-208 | a settlement that is not confirmed is answered with its failure reason or its active status, and nothing is written |
| Retrieval.RetrievalIsThreeEvents | src/paid-resource.ts:159-193 | a retrieval of a confirmed settlement has the effect and the answer of its server's begin, claim and complete events taken without interruption |
| Retrieval.AnswersAreFinal | src/paid-resource.ts:284-294 | over any run a failure, an expiry and the report of a started delivery are answered the same for good; an unstarted one can only turn into an expiry |
| ServiceWitnesses.OpenDeliveryReachable | src/settlement.ts:480-541 | whatever the configuration, a run leads from the empty ledger to a confirmed settlement with an open delivery, although its broadcast was never recorded |
| BoundedWait.DueSettlementIsClaimed | src/database.ts:569-588 | a due settlement with d active ones ahead is claimed within floor(d/limit)+1 batches of one smooth worker, unless its broadcaster ends it first |
| EvidencePolicy.PhasesOnlyAdvance | src/private-evidence-backup-policy.ts:33-37 | phases only move towards deletion, and the whole grace period lies between readable and deletable |
| EvidencePolicy.PhaseIff | src/private-evidence-backup-policy.ts:33-37 | readable from capture until expiry, then kept for exactly seven days, then due for deletion |
| EvidencePolicy.RecoveryNamesOneObject | src/private-evidence-backup-policy.ts:43-56 | two recoveries granted against one ledger record concern the same bytes, key and dates |
| EvidencePolicy.RecoveryGrantedIff | src/private-evidence-backup-policy.ts:43-56 | recovery is granted iff the manifest names the ledger's source, the bytes have its size and digest, it has not expired, and key, capture time and deletion date are in order |
| EvidenceRuns.StepOk | src/private-evidence-direct-store.ts:18-47 | every event of upload, completion, backup, recovery, cleanup and retention keeps the invariant and only develops the state |
| EvidenceTheorems.NoOrphanBackups | src/private-evidence-backup-reconcile.ts:27-41 | every backup version has its ledger row, matches it byte for byte, and is alone under its key, even when a write lands up to the grace period late |
| EvidenceTheorems.VerifiedBackupIsKept | src/private-evidence-backup-s3.ts:107-150 | a verified row's exact version exists with matching bytes until its deletion date and is the newest under its key |
| EvidenceTheorems.ExpiredCopiesAreNeverRead | src/private-evidence-backup-s3.ts:65-72 | backup bytes are read, to verify or to restore, only before the record expires, under the manifest's key, and whole |
| EvidenceTheorems.LedgerRowsOutliveTheirCopies | src/private-evidence-backup-retention.ts:18-45 | a ledger row goes only in a committing retention batch, when due and with its backup key empty |
| EvidenceTheorems.PinnedVersionIsAvailable | src/private-evidence-direct.ts:47-60 | absent an outside loss the version an unexpired record is pinned to exists with its size, hash and type |
| EvidenceTheorems.RecordsOverRuns | src/private-evidence-direct-store.ts:40-47 | over any run records keep their identity and expiry, tombstones stay, and ledger rows only advance until due |
| EvidenceTheorems.WindowsAreBounded | src/private-evidence-direct.ts:36-39 | in every run no record can be uploaded to for more than five minutes from now, and each is kept for at most a year |
| EvidenceTheorems.PinsChangeOnlyByOneRestore | src/private-evidence-backup-ledger.ts:73-92 | once pinned a version changes at most once, before expiry, to the ledger's restored version; the expiry never changes |
| EvidenceTheorems.OnlyRestoresMovePins | src/private-evidence-backup-ledger.ts:73-92 | the one step that moves a pin is a restore of a live, verified record to an existing version with the ledger's bytes |
| EvidenceTheorems.TombstonedKeysHoldOnlyLateRestores | src/private-evidence-cleanup.ts:46-57 | under a tombstoned or pruned record lie only restores that landed late, and no upload can land |
| EvidenceTheorems.TombstoneOnlyAfterEmpty | src/private-evidence-cleanup.ts:19-57 | a tombstone appears only in a committing cleanup that had found the key empty, of a record already closed |
| EvidenceTheorems.QuotasHoldInEveryRun | src/private-evidence-direct-store.ts:18-35 | records without a tombstone are at most 100000 and a gigabyte in all, and 5 and 16000 bytes for every job |
| EvidenceScope.ForeignRecordsAreSpared | src/private-evidence-backup-ledger.ts:25-27 | over any run confined to some contracts, a mainnet record or one of another contract is neither tombstoned nor pruned, keeps its pin and ledger row, and loses no version except from outside |
| EvidenceRecovery.RecoveriesAgree | src/private-evidence-recover.ts:8-15 | from any state in which every readback held is still there, all later readbacks and commits of any attempts name one version with the ledger's bytes, until expiry, whatever uploads land |
| EvidenceAttempts.ReadbackSucceedsIff | src/private-evidence-backup-s3.ts:87-105 | after the conditional write the restore can be read back iff no plain upload is on top |
| EvidenceAttempts.UndisturbedAttemptCommits | src/private-evidence-recover.ts:8-15 | from every recoverable state an attempt that nothing disturbs rebinds the record to a version with the ledger's bytes |
| EvidenceAttempts.UploadOnTopBlocks | src/private-evidence-backup-s3.ts:87-105 | with an upload on top nothing can be read back as restored and nothing can be written |
| EvidenceAttempts.StaleReadbackBlocks | src/private-evidence-backup-ledger.ts:76-91 | a readback from before a loss can still be committed, and then no other version can |
| EvidenceAttempts.RestoreCommitsOnce | src/private-evidence-backup-ledger.ts:85-90 | after a committed restore no other version is ever accepted, over any run |
| EvidenceAttempts.AttemptsAgreeIff | src/private-evidence-recover.ts:8-15 | all runs without a further loss stay in agreement until expiry iff no attempt holds a readback of a version that is gone |
| EvidenceAttempts.UploadBlocksUntilExpiry | src/private-evidence-backup-s3.ts:87-105 | unless something outside removes versions, an upload on top keeps every attempt of every run from succeeding until expiry |
| EvidenceRetries.RecoverableForGoodIff | src/private-evidence-recover.ts:8-15 | one more undisturbed attempt succeeds at every later moment before expiry iff it would now, no upload can land any more, and nothing stale can be committed |
| EvidenceRetries.RetriesCommitOneVersion | src/private-evidence-recover.ts:8-15 | after any such run one more attempt commits, and its version is the only one any attempt of the run ever read |
| EvidenceWitnesses.StaleReadbackIsReachable | src/private-evidence-backup-ledger.ts:76-91 | a run from the empty system ends with a readback of a lost version, from where attempts need not agree |
| EvidenceWitnesses.UploadOnTopIsReachable | src/private-evidence-backup-s3.ts:87-105 | a run from the empty system ends with a replayed upload on top of a live, verified record that cannot be recovered |
| EvidenceWitnesses.LastingIsReachable | src/private-evidence-recover.ts:8-15 | a run from the empty system ends with a lost record that can be recovered at any later time before it expires |
| BackupS3.S3EvidenceBackup.VerifyExisting | src/private-evidence-backup-s3.ts:111-116 | accepts the newest copy only as the one the ledger expects; undisturbed, it reports missing iff the key is empty and found iff that copy verifies |
| BackupS3.S3EvidenceBackup.Copy | src/private-evidence-backup-s3.ts:107-129 | leaves all tables and old versions alone, writes only under this key, and returns a manifest of the expected source; undisturbed, it succeeds iff the copy already there is acceptable, or none is there and the pinned source version can be read |
| BackupS3.S3EvidenceBackup.ReadBackup | src/private-evidence-backup-s3.ts:65-72 | returns only bytes that match the ledger's hash, and changes nothing; undisturbed, it succeeds iff the manifest is restorable and its exact version still decodes to it |
| BackupS3.S3EvidenceBackup.VerifyRestored | src/private-evidence-backup-s3.ts:87-96 | accepts the newest primary version only as this manifest's restore; undisturbed, it reports missing iff nothing lies there and found iff the newest version is such a restore |
| BackupS3.S3EvidenceBackup.Restore | src/private-evidence-backup-s3.ts:77-106 | writes only where nothing lay, only this restore, and returns the newest version there with the ledger's bytes; undisturbed, it succeeds iff the copy is readable and the key is empty or already holds this restore on top |
| BackupLedger.EvidenceBackupLedger.Reserve | src/private-evidence-backup-ledger.ts:48-60 | success means a live testnet record of a configured contract whose columns the durable intent equals; an existing intent never changes; undisturbed, it throws exactly for a record that is not live or an intent of another version or contract |
| BackupLedger.EvidenceBackupLedger.Verify | src/private-evidence-backup-ledger.ts:61-72 | a row becomes verified only with a manifest read back and matching it, while the record is live under a configured contract, and keeps its first manifest; undisturbed, exactly those manifests are accepted |
| BackupLedger.EvidenceBackupLedger.LoadRecovery | src/private-evidence-backup-ledger.ts:36-47 | returns the verified manifest of a live record of a configured contract and changes nothing; undisturbed, it does so for every such record |
| BackupLedger.EvidenceBackupLedger.CommitRestore | src/private-evidence-backup-ledger.ts:73-92 | rebinds row and ledger together or changes nothing, also when the answer is lost; undisturbed, it rebinds iff the record is live under a configured contract, verified and not yet bound to another restore |
| BackupLedger.AttemptReadable | src/private-evidence-backup-s3.ts:77-106 | in every reachable state a live, verified record's backup can be read, and its restore can be written or found iff no plain upload is on top |
| BackupLedger.RecoverPrivateEvidence | src/private-evidence-recover.ts:8-15 | success means a live record of a configured contract is bound to a version holding the ledger's bytes; failure leaves it as it was or so bound; no version is removed; undisturbed, it succeeds iff no plain upload is on top and an earlier restore is still the newest version |
| BackupReconcile.BackUpOne | src/private-evidence-backup-reconcile.ts:27-33 | success means a verified backup of a live record of a configured contract; failure costs no record, copy or ledger row; undisturbed, it succeeds iff the intent fits and a copy exists or the pinned version can be copied |
| BackupReconcile.ReconcilePending | src/private-evidence-backup-reconcile.ts:12-54 | only completed, unexpired testnet records of the configured contracts are tried, each once, and the counts say which became verified; a busy or dry run only waits; undisturbed, min(limit, candidates) are tried and exactly the possible ones verified, whatever the others do |
| BackupReconcile.CandidateReservableIff | src/private-evidence-backup-ledger.ts:48-60 | a candidate's intent can be recorded iff at most thirty days are left until it expires |
| BackupReconcile.QueueIsFaithful | src/private-evidence-backup-reconcile.ts:20-25 | in every reachable state the queue that shows it has the batch's candidates, and its stuck rows are those whose reservation must fail with no intent recorded |
| BackupQueue.BatchTakesOldest | src/private-evidence-backup-reconcile.ts:20-25 | a batch takes the least recently touched of the waiting records, equals by id, up to its limit |
| BackupQueue.CandidateIsTried | src/private-evidence-backup-reconcile.ts:21-46 | in any run at all, with s stuck rivals, fewer than the limit, d rivals in all and f disturbed reservations, a candidate that does not expire first is tried within floor((d+f)/(limit-s))+1 completed batches; a rival is any record that sorts before it and is pinned or can still be |
| BackupQueue.StuckHeadBlocks | src/private-evidence-backup-reconcile.ts:21-46 | in any run of batches of at most this limit that ends while as many candidates ahead are still more than thirty days from expiry, and so stuck, a candidate is never tried |
| BackupQueue.AlwaysTriedIff | src/private-evidence-backup-reconcile.ts:20-46 | a candidate is sure to be tried by enough undisturbed batches iff fewer of its rivals than a batch takes are stuck in the present state |
| BackupQueue.DeployedRetentionNeverBlocks | src/private-evidence-direct-runtime.ts:72 | with thirty days of retention every candidate is sure to be tried, by batches of any size |
| BackupQueue.BlockedIsReachable | src/private-evidence-backup-policy.ts:19 | a run from no records ends with a candidate that batches of no size are sure to try |
| Deletion.PurgeKey | src/private-evidence-backup-s3.ts:130-150 | no version goes unless all listed ones are whole copies of the expected source a week past its expiry; success means an empty key and the count of what lay there; undisturbed, it succeeds iff the phase allows it and all listed versions validate |
| Deletion.RemoveExactKey | src/private-evidence-cleanup.ts:19-33 | removes versions of this key only, refuses more than a hundred untouched, and succeeds only over an empty key; undisturbed, nothing else makes it fail |
| BackupRetention.NothingStuck | src/private-evidence-backup-retention.ts:26-34 | in every reachable state a picked row passes all checks of the batch: its descriptor is valid and due, its manifest agrees, and at most one version lies under its key, which may be deleted |
| BackupRetention.RetainBackups | src/private-evidence-backup-retention.ts:14-47 | a batch forgets all its rows, which are of the configured contracts and a week past expiry, over empty keys or none, also when the answer is lost; a dry run changes nothing; the report counts what went; undisturbed, it never fails and takes min(limit, due rows) |
| BackupRetention.CommittedBatchShrinks | src/private-evidence-backup-retention.ts:24-45 | a committed batch shrinks rows and versions by exactly the counts |
| EvidenceCleanup.CleanUp | src/private-evidence-cleanup.ts:39-70 | a batch tombstones all its rows, which are closed testnet records of the configured contracts, at one moment over empty keys or none, prunes only tombstones of those contracts a week past expiry, and reports the counts; undisturbed, it picks the first such rows by expiry and id and fails iff one of them holds over a hundred versions; a crowded pick fails it in any case, changing no row |
| EvidenceCleanup.CommittedCleanupShrinks | src/private-evidence-cleanup.ts:53-70 | a committed cleanup lowers versions, rows that count against the quotas and rows by exactly the counts |
| EvidenceBacklog.CrowdedIsNeverCleaned | src/private-evidence-cleanup.ts:19-57 | over any run a closed record with over a hundred versions is never tombstoned or pruned, and no cleanup that picked it can commit |
| EvidenceBacklog.JamIsPicked | src/private-evidence-cleanup.ts:46-49 | if it comes first of all, every batch picks it |
| EvidenceBacklog.JamLastsForGood | src/private-evidence-cleanup.ts:46-57 | cleanups run one at a time then never tombstone or prune any row again |
| EvidenceBacklog.JamIsReachable | src/private-evidence-cleanup.ts:26 | a run from the empty system, replaying one upload link 101 times, ends there |
| DirectEvidence.DirectEvidenceService.CheckQuotas | src/private-evidence-direct-store.ts:23-26 | four sums and comparisons admit a record iff it leaves at most 100000 records of a gigabyte, and 5 of 16000 bytes for its job |
| DirectEvidence.DirectEvidenceService.Reserve | src/private-evidence-direct-store.ts:18-35 | inserts one pending row within both quotas or nothing; undisturbed, it inserts iff the quotas admit it |
| DirectEvidence.DirectEvidenceService.PrepareUpload | src/private-evidence-direct.ts:33-46 | an issued upload has its row, two expiries from one clock reading, and a link for the most whole seconds up to 300 that its window leaves; undisturbed, it is issued iff the context is valid, authorized and within quota |
| DirectEvidence.DirectEvidenceService.FinalizeVersion | src/private-evidence-direct-store.ts:40-47 | the first version wins and a retry returns it; undisturbed, it is refused iff the record has expired, is tombstoned, or is unpinned after its upload window |
| DirectEvidence.DirectEvidenceService.CompleteUpload | src/private-evidence-direct.ts:47-61 | success means a pinned, unexpired record; a completed record never changes; undisturbed, an unpinned record completes iff something was uploaded within the window, as every upload under the key matches it |
| DirectEvidence.DirectEvidenceService.Download | src/private-evidence-direct.ts:62-71 | a link to the pinned version for the most whole seconds up to 60 that the record has left, whose object exists unless lost from outside; undisturbed, it is given iff the record is pinned and has a second left |
| Vault.CapacityHoldsInEveryRun | src/private-evidence-store.ts:59-86 | puts, rotations and purges sharing one cap keep count, bytes and job limits, although rotation rechecks only after growth |
| Vault.EvidenceKeepsItsMeaning | src/private-evidence-maintenance.ts:42-67 | until its expiry a record keeps its plaintext, type and expiry through any rotations |
| Vault.PutThenGet | src/private-evidence-store.ts:46-107 | what was put is what an authorised reader gets back at any later time of any run before expiry |
| Vault.BatchProgress | src/private-evidence-maintenance.ts:42-67 | a committed batch lowers the stale rows by exactly min(limit, remaining) |
| Vault.BatchCommitsIff | src/private-evidence-maintenance.ts:60-63 | a batch of readable rows commits iff the table fits the cap afterwards |
| Vault.RotationCanBeRefused | src/private-evidence-maintenance.ts:60-63 | a run fills the table so that rotation to a longer key id is refused, and refused again on every retry |
| Vault.ShorterKeyIdAlwaysCommits | src/private-evidence-maintenance.ts:54-63 | rotating to a key id no longer than the old ones is never refused |
| Vault.RotationTerminates | src/private-evidence-maintenance.ts:42-67 | once writers use the new key, k batches leave at most n - k*limit stale rows |
| Vault.StoredSizeFitsColumn | migrations/006_private_evidence.sql:9-11 | no envelope the store writes can violate the stored size CHECK |
| VaultStore.PrivateEvidenceTable.Put | src/private-evidence-store.ts:46-92 | one row within every limit, the original on a retry, or a denial that changes nothing |
| VaultStore.PrivateEvidenceTable.RotateBatch | src/private-evidence-maintenance.ts:42-67 | reseals exactly the first stale rows, or rolls all of them back |
| VaultStore.PrivateEvidenceTable.PurgeExpired | src/private-evidence-maintenance.ts:30-41 | removes exactly the first expired rows of the scope, or only counts them |
| VaultDecisions.ReadIff | src/private-evidence-store.ts:94-108 | evidence is read iff the caller is authorised and names an unexpired row's binding, type and size, and its key is known; what is read has that size and the binding's digest |
| VaultDecisions.CreatedIff | src/private-evidence-store.ts:46-92 | new evidence is stored iff the context is acceptable and true of the bytes, the caller is authorised twice, the key id is well formed, and table and job have room; the row's columns are those of the call |
| VaultDecisions.RetriedIff | src/private-evidence-store.ts:62-71 | stored evidence is never written again, and a retry is told the original expiry iff the row is unexpired, of the same type and size, and readable |
| VaultDecisions.JobsStayBounded | src/private-evidence-store.ts:72-80 | in every run each network, contract and job id keeps to five records of 16000 bytes |
| VaultDecisions.PickedInScope | src/private-evidence-maintenance.ts:30-46 | a rotation picks the first rows of its network and contracts under another key, a purge the first expired ones, and nothing else |
| PublicPayments.ListedPaymentsArePaid | src/public-payments.ts:91-106 | every listed payment is a distinct row's transaction, in row order, that the chain shows as succeeded and anchored in the row's block with one transfer, from the payer to the recipient, of the amount and asset the row asks for |
| PublicPayments.ListedIff | src/public-payments.ts:91-106 | a row is listed, as that payment, iff the chain paid it so, and excluded otherwise |
| PublicPayments.LoadSucceedsIff | src/public-payments.ts:69-114 | a load succeeds iff the store gave at most 26 rows and each of the first 25 is in scope, distinct, of an allowed asset and answered; payments plus excluded are min(n, 25), and there are more iff there were 26 |
| PaymentPool.PaymentLoad.Run | src/public-payments.ts:76-113 | every schedule of the four workers gives the sequential pass's result, asking about each row once |
| PaymentPool.FinishedIsSequential | src/public-payments.ts:109-113 | when all workers finished, the records are those of the sequential pass |
| PaymentCache.PublicPaymentService.Ask | src/public-payments.ts:115-122 | serves, joins, refuses or starts a load exactly as the cache state says |
| PaymentCache.SingleFlight | src/public-payments.ts:115-122 | between two starts the first load has succeeded or failed |
| PaymentCache.ServedIsFresh | src/public-payments.ts:116-119 | a served value is that of the latest successful load, less than 60 seconds old |
| PaymentCache.LoadsAreApart | src/public-payments.ts:116-120 | no load starts within 10 seconds of a failure or 60 seconds of a success |
| PaymentCache.StartsIff | src/public-payments.ts:115-122 | a caller starts a load iff none is under way, every success is a minute old and every failure ten seconds |
| PaymentCache.StartsAreApart | src/public-payments.ts:115-122 | any two loads start at least ten seconds apart |
| PaymentCache.JoinersShareALoad | src/public-payments.ts:117 | a joining caller waits for a load started before it that is not yet forgotten |
| RateLimit.FixedWindowRateLimiter.Consume | src/rate-limit.ts:19-36 | one call opens, counts or refuses in the key's window and touches no other key |
| RateLimit.RetryAfterIsExact | src/rate-limit.ts:27-32 | waiting as told is enough, and a whole second less is not |
| RateLimit.AtMostTwiceTheLimit | src/rate-limit.ts:19-36 | any closed 60-second interval admits at most twice the limit for a key |
| RateLimit.TwiceTheLimitIsReached | src/rate-limit.ts:19-36 | some sequence of calls reaches that bound |
| RateLimit.EvidenceAdmission.Admit | src/private-evidence-policy.ts:8-21 | evicts exactly the expired slots, then admits within the operation's limit and the slot bound |
| RateLimit.FirstOnesAreAdmitted | src/private-evidence-policy.ts:8-21 | of the calls a wallet makes at once the first 10 are admitted if it prepares, the first 60 if it completes or downloads |
| RateLimit.AdmissionKeyInjective | src/private-evidence-policy.ts:11 | different wallets or operations never share a slot |
| RateLimit.AdmissionAgreesWithLimiter | src/private-evidence-policy.ts:8-21 | the evicting control decides as the plain limiter iff it never needs a new slot while 10000 are live |
| RateLimit.SlotBoundIsReached | src/private-evidence-policy.ts:13-16 | 10001 wallets calling at once are decided differently by the two limiters |

## Left out

- HTTP routes, headers, error mapping, discovery documents, MCP, logging, server start-up and operator commands.
- Configuration validation, merchants' provisioning, OAuth enrollment, API keys, role and scope checks: authorization is an
  arbitrary yes or no wherever the code asks for it.
- Payment verification, quote canonicalisation, JWT, AES-GCM, SHA-256 and signatures as algorithms; the SDK that verifies
  payments is not part of this model.
- Broadcasting and chain HTTP parsing beyond the outcomes the services act on, and reading a response body in chunks.
- Chain answers are honest about one chain within a single observation; a dishonest chain API is outside the model, and a chain
  that moves between the two reads is covered by `Chain.FinalAcrossReadsIff` alone.
- Column widths, verifier version columns, the merchants foreign key, the length CHECK on payers, and the syntax of wallet and
  contract names.
- The resource services' challenges and calls to the facilitator: their encodings and error mapping. What they answer about a
  settlement is modelled in `Retrieval`, where one retrieval claims and completes at one instant.
- Quote states expired and revoked, settlement states reorged and the ledger state purged: no modelled code writes them.
- PostgreSQL locking internals: a transaction is one step (an open cleanup or retention batch is several), and the database
  and the processes share one clock.
- Delete markers, truncated listings and foreign keys in listings: nothing the program does creates them.
- BackupRetention.RetainBackups: which due rows of equal right a batch picks (ORDER BY created_at) is arbitrary here; no due row
  can get stuck, so the order decides nothing but which batch takes it.
- BackupReconcile.ReconcilePending: the program object picks any candidates up to the limit; the order by last touch, and what
  it means for waiting, is modelled in `BackupQueue`, where a batch takes no time, and a record's creation time is that of the
  one step that inserts it.
- EvidenceBacklog.JamLastsForGood: cleanups of several contract sets, or run side by side, can still get past the first row, and so
  can a cleanup that skips it while a ledger transaction holds its row lock, or a reservation inserted ten minutes after its
  clock reading.
- SettlementService.SettleValidated: nothing else runs between this call's transactions; races are events of `Services`.
- VaultStore.PrivateEvidenceTable.PurgeExpired: a batch may be ordered by any ranking of its rows, not only ORDER BY expires_at
  and the binding.
- VaultStore.PrivateEvidenceTable.Put: plaintext that is no UTF-8 or JSON is not refused here.
- Assumption: an upload through a signed link lands at most 60 seconds after the upload window, the slack that the cleanup
  query allows for. `EvidenceTheorems.TombstonedKeysHoldOnlyLateRestores` and everything about closed records rest on it.
- BackupS3.S3EvidenceBackup.Copy: calls end within five seconds in the program objects; writes that land later, up to the
  grace period after their last check, are events of the machine.
- PaymentPool.PaymentLoad.Run: the chain's answer for a transaction does not depend on the schedule, so the eight-second
  abort of a slow load is not modelled, and the load stops at the first worker that throws because its result is then fixed.
- Vault.EvidenceKeepsItsMeaning: decoding plaintext as UTF-8 or JSON is not modelled, so a put of undecodable bytes is not
  refused here.
- ServiceTheorems.DeliveryNeverConflicts: one resource service with fixed configuration, as two protocols serve different bodies.
- EvidenceAttempts.UndisturbedAttemptCommits: no time passes within the undisturbed attempt.
- EvidenceSystem runs one program at a time with arbitrary delays and lost messages; interleavings of programs are the runs
  of the machine in `Evidence`.
- The HTTP adapters of the evidence services, the pinned chain reads of `src/private-evidence-chain.ts` and the evidence
  issuer client.

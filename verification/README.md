# Clearinghouse accounting model

A Dafny model of the clearinghouse: a double-entry ledger fed by an Ethereum log
listener that survives reorgs, by a Kafka usage feed with many partitions, and by
management and authorization requests. All of them post through one transfer primitive,
and every write is all or nothing.

The database is a value (`Tables.DB`, one map per table). Each write is a function from a
database to a database or an error, and the laws are lemmas about those functions. The
code that changes tables in place is a class: `StoreState.Store` has the table groups as
fields and methods with the loops, early returns and rollback of `internal/store`;
`ListenerState.ChainListener` is the listener, `KafkaLag.LagCoverage` the lag monitor,
and `Redemptions.CorrelateRedemptions` and `LogOrder.FilterInPlace` rewrite their arrays.
Each method is proved equal to the function whose laws the lemmas state.

How it is laid out:

- `Basics` (results and sums over tables), `Tables` (blocks, rows, keys, errors), `Units`.
- Ledger: `Books`, `Summaries`, `Rebuild`, `Reports` (what the metric tables say).
- Escrow: `EscrowStore` (the writes), `EscrowLedger`, `EscrowSteps`, `Reorgs`, `Rewinds`,
  `Bootstrap` (the invariant), `Openings`, `ChainEffects` (what the writes leave), `Replay`,
  `ReplaySteps` (refinement), `Solvency`, `SolventRuns`, `Overdraw`.
- Usage and attribution: `Attribution`, `Ingestion`, `IngestSteps`, `IngestKeeps`,
  `Charges` (what a record is worth), `Confluence`, `RowConfluence`.
- Budget and requests: `Management`, `Idempotent`, `Authorize`, `ManagementKeeps`,
  `ManagementEffects` (what the writes leave), `Decisions` (what each answer says).
- Whole runs: `Invariant`, `Runs`, `Theorems`, `Progress`, `Races`, `Revocations`, `Retries`.
- The chain: `Redemptions`, `Payments`, `History`, `LogOrder`, `Listener`, `ListenerSteps`,
  `StepEffects`, `Provenance`, `Convergence`, `Service`.
- Lag: `KafkaLag`, `LagWindow`, `LagReports`, `LagProtocol`, `Freshness` (the monitor
  beside the database).
- Imperative form: `Store`, `ListenerState`, `Rebuild`.

A run is a sequence of any of the twelve writes (`Runs.Op`), failed ones included, from
the empty database that migration 003 leaves. `Service` runs interleave listener steps
with the writes of the other feeds. A block hash is a datatype value that contains the
number, the parent, the contract logs and whatever else the block holds: equal hashes mean
equal pasts, and two blocks may differ though their contract logs are the same.

## Model

| member | source | states |
|---|---|---|
| Runs.RunKeepsInv | internal/store/store.go:79-114 | after any run of writes, committed or rolled back, the whole invariant holds: ledger and cache, summaries equal to their rebuild, budget conservation, exact offsets and charges, attribution, escrow balances, generation discipline |
| Runs.StepKeepsInv | internal/store/store.go:79-114 | any one write keeps the invariant of any database that has it |
| Theorems.LedgerBalances | internal/store/store.go:174-210 | in every run each cached balance is credits minus debits over the append-only postings, and the balances of each currency sum to zero |
| Theorems.SummariesAreRebuilt | migrations/003_metric_summaries.sql:11-59 | in every run metric_amounts, metric_counts (zero rows aside) and metric_balances are what the migration's aggregates compute from the source tables |
| Reports.CountsAreRows | migrations/003_metric_summaries.sql:20-59 | in every run each count is the number of rows it speaks of: grants and allocations by currency and status, quarantined records by reason, settlements by status and match, underpaid settlements, overdrawn allocations, opened senders with an empty bucket |
| Reports.AmountsAreSums | migrations/metric_amounts.go:12-70 | in every run each amount is the sum it names: balances of a kind and currency, shortage of overdrawn allocations, face value, payment and shortfall of settled settlements |
| Reports.TrackedAreBalances | migrations/003_metric_summaries.sql:36-59 | in every run exactly the overdrawn allocations and both buckets of every opened sender are tracked, each with its account's balance |
| Theorems.GrantsConserve | internal/store/manage.go:77-250 | in every run a grant's total is its unallocated balance, never negative, plus the units of its allocations |
| Theorems.AllocationsConserve | internal/store/ingest.go:141-190 | in every run an allocation's units are available plus spent, spent is the sum of what the tickets of its applied rows state in its currency, and among active and exhausted ones active means something is available |
| Theorems.OffsetsAreExact | internal/store/ingest.go:64-80 | in every run a partition has a row for exactly the offsets below its checkpoint |
| Theorems.GenerationsAreDisciplined | internal/store/settlements.go:155-180 | in every run a row's posting is in the ledger once for each generation reached and its reversal once for each but the last of a live row, nothing else uses its keys, and a redemption and its settlement agree on status and generation |
| Books.TransferEffect | internal/store/store.go:174-210 | a positive transfer posts once, under a key not used before, and takes the amount from the debit account and gives it to the credit account; it touches nothing else but summaries |
| Books.TransferKeepsCache | internal/store/store.go:174-210 | a transfer changes the recount of every account exactly as it changes the cache, and touches no other account |
| Books.TransferKeepsZeroSum | internal/store/store.go:174-210 | a transfer leaves the sum of the balances of each currency unchanged |
| Summaries.TransferKeepsSummary | internal/store/store.go:212-263 | on summaries that agree with the rebuild a transfer succeeds exactly for zero, or a positive amount under a new key, and they agree again: no decrement meets a missing or zero row |
| Rebuild.BackfillMetricAmounts | migrations/metric_amounts.go:12-70 | the migration's recount over zero rows leaves metric_amounts equal to the aggregates the incremental updates keep |
| Rebuild.UnderpaidByText | migrations/003_metric_summaries.sql:36-37 | the migration's comparison by length and text counts exactly the settled rows whose payment is below the face value |
| Units.UnitsRoundTrip | internal/units/eth.go:19-82 | units to decimal to units is the identity on canonical amounts of at most 256 digits |
| Units.DecimalRoundTrip | internal/units/eth.go:19-82 | an accepted decimal goes to units and back to the one canonical decimal of equal worth |
| Units.SignedToDecimal | internal/units/eth.go:58-82 | a signed canonical amount prints as its sign and the canonical decimal of its magnitude |
| Units.UnitsOfDecimal | internal/units/eth.go:19-56 | an accepted decimal has at most 18 places and its units, of at most 256 digits, are the whole part times 10^18 and the places filled up to 18 |
| Units.MetricExtreme | internal/store/metrics.go:194-216 | the (length, text) order of the two queries picks the numeric minimum, or only the most negative row on request |
| Attribution.RematchAttributes | internal/store/ingest.go:236-302 | a rematch never fails, and leaves each settlement it concerns unmatched, matched or ambiguous as the signing sessions are none, one or several, whatever it said before |
| Progress.AttributionCounts | internal/store/ingest.go:236-302 | in every run a settlement, settled or orphaned, is unmatched, matched to s or ambiguous exactly as the sessions of the authorizations with its ticket session and recipient are none, s alone, or at least two |
| Progress.AttributionMoves | internal/store/settlements.go:275-324 | as a run goes on attribution only moves from unmatched to matched to ambiguous |
| Bootstrap.BootstrapKeeps | internal/store/settlements.go:54-115 | opening a stream succeeds exactly on a valid anchor and new, distinct senders, keeps the escrow invariant and starts the checkpoint after the anchor |
| Openings.OpeningsAreStored | internal/store/settlements.go:68-94 | every listed sender gets a row with its deposit and reserve at the anchor, its escrow accounts receive as much and its treasury pays it; no other account and no older row changes |
| ChainEffects.AcceptedIff | internal/store/settlements.go:141-300 | an event is accepted exactly when the stored rows say the same and, unless it is live already, a withdrawal takes exactly deposit and reserve, and a redemption splits into the smaller of face value and deposit and a share the reserve covers |
| ChainEffects.BatchLeaves | internal/store/settlements.go:117-139 | after a batch every event of it has a live row that says what it says, no other row changed but in attribution, the blocks are the old and new ones within the lookback of the last, and the checkpoint is past it |
| ChainEffects.RewindLeaves | internal/store/settlements.go:356-483 | a rewind needs an opening at or below the ancestor, orphans exactly the live rows above it, keeps the blocks up to it and puts the checkpoint after it |
| Reorgs.ApplyEventKeeps | internal/store/settlements.go:141-223 | an event is accepted exactly when its stored identity agrees and its balances cover it, keeps the escrow invariant, and changes nothing when already canonical |
| EscrowSteps.ApplySettlementKeeps | internal/store/settlements.go:255-325 | a settlement is accepted exactly when its split is right and the deposit and reserve pay it, and goes live as the next generation of its row |
| Rewinds.RewindKeeps | internal/store/settlements.go:356-483 | a rewind succeeds exactly when the ancestor is not below every opening anchor; it orphans every row above it and no other, and balances are again the opening state plus the live rows |
| Rewinds.ApplyChainKeeps | internal/store/settlements.go:117-139 | a batch keeps the escrow invariant and the append-only ledger, and fails only on what its events say |
| Replay.BalancesAreReplayed | internal/store/settlements.go:117-325 | the four chain balances of a sender are the guarded replay of the canonical events from the opening snapshot, and deposit and reserve are not negative |
| ReplaySteps.ApplyChainReplays | internal/store/settlements.go:117-139 | a batch extends the replayed history by its events |
| ReplaySteps.RewindReplays | internal/store/settlements.go:356-483 | a rewind cuts the replayed history at the ancestor, however often rows were orphaned and restored |
| Solvency.SettlementPostingsStaySolvent | internal/store/settlements.go:387-423 | inside a rewind, after i whole settlements and m transfers of the next, no escrow balance of any sender is below zero |
| Solvency.EventPostingsStaySolvent | internal/store/settlements.go:424-477 | the same after all settlements, k whole events and m transfers of the next |
| Solvency.RewindStaysSolvent | internal/store/settlements.go:387-477 | the same between whole rows |
| Solvency.RewindSolventIff | internal/store/settlements.go:356-483 | whatever order the rows arrived in, the store is solvent after a rewind exactly when, for every sender, the opening snapshots and the live rows at or below the ancestor are not negative in deposit and reserve |
| SolventRuns.RunSolventIff | internal/store/settlements.go:54-483 | a run from the empty database keeps every escrow balance at or above zero from write to write exactly when each of its rewinds leaves opening snapshots and surviving rows that are not negative for any sender |
| SolventRuns.StepSolvent | internal/store/settlements.go:54-223 | no write but a rewind takes a solvent store below zero, in whatever order blocks arrive |
| Overdraw.OutOfOrderOverdraws | internal/store/settlements.go:140-215 | a valid run of four writes from the empty database, with a withdrawal of an earlier block applied after a funding of a later one, ends with a negative deposit |
| Redemptions.CorrelateIffGrammar | internal/chain/listener.go:688-748 | correlation succeeds exactly on sequences of other events and [claim] [transfer] redeemed groups of one payment with reserve <= paid <= face |
| Payments.CorrelateIffPlaced | internal/chain/listener.go:684-748 | correlation succeeds exactly when every claim is followed by its transfer and every transfer by its redemption, in one transaction, sender and recipient, and every redemption has reserve <= paid <= face |
| Payments.OutputsExplained | internal/chain/listener.go:721-744 | a redemption comes out with all it said, paid what the transfer before it moved, of which the claim before that from the reserve and the rest from the deposit; other events come out unchanged |
| Redemptions.RedemptionsSplit | internal/chain/listener.go:727-737 | every redemption it outputs passes the store's split check |
| Redemptions.CorrelateRedemptions | internal/chain/listener.go:688-748 | the loop that rewrites the events in place computes the correlation, or its error |
| LogOrder.FilterInPlace | internal/chain/listener.go:555-576 | the in-place filter returns the sorted logs without repeats, or the conflict |
| Provenance.ConflictsFound | internal/chain/listener.go:555-576 | the filter refuses answers only when two differ about one log, and always does when no other log claims that log's place |
| LogOrder.GathersTheLogs | internal/chain/listener.go:491-525 | if the RPC's answers are the logs of consecutive valid blocks in any order, however often repeated, every check passes and the logs come out in chain order, once each |
| Provenance.OnlyFetchedLogs | internal/chain/listener.go:491-525 | whatever the RPC answers, a batch goes on only if no answer was removed and each is of the fetched block of its number, and then it decodes exactly the answered logs |
| Provenance.RowsAreLogs | internal/chain/listener.go:578-748 | in every synchronized state each event and settlement row is a log of the block it names, with that log's fields, and paid as the transfer and claim logs before it say |
| History.Remined | internal/chain/listener.go:578-748 | a valid block mined again with the same contract logs and anything else changed is another valid block |
| History.PastUpto | internal/chain/listener.go:360-542 | cutting the history of a tip at a block number is the history of the block there |
| Listener.AncestorIsHighest | internal/chain/listener.go:415-446 | the ancestor search returns the highest stored block that is canonical, within the lookback |
| ListenerSteps.FollowSynced | internal/chain/listener.go:360-542 | every step keeps the retained blocks a linked interval ending at the tip and the rows the replay of the tip's chain, and never meets the opening snapshot |
| ListenerSteps.PolledBalances | internal/chain/listener.go:360-542 | however the canonical chain moves between polls, every balance is the replay, from the opening snapshot and its anchor, of the chain the checkpoint's hash names |
| Service.ServedBalances | internal/chain/listener.go:360-542 | the same from the empty database with the writes of all other feeds between the polls, together with the whole invariant |
| StepEffects.OpeningStarts | internal/chain/listener.go:360-407 | a stream opens at the configured start, or at the head without one, with the block before as checkpoint and the answered balances stored |
| StepEffects.BatchAdvances | internal/chain/listener.go:447-541 | a batch step takes the next blocks, as many as the batch size or as are confirmed, keeps those within the lookback, and makes the last its checkpoint; with none confirmed it does nothing |
| Convergence.RewindsToChain | internal/chain/listener.go:408-446 | a step whose tip is off a chain sharing a retained block within the lookback rewinds to the highest shared block |
| Convergence.ReminedTipIsOrphaned | internal/chain/listener.go:408-446 | a stored tip replaced by a block of the same number, parent and contract logs is orphaned all the same, and the step rewinds to their parent |
| Convergence.ConvergesIff | internal/chain/listener.go:360-542 | against a fixed valid chain, replayable from the opening snapshot, repeated steps apply every confirmed block exactly when the chain is no shorter than the stored one and shares its tip or a retained block within the lookback |
| Convergence.ConvergesFromBlank | internal/chain/listener.go:388-407 | the same from a store that has not opened the stream, exactly when the chain reaches the block before the configured start |
| Convergence.CaughtUpRests | internal/chain/listener.go:447-451 | having caught up, a step reports no progress and changes nothing |
| ListenerState.ChainListener.Step | internal/chain/listener.go:360-542 | the step as it runs, with its loops over stored blocks, headers and logs, leaves the state and the answer of the specified step |
| IngestKeeps.IngestKeepsInv | internal/store/ingest.go:51-222 | a record is accepted exactly at a valid position not above the checkpoint; below it nothing changes, at it the row, authorization, charge, attribution and checkpoint commit together |
| Charges.PositionAccepted | internal/store/ingest.go:51-80 | a record is accepted exactly at a 32-bit partition and 64-bit offset not above the checkpoint, and one below it changes nothing |
| Charges.RecordJudged | internal/store/ingest.go:82-139 | the next record leaves one row, applied, ignored, duplicate or quarantined for the first reason its payload, the recorded ids and the session give |
| Charges.RecordCharged | internal/store/ingest.go:149-190 | an applied ticket costs its session's allocation the USD or wei it states, as the allocation's currency is, exhausts an active one left with nothing, and authorizes under small-letter hashes; any other record changes no balance, allocation or authorization |
| Progress.ChargedByItsFirstRecord | internal/store/ingest.go:82-190 | whatever is delivered later, an id first quarantined or ignored is never charged, and an applied one stays charged by that record alone |
| Confluence.PartitionsConfluent | internal/kafka/listener.go:119-180 | from any good state, any two interleavings of the same partition logs, where equal ids carry equal payloads, end with the same ledger, balances, budget, settlement attribution and checkpoints, and as many rows of each status and reason |
| RowConfluence.RowsConfluentIff | internal/store/ingest.go:82-104 | every interleaving of the logs leaves the very same rows exactly when no event that is new to the database is delivered by two partitions |
| Confluence.AllDelivered | internal/kafka/listener.go:161-180 | an interleaving delivers of each log as many records as it has turns, up to its end |
| Decisions.AllowedIff | internal/store/auth.go:150-193 | a request is allowed in session s exactly when the key is proven, allocation and grant are in use, the fee is covered, the lag is proven, and s is the active session of its signer state with the caller's key, app, payment type and address; and in no session yet exactly when the state has none and none is claimed |
| Decisions.RefusedIff | internal/store/auth.go:150-193 | each of 401, 402, 400, 403, 503 and the address error is answered exactly for the first condition that fails |
| Decisions.CreatedSession | internal/store/auth.go:75-92 | a new session is bound to the request's state, app, payment type and address and to the key's allocation, and is all that is written |
| Decisions.AnsweredAgain | internal/store/auth.go:40-101 | the same request, with or without the session's id, is answered with the session just created |
| Authorize.CommitNeverCollides | internal/store/auth.go:63-101 | with one session per signer state the locked write never collides, and a new session met every condition in the state it was committed to |
| Races.OneSession | internal/store/auth.go:63-101 | over any interleaving of two-phase authorizations and other writes, all grants for a signer state carry one session, and a creation met every condition in its own state |
| Races.LockNeverCollides | internal/store/auth.go:63-101 | in every such race the locked write fails only on an unusable orchestrator address |
| Races.GrantsPersist | internal/store/auth.go:63-101 | a grant once given keeps its session through any continuation of the race, and every grant for its signer state given later carries the same one |
| Revocations.RevocationsStay | internal/store/manage.go:252-317 | in every run an ended session, a revoked key, a revoked allocation and a closed grant stay so |
| Revocations.NothingRestsOnRevoked | internal/store/auth.go:63-101 | in every race, a call allowed in session s had at every point before its answer a session, key, allocation and grant that were not revoked |
| Revocations.RevokedGrantsNothing | internal/store/manage.go:252-317 | once the revocation of a key, session, allocation or grant is written, no call that was unanswered then is ever allowed by it |
| Retries.RetriesDoNotMatter | internal/store/idempotency.go:41-93 | a run ends in the same database with its keyed retries deleted |
| Retries.LaterIsRetry | internal/store/idempotency.go:41-93 | once a request succeeded, whatever runs in between, a later one under its grant and key changes nothing and returns the same response, or an error when the fingerprint differs |
| Retries.KeyUsedIff | internal/store/idempotency.go:41-93 | in every run a grant's key is used exactly when some request under it has succeeded, so failed attempts and other writes leave it free |
| Retries.SameRequestAgain | internal/store/idempotency.go:41-93 | the very same request sent again, whatever ran in between, changes nothing and gets the very same response |
| ManagementEffects.KeyedWrite | internal/store/idempotency.go:41-133 | a keyed write repeats the stored answer of its grant and key and changes nothing, or leaves what its mutation leaves, answers the ids it made and stores that answer |
| ManagementEffects.CreatedGrant | internal/store/manage.go:77-102 | a grant has the amount, all of it unallocated, the window, and the currency and status asked for or usd and draft |
| ManagementEffects.FundedGrantGrows | internal/store/manage.go:162-250 | funding a grant succeeds exactly for a positive amount in its currency while it is open, and raises total and unallocated by it |
| ManagementEffects.CreatedAllocation | internal/store/manage.go:104-150 | an allocation gets the units asked for, or all that is left, out of its grant's unallocated balance, with its window and the status asked for, exhausted if active with nothing |
| ManagementEffects.AllocationAccepted | internal/store/manage.go:67-150 | it is accepted exactly with a window in order, an open grant, the grant's currency, no more than is left and a status that is active or paused |
| ManagementEffects.FundedAllocation | internal/store/manage.go:176-228 | funding moves the units asked for, or all that is left, into the allocation and wakes it if it was exhausted |
| ManagementEffects.FundingAccepted | internal/store/manage.go:176-215 | it is accepted exactly for something positive that the grant has left, while the allocation is not revoked and the grant not closed |
| ManagementEffects.AllocationStatusSet | internal/store/manage.go:274-310 | a status change writes the status, and a revocation takes what is available off the units and gives it back to the grant, once |
| ManagementEffects.KeyForGrant | internal/store/manage.go:381-416 | a key for a grant comes with an active allocation of the amount asked for, without a window, and is a live key of it with the secret's hash |
| ManagementKeeps.WriteIdempotentInv | internal/store/idempotency.go:41-133 | a keyed allocation, funding or key creation keeps the invariant and touches only budget-side accounts and keys |
| ManagementKeeps.SetAllocationStatusInv | internal/store/manage.go:252-317 | a status change is accepted exactly as the source allows, returns the unused units of a revoked allocation once, and keeps the invariant |
| StoreState.Store.Transfer | internal/store/store.go:174-210 | the posting loop over the two entries leaves the database of the specified transfer, or its error |
| StoreState.Store.Ingest | internal/store/ingest.go:51-222 | the ingestion as it runs leaves the specified state, or the state it started from |
| StoreState.Store.BootstrapChain | internal/store/settlements.go:54-95 | the same for opening a stream, with its loop over snapshots |
| StoreState.Store.ApplyChain | internal/store/settlements.go:117-139 | the same for a batch, with its loops over blocks and events |
| StoreState.Store.Rewind | internal/store/settlements.go:356-483 | the same for a rewind, with its loops over settlements and events |
| StoreState.Store.WriteIdempotent | internal/store/idempotency.go:41-133 | the same for a keyed management write and its response |
| KafkaLag.LagCoverage.Update | internal/kafka/listener.go:296-355 | the monitor's update with its loops over partitions and fences leaves the coverage, report and error of the specified update |
| LagReports.UpdateIff | internal/kafka/listener.go:296-327 | an update succeeds exactly on plausible snapshots of every known partition in time; a clock that ran back drops proofs and keeps offsets, any other fault changes nothing |
| LagReports.ReasonIff | internal/store/auth.go:245-257 | a report is unavailable unless it says covered and its check lies in the past and is younger than maxAge of at least a second, and then fresh exactly while what it covers is younger than maxAge |
| LagReports.YoungFenceReported | internal/kafka/listener.go:328-355 | when every partition has passed a fence younger than maxAge, the report reaches that fence |
| LagReports.KeepingUpIsFresh | internal/store/auth.go:245-257 | such a report, published for a probe, is answered fresh until the probe or what it covers is maxAge old |
| LagWindow.WindowLosesNothing | internal/kafka/listener.go:328-351 | over every run with a nondecreasing checking time the pruned window reports no more than one keeping all fences since the last reset, exactly as much when that is younger than maxAge in whole milliseconds, and keeps exactly the uncovered fences that young |
| LagProtocol.FreshMeansIngested | internal/kafka/listener.go:234-404 | in every interleaving of appends, commits and monitor steps, refused publications and deaths of the monitor included, a fresh answer means every record appended before the covered instant, or maxAge old at the millisecond read at any later point, was ingested when the report was read |
| LagProtocol.CoveredIngestedIff | internal/store/auth.go:245-257 | records appended at the covered instant itself are ingested when the report is read, in every run and whenever the clock is read, exactly when appends read the clock after the monitor |
| LagProtocol.AgedIngestedIff | internal/store/auth.go:245-257 | records maxAge old by the exact clock are ingested when the report is read, in every run and whenever the clock is read, exactly when maxAge is whole milliseconds, or one nanosecond short of it with appends after the monitor's reading |
| Freshness.PermittedSeesOldRecords | internal/store/auth.go:55-59 | over every run of broker, monitor, ingestion and all other writes on one database, with the clock read at any point after the snapshot: when the decision permits a request, every record the topic has by then that is at least maxAge old at the millisecond read is in the usage rows of the snapshot, and the balance compared with the fee is net of the fees of all its rows |

## Findings

- Age of a covered record. Observations are truncated to milliseconds, so the age the
  webhook relies on is exact only for some ages. `LagProtocol.AgedIngestedIff` gives them
  for every maxAge of at least the minimum, and `LagProtocol.MissedWhenInexact` builds a
  failing run for each of the others. `LagProtocol.CoveredIngestedIff` does the same for
  the covered instant itself.
- Batches out of chain order. The store alone accepts them, and escrow can then go
  negative inside a run: `Overdraw.OutOfOrderOverdraws` is such a run from the empty
  database, for every positive amount. `Solvency.RewindSolventIff` says when a rewind
  leaves a solvent store, for any order of rows, and `SolventRuns.RunSolventIff` lifts
  the condition to whole runs. The listener only sends batches in chain
  order, where `Solvency.SettlementPostingsStaySolvent` and
  `Solvency.EventPostingsStaySolvent` hold.
- Convergence needs a head at or above the stored tip. A shorter chain gives an error on
  every step until it has grown (`Convergence.ShorterChainWaits`), and a reorg deeper than
  the lookback stops the listener (`Convergence.TooDeep`); `Convergence.ConvergesIff` is
  the exact condition.
- Partition order decides rows only for shared events. Which of two copies of an event is
  applied and which is a duplicate depends on the partition read first:
  `RowConfluence.SharedDiffer` gives two interleavings with different rows for any event
  that two partitions deliver and the database does not know, and
  `RowConfluence.RowsConfluentIff` says there is no other case.

## Left out

- PolledBalances: assumes that, when the last header of a batch reads the same before and
  after the filter, the filter's answers are the logs of the fetched blocks. A chain that
  moves away and back between the two reads is not detected by the source either.
- Step: one answer per block number in a step. The source reads the header below the
  checkpoint once for the tip check and again in the ancestor walk, and may see two.
- ServedBalances: the listener is the only writer of the chain tables, as in the source.
- PermittedSeesOldRecords: one consumer and one monitor per topic, as in the source.
- Rewind: the rows its two queries return are parameters, required to be each affected row
  once in the queries' order.
- OutOfOrderOverdraws: uses block numbers 10, 5 and 7; the amount, sender, stream and
  block hash are arbitrary.
- SQL, the driver, WAL and the migration runner: each table is a map and each write one
  atomic step; UNIQUE constraints are error results, except the one on a key's secret hash.
- Transfer reasons, references and timestamps, last-used times of keys and sessions, and
  the display strings of error messages.
- Generated ids and idempotency keys are datatype values; freshness of ids is a condition
  of a run. Treasury and escrow owners are senders: one chain and one contract.
- JSON, ABI and Keccak decoding: a Kafka payload comes with what decoding makes of it, a
  log with its event type and fields. TicketBroker discovery and getSenderInfo are left
  out, and with them the sender filter of the log query.
- SHA-256 of API keys and requests: hashes and fingerprints are compared for equality.
- The 256-digit cap on stored amounts, which only refuses writes, and the overflow checks
  on block numbers and timestamps.
- RPC transport errors, retries, the parallelism of the header fetch and the fatal or
  transient class of listener errors.
- The broker, its readers and goroutines, retained-offset checks, and the second attempt
  of a probe whose checkpoint lies outside the offsets, which is one more probe step.
- HTTP handlers, permissions, pagination, listings and reports, the command line, metrics
  publication and alerting.

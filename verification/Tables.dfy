/** Blocks and decoded TicketBroker logs (internal/chain/listener.go). */
module Blocks {
  import opened Results

  /** Addresses, transaction hashes and row ids. */
  type Id = string

  datatype EventType =
    | DepositFunded | ReserveFunded | ReserveClaimed | Withdrawal | WinningTicketTransfer | WinningTicketRedeemed

  /** The ticket data of a redemption; `pm` is its payment session. */
  datatype Ticket = Ticket(winProb: nat, nonce: nat, rand: nat, pm: Id, aux: string)

  /** One contract log as decoded, before it is bound to its block. */
  datatype RawLog = RawLog(
    kind: EventType, txHash: Id, logIndex: nat, sender: Id, recipient: Id,
    amount: nat, depositAmount: nat, reserveAmount: nat, ticket: Ticket)

  /**
   * A block hash determines the block, hence its whole past. `rest` is everything in the
   * block but the contract logs: siblings with the same logs are different blocks.
   */
  datatype Hash = NoHash | Hash(number: nat, parent: Hash, logs: seq<RawLog>, rest: string)

  datatype Block = Block(number: int, hash: Hash)

  /** The identity under which the store keeps events and settlements unique. */
  datatype LogId = LogId(blockHash: Hash, txHash: Id, logIndex: nat)

  datatype Settlement = Settlement(
    log: LogId, block: int, sender: Id, recipient: Id,
    face: nat, paid: nat, depositPaid: nat, reservePaid: nat, ticket: Ticket)

  datatype Event = Event(
    kind: EventType, log: LogId, block: int, sender: Id, recipient: Id,
    amount: nat, depositAmount: nat, reserveAmount: nat, settlement: Option<Settlement>)
}

/** The database: one record per table group, one map per table. */
module Tables {
  import opened Results
  import opened Blocks
  import opened KafkaLag

  datatype Currency = Usd | Eth

  // ---- Ledger ----

  datatype Kind =
    | GrantFundingSource | GrantUnallocated | AllocationAvailable | AllocationSpent
    | TreasuryCash | TreasurySettledSpend | EscrowDeposit | EscrowReserve

  /** The owner is a grant or allocation id, or the sender of a treasury or escrow account. */
  datatype Account = Account(kind: Kind, owner: Id, currency: Currency)

  datatype Leg = Only | Deposit | Reserve

  datatype RowTable = EventRows | SettlementRows

  /**
   * The idempotency key of a ledger transaction. A RowKey stands for the source's
   * `event:`, `settle:`, `orphan:event:` and `orphan:settle:` keys.
   */
  datatype Key =
    | SnapshotKey(stream: Id, sender: Id, leg: Leg)
    | RowKey(table: RowTable, orphan: bool, id: LogId, generation: nat, leg: Leg)
    | UsageKey(eventId: Id)
    | CreateKey(created: Id)
    | FundKey(funding: Id)
    | RevokeKey(revoked: Id)

  /** A ledger transaction with its two equal and opposite entries. */
  datatype Posting = Posting(debit: Account, credit: Account, amount: int)

  /** `postings` is the append-only ledger, `balances` the cache account_balances. */
  datatype Books = Books(postings: map<Key, Posting>, balances: map<Account, int>)

  // ---- Summaries ----

  datatype AmountName =
    | Sum(kind: Kind) | AllocationOverdraw | SettlementFaceValue | SettlementPaid | SettlementShortfall

  datatype GrantStatus = Draft | ActiveGrant | PausedGrant | Closed
  datatype AllocationStatus = Active | Paused | Exhausted | Revoked
  datatype MatchTag = UnmatchedTag | MatchedTag | AmbiguousTag

  datatype Reason =
    | NoReason | BadEnvelope | ConflictingId | TicketData | UnknownSession | SessionBinding | InvalidTicket | MissingUsdFee

  datatype CountKey =
    | Grants(currency: Currency, grantStatus: GrantStatus)
    | Allocations(currency: Currency, allocationStatus: AllocationStatus)
    | Quarantines(reason: Reason)
    | Settlements(settled: bool, matching: MatchTag)
    | AllocationsOverdrawn(currency: Currency)
    | EscrowUnfunded(bucket: Kind)
    | SettlementsUnderpaid

  datatype Source = AllocationSource(id: Id) | SnapshotSource(stream: Id, sender: Id)

  datatype TrackedKey = TrackedKey(kind: Kind, source: Source, currency: Currency)
  datatype Tracked = Tracked(owner: Id, balance: int)

  /** metric_amounts, metric_counts and metric_balances. */
  datatype Summary = Summary(
    amounts: map<(AmountName, Currency), int>,
    counts: map<CountKey, int>,
    tracked: map<TrackedKey, Tracked>)

  // ---- Grants, allocations, keys, sessions ----

  datatype Grant = Grant(total: int, currency: Currency, status: GrantStatus, starts: Option<int>, ends: Option<int>)

  datatype Allocation = Allocation(
    grant: Id, units: int, currency: Currency, status: AllocationStatus, starts: Option<int>, ends: Option<int>)

  datatype ApiKey = ApiKey(allocation: Id, secretHash: Id, revoked: bool)

  datatype Session = Session(
    allocation: Id, apiKey: Id, stateId: Id, app: Id, paymentType: Id, orchestrator: Id, active: bool)

  datatype Reply = Reply(fingerprint: Id, response: seq<Id>)

  datatype Budget = Budget(
    grants: map<Id, Grant>, allocations: map<Id, Allocation>, apiKeys: map<Id, ApiKey>,
    sessions: map<Id, Session>, replies: map<(Id, Id), Reply>)

  // ---- Usage ----

  datatype UsdFee = Absent | Unparsable | UsdUnits(units: nat)

  /** A decoded create_signed_ticket event; `feeWei` is None when Amount refuses it. */
  datatype SignedTicket = SignedTicket(
    sessionId: Id, authId: Id, app: Id, pipeline: Id, requestId: Id, orchestrator: string, pm: string,
    feeWei: Option<nat>, feeUsd: UsdFee, tickets: int, started: int, ended: int)

  /**
   * A Kafka record: its bytes with what JSON decoding makes of them, so that equal
   * payloads are equal bytes. `Malformed` covers a missing id, type or data.
   */
  datatype Payload =
    | Malformed(bytes: string)
    | OtherType(bytes: string, id: Id)
    | BadTicket(bytes: string, id: Id)
    | TicketEvent(bytes: string, id: Id, ticket: SignedTicket)

  datatype Partition = Partition(topic: Id, number: int)
  datatype Position = Position(partition: Partition, offset: int)

  datatype UsageStatus = Applied | Quarantined | Ignored | Duplicate

  datatype UsageRow = UsageRow(
    eventId: Option<Id>, raw: Payload, session: Option<Id>, feeWei: Option<nat>, feeUsd: Option<nat>,
    status: UsageStatus, reason: Reason)

  /** A signing authorization; its row is identified by its usage event. */
  datatype Authorization = Authorization(session: Id, pm: Id, orchestrator: Id)

  datatype Usage = Usage(
    rows: map<Position, UsageRow>, authorizations: map<Position, Authorization>,
    next: map<Partition, int>, lag: map<Id, Lag>)

  // ---- Escrow ----

  datatype Match = Unmatched | Matched(session: Id) | Ambiguous

  datatype SnapshotRow = SnapshotRow(anchor: int, hash: Hash, deposit: nat, reserve: nat)

  datatype EventData = EventData(
    kind: EventType, sender: Id, recipient: Id, amount: nat, depositAmount: nat, reserveAmount: nat, block: int)

  datatype EventRow = EventRow(data: EventData, canonical: bool, generation: nat)

  datatype SettlementData = SettlementData(
    block: int, sender: Id, recipient: Id, face: nat, paid: nat, depositPaid: nat, reservePaid: nat, ticket: Ticket)

  datatype SettlementRow = SettlementRow(data: SettlementData, matching: Match, settled: bool, generation: nat)

  datatype Checkpoint = Checkpoint(next: int, hash: Hash)

  datatype Chain = Chain(blocks: map<int, Hash>, checkpoint: Option<Checkpoint>)

  datatype Escrow = Escrow(
    snapshots: map<(Id, Id), SnapshotRow>, events: map<LogId, EventRow>,
    settlements: map<LogId, SettlementRow>, chains: map<Id, Chain>)

  // ---- The database ----

  datatype DB = DB(books: Books, summary: Summary, budget: Budget, usage: Usage, escrow: Escrow)

  datatype Error =
    | NegativeTransfer | DuplicateKey | NoRows | CountBelowZero | UniqueViolation
    | InvalidInput | StateConflict | UnknownResource
    | OffsetGap | InvalidPosition
    | IdentityReused | MissingSettlement | InvalidSplit | BalanceMismatch | InsufficientReserve
    | EmptySnapshot | EmptyBatch | InvalidAnchor | SnapshotReorg
    | FingerprintConflict

  type Outcome<T> = Result<T, Error>
}

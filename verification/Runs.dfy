/**
 * Whole runs: management, authorization, Kafka ingestion, lag publications, chain
 * batches and rewinds in any order, each an all-or-nothing write (Store.Write in
 * internal/store/store.go:79-114).
 */
module Runs {
  import opened Results
  import opened Blocks
  import opened Tables
  import opened Books
  import opened Summaries
  import opened Attribution
  import opened EscrowStore
  import opened EscrowSteps
  import opened Reorgs
  import opened Rewinds
  import opened Bootstrap
  import opened Management
  import opened Ingestion
  import opened IngestSteps
  import opened Invariant
  import opened IngestKeeps
  import opened Authorize
  import opened Idempotent
  import opened ManagementKeeps
  import KafkaLag

  // ---- Writes ----

  datatype Op =
    | NewGrant(id: Id, amount: nat, currency: Option<Currency>, grantStatus: Option<GrantStatus>, window: Window)
    | Manage(key: string, fingerprint: Id, mutation: Mutation)
    | SetGrant(id: Id, toGrant: GrantStatus)
    | SetAllocation(id: Id, toAllocation: AllocationStatus)
    | DropKey(id: Id)
    | DropSession(id: Id)
    | Sign(request: Request, clock: Clock, id: Id)
    | Consume(pos: Position, raw: Payload)
    | PublishLag(topic: Id, lag: KafkaLag.Lag)
    | OpenChain(stream: Id, anchor: Block, snapshots: seq<Opening>)
    | ApplyBlocks(stream: Id, blocks: seq<Block>, events: seq<Event>, lookback: int)
    | Reorg(stream: Id, ancestor: Block, settled: seq<LogId>, canonical: seq<LogId>)

  function SetLag(db: DB, topic: Id, lag: KafkaLag.Lag): DB {
    db.(usage := db.usage.(lag := db.usage.lag[topic := lag]))
  }

  function Exec(db: DB, op: Op): Outcome<DB> {
    match op
    case NewGrant(id, amount, currency, status, window) => CreateGrant(db, id, amount, currency, status, window)
    case Manage(key, fingerprint, mutation) =>
      var r :- WriteIdempotent(db, key, fingerprint, mutation);
      Ok(r.0)
    case SetGrant(id, status) => SetGrantStatus(db, id, status)
    case SetAllocation(id, status) => SetAllocationStatus(db, id, status)
    case DropKey(id) => RevokeApiKey(db, id)
    case DropSession(id) => RevokeSession(db, id)
    case Sign(request, clock, id) =>
      var c :- Commit(db, request, clock, id);
      Ok(c.0)
    case Consume(pos, raw) => Ingest(db, pos, raw)
    case PublishLag(topic, lag) => Ok(SetLag(db, topic, lag))
    case OpenChain(stream, anchor, snapshots) => BootstrapChain(db, stream, anchor, snapshots)
    case ApplyBlocks(stream, blocks, events, lookback) => ApplyChain(db, stream, blocks, events, lookback)
    case Reorg(stream, ancestor, settled, canonical) => Rewind(db, stream, ancestor, settled, canonical)
  }

  /** A write that fails is rolled back. */
  function Next(db: DB, op: Op): DB {
    var r := Exec(db, op);
    if r.Ok? then r.value else db
  }

  /** Generated ids are new, events come out of the decoder, listings out of the queries. */
  ghost predicate Enabled(db: DB, op: Op) {
    match op
    case NewGrant(id, _, _, _, _) => FreshGrant(db, id)
    case Manage(_, _, mutation) => FreshMutation(db, mutation)
    case Sign(_, _, id) => id !in db.budget.sessions
    case ApplyBlocks(_, _, events, _) => forall e :: e in events ==> Decoded(e)
    case Reorg(_, ancestor, settled, canonical) =>
      ListsSettlements(db, settled, ancestor.number) && ListsEvents(db, canonical, ancestor.number)
    case _ => true
  }

  ghost function Run(db: DB, ops: seq<Op>): DB {
    if ops == [] then db else Next(Run(db, ops[..|ops| - 1]), ops[|ops| - 1])
  }

  ghost predicate Valid(db: DB, ops: seq<Op>) {
    ops == [] || (Valid(db, ops[..|ops| - 1]) && Enabled(Run(db, ops[..|ops| - 1]), ops[|ops| - 1]))
  }

  lemma RunSnoc(db: DB, ops: seq<Op>, op: Op)
    ensures Run(db, ops + [op]) == Next(Run(db, ops), op)
    ensures Valid(db, ops + [op]) <==> Valid(db, ops) && Enabled(Run(db, ops), op)
  {
    assert (ops + [op])[..|ops|] == ops;
  }

  lemma {:induction false} RunConcat(db: DB, ops: seq<Op>, more: seq<Op>)
    ensures Run(db, ops + more) == Run(Run(db, ops), more)
    ensures Valid(db, ops + more) <==> Valid(db, ops) && Valid(Run(db, ops), more)
  {
    if more == [] {
      assert ops + more == ops;
    } else {
      var front := more[..|more| - 1];
      RunConcat(db, ops, front);
      assert ops + more == ops + front + [more[|more| - 1]];
      assert more == front + [more[|more| - 1]];
      RunSnoc(db, ops + front, more[|more| - 1]);
      RunSnoc(Run(db, ops), front, more[|more| - 1]);
    }
  }

  // ---- Every write keeps the invariant ----

  lemma SessionAdded(b: Budget, b': Budget, id: Id, s: Session)
    requires SessionsOk(b) && id !in b.sessions && b' == b.(sessions := b.sessions[id := s])
    requires s.apiKey in b.apiKeys && b.apiKeys[s.apiKey].allocation == s.allocation
    requires forall t :: t in b.sessions ==> b.sessions[t].stateId != s.stateId
    ensures SessionsOk(b') && SameBindings(b, b')
  {
  }

  lemma CommitInv(db: DB, r: Request, clock: Clock, id: Id)
    requires Inv(db) && id !in db.budget.sessions
    ensures var c := Commit(db, r, clock, id);
            c.Ok? ==> Inv(c.value.0) && ManagementSide(db, c.value.0)
  {
    InvConjuncts(db);
    var c := Commit(db, r, clock, id);
    if c.Ok? {
      if Decide(db, r, clock) == Allow(None) {
        AllowMeaning(db, r, clock);
        SessionForMeaning(db.budget, r.stateId);
        var s := Session(db.budget.apiKeys[r.credential.keyId].allocation, r.credential.keyId, r.stateId, r.app, r.paymentType,
                         Address(r.orchestrator).value, true);
        hide Inv, BooksOk, SummaryOk, BudgetOk, RevokedOnce, EscrowInv, UsageOk, KnownHolders, AttributionOk, Decide, SessionFor, ManagementSide, SameBindings, Held;
        SessionAdded(db.budget, c.value.0.budget, id, s);
        hide SessionsOk;
        AccessInv(db, c.value.0);
      } else {
        ReplayInv(db);
      }
    }
  }

  lemma LagInv(db: DB, topic: Id, lag: KafkaLag.Lag)
    requires Inv(db)
    ensures Inv(SetLag(db, topic, lag))
  {
    InvConjuncts(db);
    LagFrame(db, topic, lag);
    var db' := SetLag(db, topic, lag);
    assert db'.books == db.books && db'.budget == db.budget && db'.summary == db.summary && db'.escrow == db.escrow &&
           db'.usage.authorizations == db.usage.authorizations;
    hide *;
    SummaryFrame(db, db');
    ChainSideKeeps(db, db');
    SameAttribution(db, db');
    EscrowParts(db');
    BudgetSideKeeps(db, db');
    RevokedSame(db, db');
    UsageSideKeeps(db, db');
    AllParts(db');
  }

  lemma LagFrame(db: DB, topic: Id, lag: KafkaLag.Lag)
    ensures var db' := SetLag(db, topic, lag);
            SameSources(db, db') && ChainSide(db, db') && BudgetSide(db, db') && UsageSide(db, db')
  {
  }

  lemma ChainInv(db: DB, db': DB)
    requires Inv(db) && EscrowInv(db') && (ChainWrite(db, db') || OpeningWrite(db, db'))
    ensures Inv(db')
  {
    hide Inv, EscrowInv, Held;
    ChainWriteKeeps(db, db');
  }

  lemma EscrowOf(db: DB)
    requires Inv(db)
    ensures EscrowInv(db)
  {
    hide EscrowInv;
  }

  lemma OpenInv(db: DB, stream: Id, anchor: Block, snapshots: seq<Opening>)
    requires Inv(db)
    ensures var r := BootstrapChain(db, stream, anchor, snapshots);
            r.Ok? ==> Inv(r.value)
  {
    EscrowOf(db);
    hide *;
    BootstrapKeeps(db, stream, anchor, snapshots);
    if BootstrapChain(db, stream, anchor, snapshots).Ok? { ChainInv(db, BootstrapChain(db, stream, anchor, snapshots).value); }
  }

  lemma ApplyInv(db: DB, stream: Id, blocks: seq<Block>, events: seq<Event>, lookback: int)
    requires Inv(db) && forall e :: e in events ==> Decoded(e)
    ensures var r := ApplyChain(db, stream, blocks, events, lookback);
            r.Ok? ==> Inv(r.value)
  {
    EscrowOf(db);
    hide *;
    ApplyChainKeeps(db, stream, blocks, events, lookback);
    if ApplyChain(db, stream, blocks, events, lookback).Ok? { ChainInv(db, ApplyChain(db, stream, blocks, events, lookback).value); }
  }

  lemma ReorgInv(db: DB, stream: Id, ancestor: Block, settled: seq<LogId>, canonical: seq<LogId>)
    requires Inv(db) && ListsSettlements(db, settled, ancestor.number) && ListsEvents(db, canonical, ancestor.number)
    ensures var r := Rewind(db, stream, ancestor, settled, canonical);
            r.Ok? ==> Inv(r.value)
  {
    EscrowOf(db);
    hide *;
    RewindKeeps(db, stream, ancestor, settled, canonical);
    if Rewind(db, stream, ancestor, settled, canonical).Ok? { ChainInv(db, Rewind(db, stream, ancestor, settled, canonical).value); }
  }

  lemma FrameOf(db: DB, db': DB)
    requires ChainWrite(db, db') || OpeningWrite(db, db')
    ensures db'.usage == db.usage && db'.budget == db.budget
  {
    hide RowKeysAdded, Held;
  }

  lemma OpenFrame(db: DB, stream: Id, anchor: Block, snapshots: seq<Opening>)
    requires EscrowInv(db)
    ensures var r := BootstrapChain(db, stream, anchor, snapshots);
            r.Ok? ==> r.value.usage == db.usage && r.value.budget == db.budget
  {
    hide *;
    BootstrapKeeps(db, stream, anchor, snapshots);
    if BootstrapChain(db, stream, anchor, snapshots).Ok? { FrameOf(db, BootstrapChain(db, stream, anchor, snapshots).value); }
  }

  lemma ApplyFrame(db: DB, stream: Id, blocks: seq<Block>, events: seq<Event>, lookback: int)
    requires EscrowInv(db) && forall e :: e in events ==> Decoded(e)
    ensures var r := ApplyChain(db, stream, blocks, events, lookback);
            r.Ok? ==> r.value.usage == db.usage && r.value.budget == db.budget
  {
    hide *;
    ApplyChainKeeps(db, stream, blocks, events, lookback);
    if ApplyChain(db, stream, blocks, events, lookback).Ok? { FrameOf(db, ApplyChain(db, stream, blocks, events, lookback).value); }
  }

  lemma ReorgFrame(db: DB, stream: Id, ancestor: Block, settled: seq<LogId>, canonical: seq<LogId>)
    requires EscrowInv(db) && ListsSettlements(db, settled, ancestor.number) && ListsEvents(db, canonical, ancestor.number)
    ensures var r := Rewind(db, stream, ancestor, settled, canonical);
            r.Ok? ==> r.value.usage == db.usage && r.value.budget == db.budget
  {
    hide *;
    RewindKeeps(db, stream, ancestor, settled, canonical);
    if Rewind(db, stream, ancestor, settled, canonical).Ok? { FrameOf(db, Rewind(db, stream, ancestor, settled, canonical).value); }
  }

  lemma NextIs(db: DB, op: Op, r: Outcome<DB>)
    requires Exec(db, op) == r
    ensures Next(db, op) == if r.Ok? then r.value else db
  {
    hide Exec;
  }

  lemma ChainExec(db: DB, op: Op)
    ensures op.OpenChain? ==> Exec(db, op) == BootstrapChain(db, op.stream, op.anchor, op.snapshots)
    ensures op.ApplyBlocks? ==> Exec(db, op) == ApplyChain(db, op.stream, op.blocks, op.events, op.lookback)
    ensures op.Reorg? ==> Exec(db, op) == Rewind(db, op.stream, op.ancestor, op.settled, op.canonical)
  {
    hide CreateGrant, WriteIdempotent, SetGrantStatus, SetAllocationStatus, RevokeApiKey, RevokeSession, Commit, Ingest,
         SetLag, BootstrapChain, ApplyChain, Rewind;
  }

  lemma OpenNext(db: DB, op: Op)
    requires EscrowInv(db) && op.OpenChain?
    ensures Next(db, op).usage == db.usage && Next(db, op).budget == db.budget
  {
    hide *;
    ChainExec(db, op);
    OpenFrame(db, op.stream, op.anchor, op.snapshots);
    NextIs(db, op, BootstrapChain(db, op.stream, op.anchor, op.snapshots));
  }

  lemma ApplyNext(db: DB, op: Op)
    requires EscrowInv(db) && op.ApplyBlocks? && forall e :: e in op.events ==> Decoded(e)
    ensures Next(db, op).usage == db.usage && Next(db, op).budget == db.budget
  {
    hide *;
    ChainExec(db, op);
    ApplyFrame(db, op.stream, op.blocks, op.events, op.lookback);
    NextIs(db, op, ApplyChain(db, op.stream, op.blocks, op.events, op.lookback));
  }

  lemma ReorgNext(db: DB, op: Op)
    requires EscrowInv(db) && op.Reorg? && ListsSettlements(db, op.settled, op.ancestor.number) && ListsEvents(db, op.canonical, op.ancestor.number)
    ensures Next(db, op).usage == db.usage && Next(db, op).budget == db.budget
  {
    hide *;
    ChainExec(db, op);
    ReorgFrame(db, op.stream, op.ancestor, op.settled, op.canonical);
    NextIs(db, op, Rewind(db, op.stream, op.ancestor, op.settled, op.canonical));
  }

  lemma EnabledBatch(db: DB, op: Op)
    requires Enabled(db, op) && op.ApplyBlocks?
    ensures forall e :: e in op.events ==> Decoded(e)
  {
    hide Decoded, FreshGrant, FreshMutation, ListsSettlements, ListsEvents;
  }

  lemma EnabledListings(db: DB, op: Op)
    requires Enabled(db, op) && op.Reorg?
    ensures ListsSettlements(db, op.settled, op.ancestor.number) && ListsEvents(db, op.canonical, op.ancestor.number)
  {
    hide Decoded, FreshGrant, FreshMutation, ListsSettlements, ListsEvents;
  }

  /** Chain writes leave usage and budget alone. */
  lemma ChainOpFrame(db: DB, op: Op)
    requires Inv(db) && Enabled(db, op) && (op.OpenChain? || op.ApplyBlocks? || op.Reorg?)
    ensures Next(db, op).usage == db.usage && Next(db, op).budget == db.budget
  {
    hide *;
    EscrowOf(db);
    if op.OpenChain? {
      OpenNext(db, op);
    } else if op.ApplyBlocks? {
      EnabledBatch(db, op);
      ApplyNext(db, op);
    } else {
      EnabledListings(db, op);
      ReorgNext(db, op);
    }
  }

  /** Any write from a good state, committed or rolled back, leaves a good state. */
  lemma StepKeepsInv(db: DB, op: Op)
    requires Inv(db) && Enabled(db, op)
    ensures Inv(Next(db, op))
  {
    hide Inv, CreateGrant, WriteIdempotent, SetGrantStatus, SetAllocationStatus, RevokeApiKey, RevokeSession, Commit, Ingest,
         BootstrapChain, ApplyChain, Rewind, FreshGrant, FreshMutation, ListsSettlements, ListsEvents, ManagementSide,
         RowFor, ChargeRecorded, Audited, Decoded, NextOf, ValidPosition;
    match op
    case NewGrant(id, amount, currency, status, window) => CreateGrantInv(db, id, amount, currency, status, window);
    case Manage(key, fingerprint, mutation) => WriteIdempotentInv(db, key, fingerprint, mutation);
    case SetGrant(id, status) => SetGrantStatusInv(db, id, status);
    case SetAllocation(id, status) => SetAllocationStatusInv(db, id, status);
    case DropKey(id) => RevokeKeyInv(db, id);
    case DropSession(id) => RevokeSessionInv(db, id);
    case Sign(request, clock, id) => CommitInv(db, request, clock, id);
    case Consume(pos, raw) => IngestKeepsInv(db, pos, raw);
    case PublishLag(topic, lag) => LagInv(db, topic, lag);
    case OpenChain(stream, anchor, snapshots) => OpenInv(db, stream, anchor, snapshots);
    case ApplyBlocks(stream, blocks, events, lookback) => ApplyInv(db, stream, blocks, events, lookback);
    case Reorg(stream, ancestor, settled, canonical) => ReorgInv(db, stream, ancestor, settled, canonical);
  }

  // ---- The empty database ----

  /** The rows migration 003 creates. */
  const ZEROES: map<(AmountName, Currency), int> :=
    map[(Sum(GrantUnallocated), Usd) := 0, (Sum(GrantUnallocated), Eth) := 0,
        (Sum(AllocationAvailable), Usd) := 0, (Sum(AllocationAvailable), Eth) := 0,
        (Sum(AllocationSpent), Usd) := 0, (Sum(AllocationSpent), Eth) := 0,
        (AllocationOverdraw, Usd) := 0, (AllocationOverdraw, Eth) := 0,
        (SettlementFaceValue, Eth) := 0, (SettlementPaid, Eth) := 0, (SettlementShortfall, Eth) := 0,
        (Sum(EscrowDeposit), Eth) := 0, (Sum(EscrowReserve), Eth) := 0]

  const EMPTY: DB := DB(
    Books(map[], map[]), Summary(ZEROES, map[], map[]), Budget(map[], map[], map[], map[], map[]),
    Usage(map[], map[], map[], map[]), Escrow(map[], map[], map[], map[]))

  lemma ZeroRows(name: AmountName, currency: Currency)
    requires AmountRow(name, currency)
    ensures (name, currency) in ZEROES && ZEROES[(name, currency)] == 0
  {
    match name
    case Sum(kind) => assert name == Sum(kind);
    case _ =>
  }

  lemma EmptySummary()
    ensures SummaryOk(EMPTY)
  {
    EmptyAmounts();
    EmptyCounts();
    EmptyTracked();
    hide AmountsOk, CountsOk, TrackedOk;
  }

  lemma EmptyAmounts()
    ensures AmountsOk(EMPTY)
  {
    forall name, currency | AmountRow(name, currency)
      ensures (name, currency) in EMPTY.summary.amounts && EMPTY.summary.amounts[(name, currency)] == RebuiltAmount(EMPTY, name, currency)
    {
      ZeroRows(name, currency);
      hide ZEROES;
    }
  }

  lemma EmptyCounts()
    ensures CountsOk(EMPTY)
  {
    hide ZEROES;
  }

  lemma EmptyTracked()
    ensures TrackedOk(EMPTY)
  {
    hide ZEROES;
    forall k ensures !IsTracked(EMPTY, k) { }
  }

  lemma EmptyInv()
    ensures Inv(EMPTY)
  {
    EmptySummary();
    EmptyEscrow();
    EmptyBudget();
    hide EscrowInv, BudgetOk, RevokedOnce, UsageOk, SessionsOk;
  }

  lemma EmptyEscrow()
    requires SummaryOk(EMPTY)
    ensures EscrowInv(EMPTY)
  {
    hide ZEROES, SummaryOk;
  }

  lemma EmptyBudget()
    ensures BudgetOk(EMPTY) && RevokedOnce(EMPTY) && UsageOk(EMPTY) && SessionsOk(EMPTY.budget)
  {
    hide ZEROES;
  }

  /**
   * The theorem of the model: after any run, books and their cache, zero sums, summaries
   * equal to their rebuild, budget conservation, exactly-once charges, attribution, the
   * replayed escrow and the generation discipline all hold.
   */
  lemma {:induction false} RunKeepsInv(ops: seq<Op>)
    requires Valid(EMPTY, ops)
    ensures Inv(Run(EMPTY, ops))
  {
    hide Inv, Enabled, Next;
    if ops == [] {
      EmptyInv();
    } else {
      RunKeepsInv(ops[..|ops| - 1]);
      StepKeepsInv(Run(EMPTY, ops[..|ops| - 1]), ops[|ops| - 1]);
    }
  }
}

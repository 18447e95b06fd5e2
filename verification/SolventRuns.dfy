/**
 * Solvency over whole runs (internal/store/settlements.go): every write but a rewind keeps
 * escrow balances at or above zero, whatever order blocks arrive in, so a run is solvent
 * exactly when each of its rewinds leaves enough behind.
 */
module SolventRuns {
  import opened Totals
  import opened Blocks
  import opened Tables
  import opened Books
  import opened Summaries
  import opened Attribution
  import opened EscrowStore
  import opened EscrowLedger
  import opened EscrowSteps
  import opened Reorgs
  import opened Rewinds
  import opened Bootstrap
  import opened Replay
  import opened ReplaySteps
  import opened Solvency
  import opened Management
  import opened Ingestion
  import opened IngestSteps
  import opened Invariant
  import opened IngestKeeps
  import opened Authorize
  import opened Idempotent
  import opened ManagementKeeps
  import opened Runs

  // ---- One event ----

  lemma EventsAfter(rows: map<LogId, EventRow>, id: LogId, row: EventRow, kind: Kind, sender: Id)
    requires id in rows ==> !rows[id].canonical
    ensures Total(rows[id := row], EventPart(kind, sender)) == Total(rows, EventPart(kind, sender)) + Part(EventRowOf(row), kind, sender)
  {
    hide Total;
    Updated(rows, EventPart(kind, sender), id, row);
    if id in rows { NotLive(rows[id]); }
  }

  lemma NotLive(row: EventRow)
    ensures EventRowOf(row).live == row.canonical
  {
  }

  lemma SettlementsAfter(db: DB, s: Settlement, kind: Kind, sender: Id)
    requires s.log in db.escrow.settlements ==> !db.escrow.settlements[s.log].settled
    ensures s.log in SettledRows(db, s)
    ensures Total(SettledRows(db, s), SettlementPart(kind, sender)) ==
            Total(db.escrow.settlements, SettlementPart(kind, sender)) + Part(SettlementRowOf(SettledRows(db, s)[s.log]), kind, sender)
  {
    hide Total, WantedMatch, SessionsFor;
    var w, rows, next := SettlementPart(kind, sender), db.escrow.settlements, SettledRows(db, s);
    var entered := rows[s.log := next[s.log]];
    Updated(rows, w, s.log, next[s.log]);
    assert entered.Keys == next.Keys;
    Reweighed(entered, next, w, w);
  }

  /** What an event that goes live adds to a chain balance. */
  ghost function Added(db: DB, e: Event, kind: Kind, sender: Id): int
    requires e.kind == WinningTicketRedeemed ==> e.settlement.Some? && e.settlement.value.log in SettledRows(db, e.settlement.value)
  {
    Part(EventRowOf(NextEvent(db, e)), kind, sender) +
    if e.kind == WinningTicketRedeemed then Part(SettlementRowOf(SettledRows(db, e.settlement.value)[e.settlement.value.log]), kind, sender) else 0
  }

  lemma AppliedHeld(db: DB, e: Event, kind: Kind, sender: Id)
    requires EscrowInv(db) && Decoded(e) && ApplyEvent(db, e).Ok? && !AlreadyCanonical(db, e) && ChainKind(kind)
    ensures e.kind == WinningTicketRedeemed ==> e.settlement.Some? && e.settlement.value.log in SettledRows(db, e.settlement.value)
    ensures Balance(ApplyEvent(db, e).value, kind, sender, Eth) == Balance(db, kind, sender, Eth) + Added(db, e, kind, sender)
  {
    ApplyEventKeeps(db, e);
    var db' := ApplyEvent(db, e).value;
    InvParts(db);
    InvParts(db');
    SnapshotsKept(db, db');
    hide ApplyEvent, EscrowInv, AgreeOk, Total, Part, EventPart, SettlementPart, SettledRows, NextEvent, RowsOnly, WithdrawsAll, Redeemable, Held;
    EventsAfter(db.escrow.events, e.log, NextEvent(db, e), kind, sender);
    if e.kind == WinningTicketRedeemed {
      StillOpen(db, e);
      SettlementsAfter(db, e.settlement.value, kind, sender);
    }
  }

  lemma SnapshotsKept(db: DB, db': DB)
    requires RowsOnly(db, db')
    ensures db'.escrow.snapshots == db.escrow.snapshots
  {
  }

  lemma StillOpen(db: DB, e: Event)
    requires AgreeOk(db.escrow) && Decoded(e) && !AlreadyCanonical(db, e) && e.settlement.Some?
    ensures e.settlement.value.log in db.escrow.settlements ==> !db.escrow.settlements[e.settlement.value.log].settled
  {
    assert AgreeAt(db.escrow, e.log);
  }

  /** No accepted event takes more than there is. */
  lemma AddedSolvent(db: DB, e: Event, sender: Id)
    requires Applicable(db, e) && !AlreadyCanonical(db, e) && Solvent(HeldPool(db, sender))
    requires e.kind == WinningTicketRedeemed ==> e.settlement.Some? && e.settlement.value.log in SettledRows(db, e.settlement.value)
    requires Decoded(e) && AgreeOk(db.escrow)
    ensures Balance(db, EscrowDeposit, sender, Eth) + Added(db, e, EscrowDeposit, sender) >= 0
    ensures Balance(db, EscrowReserve, sender, Eth) + Added(db, e, EscrowReserve, sender) >= 0
  {
    hide Held, WantedMatch, SessionsFor, AgreeOk;
    if e.kind == WinningTicketRedeemed { StillOpen(db, e); }
  }

  lemma ApplyEventSolvent(db: DB, e: Event)
    requires EscrowInv(db) && Decoded(e) && ApplyEvent(db, e).Ok? && AllSolvent(db)
    ensures EscrowInv(ApplyEvent(db, e).value) && AllSolvent(ApplyEvent(db, e).value)
  {
    ApplyEventKeeps(db, e);
    InvParts(db);
    hide ApplyEvent, EscrowInv, AgreeOk, Applicable, Added, SettledRows, NextEvent, RowsOnly, Held, SumsOk, Decoded;
    var db' := ApplyEvent(db, e).value;
    if !AlreadyCanonical(db, e) {
      forall sender ensures Solvent(HeldPool(db', sender)) {
        AppliedHeld(db, e, EscrowDeposit, sender);
        AppliedHeld(db, e, EscrowReserve, sender);
        assert Solvent(HeldPool(db, sender));
        AddedSolvent(db, e, sender);
      }
    }
  }

  lemma {:induction false} ApplyEventsSolvent(db: DB, events: seq<Event>)
    requires EscrowInv(db) && (forall e :: e in events ==> Decoded(e)) && ApplyEvents(db, events).Ok? && AllSolvent(db)
    ensures EscrowInv(ApplyEvents(db, events).value) && AllSolvent(ApplyEvents(db, events).value)
  {
    hide EscrowInv, AllSolvent, ApplyEvent, Decoded;
    if events != [] {
      assert events[|events| - 1] in events;
      ApplyEventsSolvent(db, events[..|events| - 1]);
      ApplyEventSolvent(ApplyEvents(db, events[..|events| - 1]).value, events[|events| - 1]);
    }
  }

  // ---- Each write but a rewind keeps a solvent store solvent ----

  lemma ChainOfSolvent(db: DB, stream: Id, c: Chain)
    requires AllSolvent(db)
    ensures AllSolvent(WithChain(db, stream, c))
  {
    SameBooksSolvent(WithChain(db, stream, c), db);
  }

  lemma ApplyChainSolvent(db: DB, stream: Id, blocks: seq<Block>, events: seq<Event>, lookback: int)
    requires EscrowInv(db) && (forall e :: e in events ==> Decoded(e)) && ApplyChain(db, stream, blocks, events, lookback).Ok? && AllSolvent(db)
    ensures AllSolvent(ApplyChain(db, stream, blocks, events, lookback).value)
  {
    hide EscrowInv, AllSolvent, ApplyEvents, PutBlocks, Decoded;
    var c := Chain(PutBlocks(ChainOf(db, stream).blocks, blocks), ChainOf(db, stream).checkpoint);
    var db1 := WithChain(db, stream, c);
    ChainFrame(db, stream, c);
    ChainOfSolvent(db, stream, c);
    ApplyEventsSolvent(db1, events);
    var db2 := ApplyEvents(db1, events).value;
    ChainOfSolvent(db2, stream, ApplyChain(db, stream, blocks, events, lookback).value.escrow.chains[stream]);
  }

  lemma OpeningAdds(e: Escrow, e': Escrow, kind: Kind, sender: Id)
    requires EscrowKind(kind) && e'.events == e.events && e'.settlements == e.settlements
    requires forall k :: k in e.snapshots ==> k in e'.snapshots && e'.snapshots[k] == e.snapshots[k]
    ensures Replayed(e', kind, sender) >= Replayed(e, kind, sender)
  {
    hide Total;
    var w := OpeningPart(kind, sender);
    forall k | k in e'.snapshots && k !in e.snapshots ensures w(k, e'.snapshots[k]) >= 0 {
      assert OpeningEffect(e'.snapshots[k], kind) >= 0;
    }
    MoreRows(e.snapshots, e'.snapshots, w);
  }

  lemma BootstrapSolvent(db: DB, stream: Id, anchor: Block, snapshots: seq<Opening>)
    requires EscrowInv(db) && BootstrapChain(db, stream, anchor, snapshots).Ok? && AllSolvent(db)
    ensures AllSolvent(BootstrapChain(db, stream, anchor, snapshots).value)
  {
    BootstrapKeeps(db, stream, anchor, snapshots);
    var db' := BootstrapChain(db, stream, anchor, snapshots).value;
    OpenedRows(db, db', stream, anchor);
    InvParts(db);
    InvParts(db');
    hide BootstrapChain, EscrowInv, AgreeOk, Replayed, OpeningWrite, OpenedAt, Held;
    forall sender ensures Solvent(HeldPool(db', sender)) {
      assert Solvent(HeldPool(db, sender));
      OpeningAdds(db.escrow, db'.escrow, EscrowDeposit, sender);
      OpeningAdds(db.escrow, db'.escrow, EscrowReserve, sender);
    }
  }

  lemma OpenedRows(db: DB, db': DB, stream: Id, anchor: Block)
    requires OpeningWrite(db, db') && OpenedAt(db, db', stream, anchor)
    ensures db'.escrow.events == db.escrow.events && db'.escrow.settlements == db.escrow.settlements
    ensures forall k :: k in db.escrow.snapshots ==> k in db'.escrow.snapshots && db'.escrow.snapshots[k] == db.escrow.snapshots[k]
  {
    hide Held;
  }

  predicate ChainBalancesKept(db: DB, db': DB, sender: Id) {
    Balance(db', EscrowDeposit, sender, Eth) == Balance(db, EscrowDeposit, sender, Eth) &&
    Balance(db', EscrowReserve, sender, Eth) == Balance(db, EscrowReserve, sender, Eth)
  }

  lemma KeptSolvent(db: DB, db': DB)
    requires AllSolvent(db) && forall sender :: ChainBalancesKept(db, db', sender)
    ensures AllSolvent(db')
  {
    hide Held;
    forall sender ensures Solvent(HeldPool(db', sender)) {
      assert Solvent(HeldPool(db, sender)) && ChainBalancesKept(db, db', sender);
    }
  }

  lemma ManagementBalances(db: DB, db': DB, sender: Id)
    requires ManagementSide(db, db')
    ensures ChainBalancesKept(db, db', sender)
  {
    hide Held, SameBindings;
  }

  lemma ChargedBalances(db: DB, db': DB, pos: Position, row: UsageRow, sender: Id)
    requires ChargeRecorded(db, db', pos, row)
    ensures ChainBalancesKept(db, db', sender)
  {
    hide Held, OnlyMatches, RowFee, Spent;
  }

  lemma ManagedSolvent(db: DB, op: Op)
    requires Inv(db) && Enabled(db, op) && Exec(db, op).Ok? && AllSolvent(db)
    requires op.NewGrant? || op.Manage? || op.SetGrant? || op.SetAllocation? || op.DropKey? || op.DropSession? || op.Sign?
    ensures AllSolvent(Next(db, op))
  {
    hide Inv, CreateGrant, WriteIdempotent, SetGrantStatus, SetAllocationStatus, RevokeApiKey, RevokeSession, Commit, FreshGrant, FreshMutation,
         ManagementSide, AllSolvent, ChainBalancesKept;
    match op {
      case NewGrant(id, amount, currency, status, window) => CreateGrantInv(db, id, amount, currency, status, window);
      case Manage(key, fingerprint, mutation) => WriteIdempotentInv(db, key, fingerprint, mutation);
      case SetGrant(id, status) => SetGrantStatusInv(db, id, status);
      case SetAllocation(id, status) => SetAllocationStatusInv(db, id, status);
      case DropKey(id) => RevokeKeyInv(db, id);
      case DropSession(id) => RevokeSessionInv(db, id);
      case Sign(request, clock, id) => CommitInv(db, request, clock, id);
    }
    forall sender ensures ChainBalancesKept(db, Next(db, op), sender) { ManagementBalances(db, Next(db, op), sender); }
    KeptSolvent(db, Next(db, op));
  }

  lemma ConsumedSolvent(db: DB, pos: Position, raw: Payload)
    requires Inv(db) && Ingest(db, pos, raw).Ok? && AllSolvent(db)
    ensures AllSolvent(Ingest(db, pos, raw).value)
  {
    IngestKeepsInv(db, pos, raw);
    hide Inv, Ingest, RowFor, AllSolvent, ChargeRecorded, NextOf, ValidPosition;
    var db' := Ingest(db, pos, raw).value;
    if pos.offset == NextOf(db.usage, pos.partition) {
      if RowFor(db, raw).status == Applied {
        forall sender ensures ChainBalancesKept(db, db', sender) { ChargedBalances(db, db', pos, RowFor(db, raw), sender); }
        KeptSolvent(db, db');
      } else {
        SameBooksSolvent(db', db);
      }
    }
  }

  lemma LagSolvent(db: DB, op: Op)
    requires op.PublishLag? && AllSolvent(db)
    ensures AllSolvent(SetLag(db, op.topic, op.lag))
  {
    SameBooksSolvent(SetLag(db, op.topic, op.lag), db);
  }

  /** The rewinds are the only writes that can overdraw. */
  lemma StepSolvent(db: DB, op: Op)
    requires Inv(db) && Enabled(db, op) && AllSolvent(db) && !op.Reorg?
    ensures AllSolvent(Next(db, op))
  {
    EscrowOf(db);
    hide Inv, EscrowInv, AllSolvent, CreateGrant, WriteIdempotent, SetGrantStatus, SetAllocationStatus, RevokeApiKey, RevokeSession, Commit, Ingest,
         BootstrapChain, ApplyChain, FreshGrant, FreshMutation, Decoded, SetLag;
    if Exec(db, op).Ok? {
      match op
      case Consume(pos, raw) => ConsumedSolvent(db, pos, raw);
      case PublishLag(topic, lag) => LagSolvent(db, op);
      case OpenChain(stream, anchor, snapshots) => BootstrapSolvent(db, stream, anchor, snapshots);
      case ApplyBlocks(stream, blocks, events, lookback) => ApplyChainSolvent(db, stream, blocks, events, lookback);
      case _ => ManagedSolvent(db, op);
    }
  }

  // ---- Whole runs ----

  /** What a caller can check before a rewind to this block. */
  ghost predicate LeavesEnough(e: Escrow, after: int) {
    forall sender :: LiveAt(e, after, EscrowDeposit, sender) >= 0 && LiveAt(e, after, EscrowReserve, sender) >= 0
  }

  ghost predicate StepLeavesEnough(db: DB, op: Op) {
    op.Reorg? && Exec(db, op).Ok? ==> LeavesEnough(db.escrow, op.ancestor.number)
  }

  lemma ReorgSolventIff(db: DB, op: Op)
    requires Inv(db) && Enabled(db, op) && op.Reorg? && Exec(db, op).Ok?
    ensures AllSolvent(Next(db, op)) <==> LeavesEnough(db.escrow, op.ancestor.number)
  {
    EscrowOf(db);
    hide Inv, EscrowInv, AllSolvent, Rewind, ListsSettlements, ListsEvents, LiveAt, HasSnapshot, BeforeAnchors, ChainWrite, RewoundRows, Truncated;
    RewindKeeps(db, op.stream, op.ancestor, op.settled, op.canonical);
    RewindSolventIff(db, op.stream, op.ancestor, op.settled, op.canonical);
  }

  /** A write from a solvent store leaves a solvent one exactly when it is no rewind, or one that leaves enough. */
  lemma StepSolventIff(db: DB, op: Op)
    requires Inv(db) && Enabled(db, op) && AllSolvent(db)
    ensures AllSolvent(Next(db, op)) <==> StepLeavesEnough(db, op)
  {
    hide Inv, AllSolvent, LeavesEnough, Enabled, Exec;
    if !op.Reorg? {
      StepSolvent(db, op);
    } else if Exec(db, op).Ok? {
      ReorgSolventIff(db, op);
    }
  }

  ghost predicate SolventThroughout(ops: seq<Op>) {
    AllSolvent(Run(EMPTY, ops)) && (ops == [] || SolventThroughout(ops[..|ops| - 1]))
  }

  ghost predicate RewindsLeaveEnough(ops: seq<Op>) {
    ops == [] || (RewindsLeaveEnough(ops[..|ops| - 1]) && StepLeavesEnough(Run(EMPTY, ops[..|ops| - 1]), ops[|ops| - 1]))
  }

  lemma EmptySolvent()
    ensures AllSolvent(EMPTY)
  {
    hide ZEROES;
  }

  /**
   * A run keeps every escrow balance at or above zero from write to write exactly when
   * each of its rewinds leaves, for every sender, an opening snapshot and surviving rows
   * that are not negative.
   */
  lemma {:induction false} RunSolventIff(ops: seq<Op>)
    requires Valid(EMPTY, ops)
    ensures SolventThroughout(ops) <==> RewindsLeaveEnough(ops)
  {
    hide Inv, AllSolvent, Enabled, Next, StepLeavesEnough;
    if ops == [] {
      EmptySolvent();
    } else {
      var front, last := ops[..|ops| - 1], ops[|ops| - 1];
      RunSolventIff(front);
      RunKeepsInv(front);
      if SolventThroughout(front) { StepSolventIff(Run(EMPTY, front), last); }
    }
  }
}

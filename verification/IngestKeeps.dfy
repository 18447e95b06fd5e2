/**
 * Ingest keeps the whole invariant (internal/store/ingest.go:64-193): it fails only on a
 * bad position or an offset gap, a redelivery changes nothing, and any other record adds
 * exactly one row and moves its partition's checkpoint by one.
 */
module IngestKeeps {
  import opened Results
  import opened Totals
  import opened Blocks
  import opened Tables
  import opened Books
  import opened Summaries
  import opened Attribution
  import opened EscrowLedger
  import opened EscrowSteps
  import opened Management
  import opened Ingestion
  import opened IngestSteps
  import opened Invariant

  function AllocationOf(b: Budget, t: SignedTicket): Id
    requires t.authId in b.sessions
  {
    b.sessions[t.authId].allocation
  }

  /** The row and its authorization, before the charge. */
  function Entered(db: DB, pos: Position, row: UsageRow): DB
    requires row.raw.TicketEvent?
  {
    WithAuthorization(WithUsageRow(db, pos, row), pos, AuthorizationFor(row.raw.ticket))
  }

  /** The state after the charge of an applied row. */
  ghost predicate ChargedRow(db: DB, dbC: DB, pos: Position, row: UsageRow) {
    && AppliedRow(db.budget, row)
    && BooksOk(dbC.books) && SummaryOk(dbC)
    && ChargeMade(Entered(db, pos, row), dbC, row.raw.id, AllocationOf(db.budget, row.raw.ticket), RowFee(db.budget, row))
  }

  lemma NotYetCharged(db: DB, id: Id)
    requires ChargesOk(db) && !Known(db.usage, id)
    ensures UsageKey(id) !in db.books.postings
  {
    assert ChargedUnder(db, id) ==> Known(db.usage, id);
  }

  lemma ChargeStage(db: DB, pos: Position, raw: Payload) returns (dbC: DB)
    requires BooksOk(db.books) && SummaryOk(db) && ChargesOk(db) && pos !in db.usage.rows && RowFor(db, raw).status == Applied
    ensures ChargedRow(db, dbC, pos, RowFor(db, raw))
    ensures raw.TicketEvent?
    ensures ApplyRow(WithUsageRow(db, pos, RowFor(db, raw)), pos, RowFor(db, raw)) ==
            Rematch(dbC, AuthorizationFor(raw.ticket).pm, AuthorizationFor(raw.ticket).orchestrator)
  {
    RowForMeaning(db, raw);
    JudgeMeaning(db, raw);
    var row := RowFor(db, raw);
    NotYetCharged(db, raw.id);
    hide BooksOk, SummaryOk, Charge, RowFor, Judge, Known, ChargeMade, Rematch, Held;
    UsageRowWritten(db, pos, row);
    var dbA := Entered(db, pos, row);
    SummaryFrame(WithUsageRow(db, pos, row), dbA);
    ChargeKeeps(dbA, raw.id, AllocationOf(db.budget, raw.ticket), RowFee(db.budget, row));
    ChargeEffect(dbA, raw.id, AllocationOf(db.budget, raw.ticket), RowFee(db.budget, row));
    dbC := Charge(dbA, raw.id, AllocationOf(db.budget, raw.ticket), RowFee(db.budget, row)).value;
  }

  lemma ChargedChainSide(db: DB, dbC: DB, pos: Position, row: UsageRow)
    requires EscrowInv(db) && ChargedRow(db, dbC, pos, row)
    ensures AccountsOk(dbC) && AgreeOk(dbC.escrow) && SnapshotKeysOk(dbC)
  {
    assert ChainSide(db, dbC) by { hide EscrowInv, BooksOk, SummaryOk, Held, Spent; }
    hide ChargedRow, SummaryOk, BooksOk, SumsOk, LedgerOk, AgreeOk;
    assert BooksOk(dbC.books) && SummaryOk(dbC) by { ChargedAccounts(db, dbC, pos, row); }
    ChainSideKeeps(db, dbC);
  }

  lemma ChargedAccounts(db: DB, dbC: DB, pos: Position, row: UsageRow)
    requires ChargedRow(db, dbC, pos, row)
    ensures BooksOk(dbC.books) && SummaryOk(dbC)
  {
    hide BooksOk, SummaryOk;
  }

  /** After the rematch of its ticket session, the new authorization is attributed. */
  lemma ChargedAttribution(db: DB, dbC: DB, pos: Position, row: UsageRow)
    requires AttributionOk(db) && ChargedRow(db, dbC, pos, row) && pos !in db.usage.rows && RowsOk(db)
    ensures var a := AuthorizationFor(row.raw.ticket);
            Rematch(dbC, a.pm, a.orchestrator).Ok? && AttributionOk(Rematch(dbC, a.pm, a.orchestrator).value)
  {
    var a := AuthorizationFor(row.raw.ticket);
    assert SummaryOk(dbC) by { ChargedAccounts(db, dbC, pos, row); }
    assert dbC.usage == Entered(db, pos, row).usage && dbC.escrow == db.escrow by { hide BooksOk, SummaryOk; }
    hide ChargedRow, RowsOk, AmountsOk, CountsOk, TrackedOk, WantedMatch, Rematch;
    assert pos !in db.usage.authorizations by { NoAuthorization(db, pos); }
    forall id | id in dbC.escrow.settlements && !Concerns(dbC.escrow.settlements[id], a.pm, a.orchestrator)
      ensures Attributed(dbC.usage, dbC.escrow.settlements[id])
    {
      var s := dbC.escrow.settlements[id];
      assert Attributed(db.usage, s);
      OtherSessions(db.usage, dbC.usage, pos, a, s.data.ticket.pm, s.data.recipient);
    }
    RematchAttributes(dbC, a.pm, a.orchestrator);
  }

  lemma NoAuthorization(db: DB, pos: Position)
    requires RowsOk(db) && pos !in db.usage.rows
    ensures pos !in db.usage.authorizations
  {
  }

  lemma SetNextKeepsEscrow(db: DB, p: Partition, next: int)
    requires AccountsOk(db) && AgreeOk(db.escrow) && AttributionOk(db) && SnapshotKeysOk(db)
    ensures EscrowInv(SetNext(db, p, next))
  {
    var db' := SetNext(db, p, next);
    hide SummaryOk, BooksOk, SumsOk, LedgerOk, AgreeOk, Attributed;
    SummaryFrame(db, db');
    ChainSideKeeps(db, db');
    SameAttribution(db, db');
  }

  lemma AppliedRecordEscrow(db: DB, dbC: DB, pos: Position, row: UsageRow)
    requires Inv(db) && ChargedRow(db, dbC, pos, row) && pos !in db.usage.rows
    ensures var a := AuthorizationFor(row.raw.ticket);
            var r := Rematch(dbC, a.pm, a.orchestrator);
            && r.Ok? && EscrowInv(SetNext(r.value, pos.partition, pos.offset + 1))
            && r.value.books == dbC.books && r.value.usage == dbC.usage && r.value.budget == dbC.budget
            && OnlyMatches(dbC.escrow, r.value.escrow)
  {
    var a := AuthorizationFor(row.raw.ticket);
    hide BooksOk, SummaryOk, SumsOk, LedgerOk, ChargedRow, BudgetOk, SessionsOk, OffsetsOk, IdsOk, RowsOk, ChargesOk, SpentOk, Rematch, Attributed;
    ChargedChainSide(db, dbC, pos, row);
    ChargedAttribution(db, dbC, pos, row);
    RematchKeepsAccounts(dbC, a.pm, a.orchestrator);
    RematchLeaves(dbC, a.pm, a.orchestrator);
    var dbR := Rematch(dbC, a.pm, a.orchestrator).value;
    RematchedAgree(dbC, dbR);
    SetNextKeepsEscrow(dbR, pos.partition, pos.offset + 1);
  }

  lemma RematchLeaves(db: DB, pm: Id, orch: Id)
    requires AccountsOk(db)
    ensures var r := Rematch(db, pm, orch);
            && r.Ok? && r.value.books == db.books && r.value.usage == db.usage && r.value.budget == db.budget
            && r.value.escrow.snapshots == db.escrow.snapshots && r.value.escrow.events == db.escrow.events && r.value.escrow.chains == db.escrow.chains
            && r.value.escrow.settlements.Keys == db.escrow.settlements.Keys
            && forall id :: id in db.escrow.settlements ==>
                 r.value.escrow.settlements[id] == db.escrow.settlements[id].(matching := r.value.escrow.settlements[id].matching)
  {
    hide Rematch, BooksOk, SumsOk, LedgerOk, CountsOk, AmountsOk, TrackedOk, WantedMatch, SessionsFor;
    RematchResult(db, pm, orch);
  }

  lemma RematchedAgree(db: DB, db': DB)
    requires AgreeOk(db.escrow) && db'.escrow.events == db.escrow.events && db'.escrow.settlements.Keys == db.escrow.settlements.Keys
    requires SnapshotKeysOk(db) && db'.escrow.snapshots == db.escrow.snapshots && db'.books == db.books
    requires forall id :: id in db.escrow.settlements ==>
               db'.escrow.settlements[id] == db.escrow.settlements[id].(matching := db'.escrow.settlements[id].matching)
    ensures AgreeOk(db'.escrow) && SnapshotKeysOk(db')
  {
    forall id ensures AgreeAt(db'.escrow, id) { assert AgreeAt(db.escrow, id); }
  }

  /** What the charge of a row changes, told from the state before the record. */
  ghost predicate ChargeSeen(db: DB, dbC: DB, pos: Position, row: UsageRow) {
    && AppliedRow(db.budget, row) && RowFee(db.budget, row) >= 0
    && SameBindings(db.budget, dbC.budget)
    && dbC.budget.sessions == db.budget.sessions && dbC.budget.allocations.Keys == db.budget.allocations.Keys
    && dbC.usage == db.usage.(rows := db.usage.rows[pos := row], authorizations := db.usage.authorizations[pos := AuthorizationFor(row.raw.ticket)])
    && dbC.books.postings == (if RowFee(db.budget, row) == 0 then db.books.postings
                              else db.books.postings[UsageKey(row.raw.id) := ChargePosting(db.budget, row)])
    && forall id :: id in db.budget.allocations ==>
         var c := db.budget.allocations[id].currency;
         Balance(dbC, AllocationSpent, id, c) == Balance(db, AllocationSpent, id, c) +
           if AllocationOf(db.budget, row.raw.ticket) == id then RowFee(db.budget, row) else 0
  }

  lemma ChargeIsSeen(db: DB, dbC: DB, pos: Position, row: UsageRow)
    requires ChargedRow(db, dbC, pos, row)
    ensures ChargeSeen(db, dbC, pos, row)
  {
    hide BooksOk, SummaryOk;
  }

  lemma ChargedBudget(db: DB, dbC: DB, pos: Position, row: UsageRow)
    requires BudgetOk(db) && ChargedRow(db, dbC, pos, row)
    ensures BudgetOk(dbC)
  {
    hide BooksOk, SummaryOk, ChargeMade, GrantOk, AllocationOk, KnownHolders;
    BudgetSideKeeps(db, Entered(db, pos, row));
    ChargeBudget(Entered(db, pos, row), dbC, row.raw.id, AllocationOf(db.budget, row.raw.ticket), RowFee(db.budget, row));
  }

  lemma AppliedRecordUsage(db: DB, dbC: DB, db': DB, pos: Position, row: UsageRow)
    requires UsageOk(db) && ChargeSeen(db, dbC, pos, row) && pos !in db.usage.rows && row.status == Applied
    requires pos.offset == NextOf(db.usage, pos.partition) && !Known(db.usage, row.raw.id)
    requires db'.books == dbC.books && db'.budget == dbC.budget
    requires db'.usage == dbC.usage.(next := dbC.usage.next[pos.partition := pos.offset + 1])
    ensures UsageOk(db')
  {
    hide Known, SameBindings;
    assert OffsetsOk(db'.usage) by { hide IdsOk, RowsOk, ChargesOk, SpentOk; OffsetsStep(db.usage, db'.usage, pos, row); }
    assert IdsOk(db'.usage) by { hide OffsetsOk, RowsOk, ChargesOk, SpentOk; IdsStep(db.usage, db'.usage, pos, row); }
    assert RowsOk(db') by { hide OffsetsOk, IdsOk, ChargesOk, SpentOk; RowsStep(db, db', pos, row); }
    assert ChargesOk(db') by { hide OffsetsOk, IdsOk, SpentOk, Held; AppliedRowStep(db, db', pos, row); }
    assert SpentOk(db') by {
      hide OffsetsOk, IdsOk, ChargesOk, FeePart;
      forall id | id in db'.budget.allocations
        ensures Balance(db', AllocationSpent, id, db'.budget.allocations[id].currency) == Total(db'.usage.rows, FeePart(db'.budget, id))
      {
        SpentStep(db, db', pos, row, id);
      }
    }
  }

  lemma AppliedRecordRest(db: DB, dbC: DB, db': DB, pos: Position, row: UsageRow)
    requires RevokedOnce(db) && SessionsOk(db.budget) && ChargedRow(db, dbC, pos, row)
    requires db'.books == dbC.books && db'.budget == dbC.budget
    ensures RevokedOnce(db') && SessionsOk(db'.budget)
  {
    hide BooksOk, SummaryOk, Held, Moved;
  }

  /** An applied record adds its row and authorization, charges the fee once, and moves the checkpoint. */
  ghost predicate ChargeRecorded(db: DB, db': DB, pos: Position, row: UsageRow) {
    && AppliedRow(db.budget, row)
    && db'.usage == db.usage.(rows := db.usage.rows[pos := row],
                              authorizations := db.usage.authorizations[pos := AuthorizationFor(row.raw.ticket)],
                              next := db.usage.next[pos.partition := pos.offset + 1])
    && var alloc := AllocationOf(db.budget, row.raw.ticket);
    && var n := RowFee(db.budget, row);
    && db'.budget == db.budget.(allocations := db.budget.allocations[alloc := Spent(db, alloc, n)])
    && db'.books.postings == (if n == 0 then db.books.postings else db.books.postings[UsageKey(row.raw.id) := ChargePosting(db.budget, row)])
    && (forall a :: Held(db'.books.balances, a) ==
          Moved(Held(db.books.balances, a), a, ChargePosting(db.budget, row).debit, ChargePosting(db.budget, row).credit, n))
    && OnlyMatches(db.escrow, db'.escrow)
  }

  /** Nothing but the match of settlements changed. */
  ghost predicate OnlyMatches(e: Escrow, e': Escrow) {
    && e'.snapshots == e.snapshots && e'.events == e.events && e'.chains == e.chains && e'.settlements.Keys == e.settlements.Keys
    && forall id :: id in e.settlements ==> e'.settlements[id] == e.settlements[id].(matching := e'.settlements[id].matching)
  }

  lemma AppliedRecordShape(db: DB, pos: Position, raw: Payload) returns (dbC: DB)
    requires BooksOk(db.books) && SummaryOk(db) && ChargesOk(db) && ValidPosition(pos) && pos.offset == NextOf(db.usage, pos.partition)
    requires pos !in db.usage.rows && RowFor(db, raw).status == Applied
    ensures ChargedRow(db, dbC, pos, RowFor(db, raw))
    ensures raw.TicketEvent? && RowFor(db, raw).raw == raw && !Known(db.usage, raw.id)
    ensures var a := AuthorizationFor(raw.ticket);
            var r := Rematch(dbC, a.pm, a.orchestrator);
            Ingest(db, pos, raw) == if r.Err? then Err(r.error) else Ok(SetNext(r.value, pos.partition, pos.offset + 1))
  {
    RowForMeaning(db, raw);
    JudgeMeaning(db, raw);
    hide BooksOk, SummaryOk, ChargesOk, RowFor, Judge, Known, ApplyRow, Rematch, ChargedRow;
    dbC := ChargeStage(db, pos, raw);
    assert WithUsageRow(db, pos, RowFor(db, raw)).(summary := db.summary) == WithUsageRow(db, pos, RowFor(db, raw));
  }

  lemma AppliedRecordKeeps(db: DB, pos: Position, raw: Payload)
    requires Inv(db) && ValidPosition(pos) && pos.offset == NextOf(db.usage, pos.partition) && RowFor(db, raw).status == Applied
    ensures var r := Ingest(db, pos, raw);
            r.Ok? && Inv(r.value) && ChargeRecorded(db, r.value, pos, RowFor(db, raw))
  {
    NotYetRecorded(db, pos);
    var row := RowFor(db, raw);
    hide BooksOk, SummaryOk, SumsOk, LedgerOk, AgreeOk, AttributionOk, SnapshotKeysOk, BudgetOk, SessionsOk, RevokedOnce,
         OffsetsOk, IdsOk, RowsOk, ChargesOk, SpentOk, RowFor, Known, Rematch, Ingest, ChargedRow, ChargeSeen, ChargeRecorded, NextOf, ValidPosition;
    var dbC := AppliedRecordShape(db, pos, raw);
    AppliedRecordEscrow(db, dbC, pos, row);
    var db' := Ingest(db, pos, raw).value;
    ChargeIsSeen(db, dbC, pos, row);
    ChargedBudget(db, dbC, pos, row);
    AppliedRecordUsage(db, dbC, db', pos, row);
    BudgetSideKeeps(dbC, db');
    AppliedRecordRest(db, dbC, db', pos, row);
    ChargedRecord(db, dbC, db', pos, row);
  }

  lemma ChargedRecord(db: DB, dbC: DB, db': DB, pos: Position, row: UsageRow)
    requires ChargedRow(db, dbC, pos, row)
    requires db'.books == dbC.books && db'.budget == dbC.budget
    requires db'.usage == dbC.usage.(next := dbC.usage.next[pos.partition := pos.offset + 1])
    requires OnlyMatches(dbC.escrow, db'.escrow)
    ensures dbC.usage.next == db.usage.next && ChargeRecorded(db, db', pos, row)
  {
    hide BooksOk, SummaryOk, Held;
  }

  /** One record of any kind, at any position. */
  lemma IngestKeepsInv(db: DB, pos: Position, raw: Payload)
    requires Inv(db)
    ensures var r := Ingest(db, pos, raw);
            && (r.Ok? <==> ValidPosition(pos) && pos.offset <= NextOf(db.usage, pos.partition))
            && (r.Err? ==> r.error == InvalidPosition || r.error == OffsetGap)
            && (r.Ok? ==> Inv(r.value))
            && (r.Ok? && pos.offset < NextOf(db.usage, pos.partition) ==> r.value == db)
            && (r.Ok? && pos.offset == NextOf(db.usage, pos.partition) ==>
                  (if RowFor(db, raw).status == Applied then ChargeRecorded(db, r.value, pos, RowFor(db, raw))
                   else Audited(db, r.value, pos, RowFor(db, raw))))
  {
    if ValidPosition(pos) && pos.offset == NextOf(db.usage, pos.partition) {
      hide Inv, RowFor, ChargeRecorded, Audited, Ingest;
      if RowFor(db, raw).status == Applied {
        AppliedRecordKeeps(db, pos, raw);
      } else {
        PlainRecordKeeps(db, pos, raw);
      }
    }
  }
}

/**
 * Ingestion is exactly-once (internal/store/ingest.go): one row for every offset below
 * a partition's checkpoint, one charge for each applied event id, and the spent balance
 * of an allocation is the sum of the fees of its applied rows.
 */
module IngestSteps {
  import opened Results
  import opened Totals
  import opened Blocks
  import opened Tables
  import opened Books
  import opened Summaries
  import opened Management
  import opened Ingestion

  // ---- The invariant ----

  /** Each partition has a row for every offset below its checkpoint, and none above. */
  ghost predicate OffsetsOk(u: Usage) {
    && (forall p :: NextOf(u, p) >= 0)
    && forall pos :: pos in u.rows <==> 0 <= pos.offset < NextOf(u, pos.partition)
  }

  /** An event id is recorded once; repeats are stored without it. */
  ghost predicate IdsOk(u: Usage) {
    forall p, q :: p in u.rows && q in u.rows && u.rows[p].eventId.Some? && u.rows[p].eventId == u.rows[q].eventId ==> p == q
  }

  function AuthorizationFor(t: SignedTicket): Authorization {
    Authorization(t.authId, Lower(t.pm), Lower(t.orchestrator))
  }

  /** The fee a ticket states in a currency, in its smallest units; 0 if it states none. */
  function TicketFee(t: SignedTicket, currency: Currency): int {
    match currency
    case Usd => if t.feeUsd.UsdUnits? then t.feeUsd.units else 0
    case Eth => if t.feeWei.Some? then t.feeWei.value else 0
  }

  /** The row of a ticket event, with the fees of its payload, under a known session. */
  predicate AppliedRow(b: Budget, row: UsageRow) {
    && row.raw.TicketEvent? && row.eventId == Some(row.raw.id) && row.session == Some(row.raw.ticket.authId)
    && row.feeWei == row.raw.ticket.feeWei
    && row.feeUsd == (if row.raw.ticket.feeUsd.UsdUnits? then Some(row.raw.ticket.feeUsd.units) else None)
    && row.raw.ticket.authId in b.sessions && b.sessions[row.raw.ticket.authId].allocation in b.allocations
  }

  ghost predicate RowsOk(db: DB) {
    && db.usage.authorizations.Keys <= db.usage.rows.Keys
    && forall pos :: pos in db.usage.rows ==> RowOk(db, pos)
  }

  predicate RowOk(db: DB, pos: Position)
    requires pos in db.usage.rows
  {
    var row := db.usage.rows[pos];
    && (row.status == Applied <==> pos in db.usage.authorizations)
    && (row.status == Applied ==>
          AppliedRow(db.budget, row) && db.usage.authorizations[pos] == AuthorizationFor(row.raw.ticket))
    && (row.eventId.Some? ==> !row.raw.Malformed? && row.raw.id == row.eventId.value)
  }

  /** The fee an applied row charges: what its ticket states in the currency of its session's allocation. */
  function RowFee(b: Budget, row: UsageRow): int {
    if AppliedRow(b, row) then TicketFee(row.raw.ticket, b.allocations[b.sessions[row.raw.ticket.authId].allocation].currency) else 0
  }

  predicate ChargedTo(b: Budget, row: UsageRow, allocation: Id) {
    row.status == Applied && AppliedRow(b, row) && b.sessions[row.raw.ticket.authId].allocation == allocation
  }

  function ChargePosting(b: Budget, row: UsageRow): Posting
    requires AppliedRow(b, row)
  {
    var allocation := b.sessions[row.raw.ticket.authId].allocation;
    var currency := b.allocations[allocation].currency;
    Posting(Account(AllocationAvailable, allocation, currency), Account(AllocationSpent, allocation, currency), RowFee(b, row))
  }

  predicate Charged(db: DB, pos: Position)
    requires pos in db.usage.rows
  {
    var row := db.usage.rows[pos];
    row.status == Applied && AppliedRow(db.budget, row) && RowFee(db.budget, row) > 0 ==>
      UsageKey(row.raw.id) in db.books.postings && db.books.postings[UsageKey(row.raw.id)] == ChargePosting(db.budget, row)
  }

  /** This applied row has a fee, charged under this id. */
  predicate Pays(b: Budget, row: UsageRow, id: Id) {
    row.status == Applied && row.eventId == Some(id) && AppliedRow(b, row) && RowFee(b, row) > 0
  }

  predicate ChargedUnder(db: DB, id: Id) {
    exists pos :: pos in db.usage.rows && Pays(db.budget, db.usage.rows[pos], id)
  }

  /** The ledger charges exactly the applied rows with a fee, each under its event id. */
  ghost predicate ChargesOk(db: DB) {
    && (forall pos :: pos in db.usage.rows ==> Charged(db, pos))
    && forall id :: UsageKey(id) in db.books.postings ==> ChargedUnder(db, id)
  }

  ghost function FeePart(b: Budget, allocation: Id): (Position, UsageRow) -> int {
    (pos: Position, row: UsageRow) => if ChargedTo(b, row, allocation) then RowFee(b, row) else 0
  }

  ghost predicate SpentOk(db: DB) {
    forall id :: id in db.budget.allocations ==>
      Balance(db, AllocationSpent, id, db.budget.allocations[id].currency) == Total(db.usage.rows, FeePart(db.budget, id))
  }

  ghost predicate UsageOk(db: DB) {
    OffsetsOk(db.usage) && IdsOk(db.usage) && RowsOk(db) && ChargesOk(db) && SpentOk(db)
  }

  /** An id is charged by one row only, and never when its first row was not applied. */
  lemma ChargedOnce(db: DB, pos: Position)
    requires UsageOk(db) && pos in db.usage.rows && db.usage.rows[pos].eventId.Some?
    ensures UsageKey(db.usage.rows[pos].eventId.value) in db.books.postings ==> db.usage.rows[pos].status == Applied
    ensures forall q :: q in db.usage.rows && db.usage.rows[q].eventId == db.usage.rows[pos].eventId ==> q == pos
  {
    var id := db.usage.rows[pos].eventId.value;
    if UsageKey(id) in db.books.postings {
      assert ChargedUnder(db, id);
    }
  }

  // ---- Charging an allocation ----

  predicate Depleted(db: DB, id: Id, n: int)
    requires id in db.budget.allocations
  {
    var a := db.budget.allocations[id];
    Balance(db, AllocationAvailable, id, a.currency) - n <= 0 && a.status == Active
  }

  function Spent(db: DB, id: Id, n: int): Allocation
    requires id in db.budget.allocations
  {
    var a := db.budget.allocations[id];
    if Depleted(db, id, n) then a.(status := Exhausted) else a
  }

  /** What a charge changes: one posting under the event id, and perhaps the allocation's status. */
  ghost predicate ChargeMade(db: DB, db': DB, eventId: Id, id: Id, n: int)
    requires id in db.budget.allocations
  {
    var c := db.budget.allocations[id].currency;
    var from, to := Account(AllocationAvailable, id, c), Account(AllocationSpent, id, c);
    && db'.usage == db.usage && db'.escrow == db.escrow
    && db'.budget == db.budget.(allocations := db.budget.allocations[id := Spent(db, id, n)])
    && n >= 0
    && db'.books.postings == (if n == 0 then db.books.postings else db.books.postings[UsageKey(eventId) := Posting(from, to, n)])
    && forall a :: Held(db'.books.balances, a) == Moved(Held(db.books.balances, a), a, from, to, n)
  }

  lemma ChargeEffect(db: DB, eventId: Id, id: Id, n: int)
    requires id in db.budget.allocations && Charge(db, eventId, id, n).Ok?
    ensures ChargeMade(db, Charge(db, eventId, id, n).value, eventId, id, n)
  {
    hide Transfer, ChangeInventory, Held;
    var c := db.budget.allocations[id].currency;
    TransferEffect(db, UsageKey(eventId), AllocationAvailable, id, AllocationSpent, id, c, n);
    var db1 := Transfer(db, UsageKey(eventId), AllocationAvailable, id, AllocationSpent, id, c, n).value;
    assert db.budget.allocations[id := db.budget.allocations[id]] == db.budget.allocations;
    assert Balance(db1, AllocationAvailable, id, c) == Balance(db, AllocationAvailable, id, c) - n;
  }

  lemma ExhaustKeeps(db: DB, id: Id)
    requires BooksOk(db.books) && SummaryOk(db) && id in db.budget.allocations
    ensures Exhaust(db, id).Ok? && BooksOk(Exhaust(db, id).value.books) && SummaryOk(Exhaust(db, id).value)
  {
    hide BooksOk, SummaryOk, ChangeInventory;
    var a := db.budget.allocations[id];
    if Balance(db, AllocationAvailable, id, a.currency) <= 0 && a.status == Active {
      AllocationWritten(db, id, a.(status := Exhausted));
    }
  }

  lemma ChargeKeeps(db: DB, eventId: Id, id: Id, n: int)
    requires BooksOk(db.books) && SummaryOk(db) && id in db.budget.allocations && n >= 0
    requires UsageKey(eventId) !in db.books.postings
    ensures var r := Charge(db, eventId, id, n);
            r.Ok? && BooksOk(r.value.books) && SummaryOk(r.value)
  {
    hide BooksOk, SummaryOk, Transfer, Exhaust, Held;
    var c := db.budget.allocations[id].currency;
    TransferKeepsBoth(db, UsageKey(eventId), AllocationAvailable, id, AllocationSpent, id, c, n);
    TransferEffect(db, UsageKey(eventId), AllocationAvailable, id, AllocationSpent, id, c, n);
    ExhaustKeeps(Transfer(db, UsageKey(eventId), AllocationAvailable, id, AllocationSpent, id, c, n).value, id);
  }

  /** A charge keeps the budget: units move from available to spent, and an empty active allocation is exhausted. */
  lemma ChargeBudget(db: DB, db': DB, eventId: Id, id: Id, n: int)
    requires BudgetOk(db) && id in db.budget.allocations && ChargeMade(db, db', eventId, id, n)
    ensures BudgetOk(db')
  {
    forall g | g in db'.budget.grants ensures GrantOk(db', g) { ChargeGrant(db, db', eventId, id, n, g); }
    forall x | x in db'.budget.allocations ensures AllocationOk(db', x) { ChargeAllocation(db, db', eventId, id, n, x); }
    ChargeHolders(db, db', eventId, id, n);
  }

  lemma ChargeGrant(db: DB, db': DB, eventId: Id, id: Id, n: int, g: Id)
    requires id in db.budget.allocations && ChargeMade(db, db', eventId, id, n) && g in db.budget.grants && GrantOk(db, g)
    ensures GrantOk(db', g)
  {
    Updated(db.budget.allocations, PartOf(g), id, Spent(db, id, n));
  }

  lemma ChargeAllocation(db: DB, db': DB, eventId: Id, id: Id, n: int, x: Id)
    requires id in db.budget.allocations && ChargeMade(db, db', eventId, id, n) && x in db.budget.allocations && AllocationOk(db, x)
    ensures AllocationOk(db', x)
  {
  }

  lemma ChargeHolders(db: DB, db': DB, eventId: Id, id: Id, n: int)
    requires id in db.budget.allocations && ChargeMade(db, db', eventId, id, n) && KnownHolders(db)
    ensures KnownHolders(db')
  {
    var c := db.budget.allocations[id].currency;
    forall a | Held(db'.books.balances, a) != 0
      ensures a.kind == GrantUnallocated ==> a.owner in db'.budget.grants && db'.budget.grants[a.owner].currency == a.currency
      ensures a.kind == AllocationAvailable || a.kind == AllocationSpent ==> Eligible(db'.budget.allocations, a)
    {
      if a != Account(AllocationAvailable, id, c) && a != Account(AllocationSpent, id, c) {
        assert Held(db.books.balances, a) != 0;
      }
    }
  }

  // ---- The audit row ----

  lemma UsageRowWritten(db: DB, pos: Position, row: UsageRow)
    requires SummaryOk(db) && pos !in db.usage.rows
    ensures var db1 := WithUsageRow(db, pos, row);
            var r := if row.status == Quarantined then ChangeCount(db1.summary, Quarantines(row.reason), 1) else Ok(db1.summary);
            r.Ok? && SummaryOk(db1.(summary := r.value))
  {
    hide Total, CountOf, ChangeCount, QuarantineWeight;
    var db1 := WithUsageRow(db, pos, row);
    RebuiltCountNonNegative(db, Quarantines(row.reason));
    if row.status == Quarantined { ChangeCountEffect(db1.summary, Quarantines(row.reason), 1); }
    var s := if row.status == Quarantined then ChangeCount(db1.summary, Quarantines(row.reason), 1).value else db1.summary;
    var db2 := db1.(summary := s);
    assert AmountsOk(db2) by {
      hide CountsOk, TrackedOk;
      assert forall name, currency :: RebuiltAmount(db2, name, currency) == RebuiltAmount(db, name, currency);
    }
    assert TrackedOk(db2) by {
      hide AmountsOk, CountsOk;
      assert forall k :: IsTracked(db, k) == IsTracked(db2, k) && RebuiltTracked(db, k) == RebuiltTracked(db2, k);
    }
    assert CountsOk(db2) by {
      hide AmountsOk, TrackedOk;
      forall key ensures CountOf(db2.summary, key) == RebuiltCount(db2, key) { QuarantineCount(db, db2, pos, row, key); }
    }
  }

  lemma QuarantineCount(db: DB, db2: DB, pos: Position, row: UsageRow, key: CountKey)
    requires pos !in db.usage.rows && CountOf(db.summary, key) == RebuiltCount(db, key)
    requires db2 == WithUsageRow(db, pos, row).(summary := db2.summary) && db2.summary.tracked == db.summary.tracked
    requires CountOf(db2.summary, key) == CountOf(db.summary, key) + BoolCount(row.status == Quarantined && key == Quarantines(row.reason))
    ensures CountOf(db2.summary, key) == RebuiltCount(db2, key)
  {
    hide Total, CountOf, GrantWeight, AllocationWeight, SettlementCountWeight, TrackedCountWeight;
    if key.Quarantines? { Updated(db.usage.rows, QuarantineWeight(key), pos, row); }
  }

  // ---- Which rows an accepted record adds ----

  lemma JudgeMeaning(db: DB, raw: Payload)
    ensures var v := Judge(db, raw);
            && (v.eventId.Some? ==> !raw.Malformed? && v.eventId.value == raw.id && !Known(db.usage, raw.id))
            && (v.status == Applied ==> raw.TicketEvent? && v.eventId == Some(raw.id) && TicketFault(db.budget, raw.ticket) == NoReason)
  {
  }

  lemma RowForMeaning(db: DB, raw: Payload)
    ensures var row := RowFor(db, raw);
            && row.raw == raw && row.status == Judge(db, raw).status && row.eventId == Judge(db, raw).eventId
            && (row.status == Applied ==> AppliedRow(db.budget, row) && RowFee(db.budget, row) >= 0)
  {
    JudgeMeaning(db, raw);
  }

  lemma OffsetsStep(u: Usage, u': Usage, pos: Position, row: UsageRow)
    requires OffsetsOk(u) && pos.offset == NextOf(u, pos.partition)
    requires u'.rows == u.rows[pos := row] && u'.next == u.next[pos.partition := pos.offset + 1]
    ensures OffsetsOk(u')
  {
    forall p ensures NextOf(u', p) == if p == pos.partition then pos.offset + 1 else NextOf(u, p) { }
    assert NextOf(u, pos.partition) >= 0;
    forall p ensures p in u'.rows <==> 0 <= p.offset < NextOf(u', p.partition) {
      if p.partition == pos.partition && p.offset == pos.offset { assert p == pos; }
    }
  }

  lemma IdsStep(u: Usage, u': Usage, pos: Position, row: UsageRow)
    requires IdsOk(u) && u'.rows == u.rows[pos := row] && pos !in u.rows
    requires row.eventId.Some? ==> !Known(u, row.eventId.value)
    ensures IdsOk(u')
  {
  }

  lemma RowsStep(db: DB, db': DB, pos: Position, row: UsageRow)
    requires RowsOk(db) && pos !in db.usage.rows && db'.usage.rows == db.usage.rows[pos := row]
    requires db'.budget.sessions == db.budget.sessions && db'.budget.allocations.Keys == db.budget.allocations.Keys
    requires row.status == Applied ==>
               AppliedRow(db.budget, row) && db'.usage.authorizations == db.usage.authorizations[pos := AuthorizationFor(row.raw.ticket)]
    requires row.status != Applied ==> db'.usage.authorizations == db.usage.authorizations
    requires row.eventId.Some? ==> !row.raw.Malformed? && row.raw.id == row.eventId.value
    ensures RowsOk(db')
  {
    forall p | p in db'.usage.rows ensures RowOk(db', p) {
      if p != pos { assert RowOk(db, p); }
    }
  }

  /** What a session, an allocation and a stored reply are bound to does not move. */
  predicate SameBindings(b: Budget, b': Budget) {
    && (forall s :: s in b.sessions ==> s in b'.sessions && b'.sessions[s] == b.sessions[s].(active := b'.sessions[s].active))
    && (forall a :: a in b.allocations ==>
          a in b'.allocations && b'.allocations[a].grant == b.allocations[a].grant && b'.allocations[a].currency == b.allocations[a].currency)
    && forall k :: k in b.replies ==> k in b'.replies && b'.replies[k] == b.replies[k]
  }

  lemma SameFee(b: Budget, b': Budget, row: UsageRow)
    requires SameBindings(b, b') && AppliedRow(b, row)
    ensures AppliedRow(b', row) && RowFee(b', row) == RowFee(b, row) && ChargePosting(b', row) == ChargePosting(b, row)
    ensures forall id :: ChargedTo(b', row, id) == ChargedTo(b, row, id)
  {
  }

  lemma FeesElsewhere(db: DB, db': DB, id: Id)
    requires RowsOk(db) && SameBindings(db.budget, db'.budget)
    ensures Total(db.usage.rows, FeePart(db'.budget, id)) == Total(db.usage.rows, FeePart(db.budget, id))
  {
    var w, x := FeePart(db'.budget, id), FeePart(db.budget, id);
    forall pos | pos in db.usage.rows ensures w(pos, db.usage.rows[pos]) == x(pos, db.usage.rows[pos]) {
      assert RowOk(db, pos);
      if db.usage.rows[pos].status == Applied { SameFee(db.budget, db'.budget, db.usage.rows[pos]); }
    }
    Same(db.usage.rows, w, x);
  }

  /** A row that is not applied changes no charge and no spent balance. */
  lemma PlainRowStep(db: DB, db': DB, pos: Position, row: UsageRow)
    requires RowsOk(db) && ChargesOk(db) && SpentOk(db) && pos !in db.usage.rows && row.status != Applied
    requires db'.usage.rows == db.usage.rows[pos := row] && db'.budget == db.budget && db'.books == db.books
    ensures ChargesOk(db') && SpentOk(db')
  {
    PlainRowCharges(db, db', pos, row);
    hide Total, ChargesOk, Held, RowsOk, RowFee, AppliedRow;
    forall id | id in db'.budget.allocations
      ensures Balance(db', AllocationSpent, id, db'.budget.allocations[id].currency) == Total(db'.usage.rows, FeePart(db'.budget, id))
    {
      Updated(db.usage.rows, FeePart(db.budget, id), pos, row);
    }
  }

  lemma PlainRowCharges(db: DB, db': DB, pos: Position, row: UsageRow)
    requires ChargesOk(db) && pos !in db.usage.rows && row.status != Applied
    requires db'.usage.rows == db.usage.rows[pos := row] && db'.budget == db.budget && db'.books == db.books
    ensures ChargesOk(db')
  {
    hide AppliedRow, RowFee, ChargePosting;
    forall p | p in db'.usage.rows ensures Charged(db', p) { if p != pos { assert Charged(db, p); } }
    hide Charged;
    forall id | UsageKey(id) in db'.books.postings ensures ChargedUnder(db', id) {
      StillCharged(db, db', id);
    }
  }

  lemma StillCharged(db: DB, db': DB, id: Id)
    requires ChargedUnder(db, id) && SameBindings(db.budget, db'.budget)
    requires forall p :: p in db.usage.rows ==> p in db'.usage.rows && db'.usage.rows[p] == db.usage.rows[p]
    ensures ChargedUnder(db', id)
  {
    var p :| p in db.usage.rows && Pays(db.budget, db.usage.rows[p], id);
    SameFee(db.budget, db'.budget, db.usage.rows[p]);
    assert p in db'.usage.rows && Pays(db'.budget, db'.usage.rows[p], id);
  }

  lemma AppliedRowStep(db: DB, db': DB, pos: Position, row: UsageRow)
    requires RowsOk(db) && ChargesOk(db) && pos !in db.usage.rows && row.status == Applied && AppliedRow(db.budget, row)
    requires !Known(db.usage, row.raw.id) && RowFee(db.budget, row) >= 0
    requires db'.usage.rows == db.usage.rows[pos := row] && SameBindings(db.budget, db'.budget)
    requires db'.books.postings == (if RowFee(db.budget, row) == 0 then db.books.postings
                                    else db.books.postings[UsageKey(row.raw.id) := ChargePosting(db.budget, row)])
    ensures ChargesOk(db')
  {
    assert row.raw.TicketEvent?;
    hide AppliedRow, RowFee, ChargePosting, Charged, RowOk, Known, SameBindings, ChargedUnder;
    forall p | p in db'.usage.rows ensures Charged(db', p) {
      if p != pos {
        OtherRowCharged(db, db', pos, row, p);
      } else {
        NewRowCharged(db, db', pos, row);
      }
    }
    forall id | UsageKey(id) in db'.books.postings ensures ChargedUnder(db', id) {
      if id == row.raw.id && RowFee(db.budget, row) > 0 {
        NewRowPays(db, db', pos, row);
      } else {
        StillCharged(db, db', id);
      }
    }
  }

  lemma NewRowCharged(db: DB, db': DB, pos: Position, row: UsageRow)
    requires AppliedRow(db.budget, row) && db'.usage.rows == db.usage.rows[pos := row] && SameBindings(db.budget, db'.budget)
    requires RowFee(db.budget, row) > 0 ==> db'.books.postings == db.books.postings[UsageKey(row.raw.id) := ChargePosting(db.budget, row)]
    ensures Charged(db', pos)
  {
    SameFee(db.budget, db'.budget, row);
  }

  lemma NewRowPays(db: DB, db': DB, pos: Position, row: UsageRow)
    requires AppliedRow(db.budget, row) && db'.usage.rows == db.usage.rows[pos := row] && SameBindings(db.budget, db'.budget)
    requires row.status == Applied && RowFee(db.budget, row) > 0
    ensures ChargedUnder(db', row.raw.id)
  {
    SameFee(db.budget, db'.budget, row);
    assert Pays(db'.budget, db'.usage.rows[pos], row.raw.id);
  }

  lemma OtherRowCharged(db: DB, db': DB, pos: Position, row: UsageRow, p: Position)
    requires AppliedRow(db.budget, row) && !Known(db.usage, row.raw.id)
    requires RowsOk(db) && ChargesOk(db) && p in db.usage.rows && p != pos
    requires db'.usage.rows == db.usage.rows[pos := row] && SameBindings(db.budget, db'.budget)
    requires db'.books.postings == (if RowFee(db.budget, row) == 0 then db.books.postings
                                    else db.books.postings[UsageKey(row.raw.id) := ChargePosting(db.budget, row)])
    ensures Charged(db', p)
  {
    assert Charged(db, p) && RowOk(db, p);
    var r := db.usage.rows[p];
    if r.status == Applied {
      SameFee(db.budget, db'.budget, r);
      assert r.raw.id != row.raw.id;
    }
  }

  lemma SpentStep(db: DB, db': DB, pos: Position, row: UsageRow, id: Id)
    requires RowsOk(db) && SpentOk(db) && pos !in db.usage.rows && row.status == Applied && AppliedRow(db.budget, row)
    requires db'.usage.rows == db.usage.rows[pos := row] && SameBindings(db.budget, db'.budget) && id in db.budget.allocations
    requires var c := db.budget.allocations[id].currency;
             Balance(db', AllocationSpent, id, c) == Balance(db, AllocationSpent, id, c) +
               if db.budget.sessions[row.raw.ticket.authId].allocation == id then RowFee(db.budget, row) else 0
    ensures Balance(db', AllocationSpent, id, db'.budget.allocations[id].currency) == Total(db'.usage.rows, FeePart(db'.budget, id))
  {
    hide Total;
    FeesElsewhere(db, db', id);
    Updated(db.usage.rows, FeePart(db'.budget, id), pos, row);
    SameFee(db.budget, db'.budget, row);
  }
}

/**
 * The invariant read out for every run from the empty database: the ledger and its
 * cache, the summaries, the budget, the usage log and the escrow ledger.
 */
module Theorems {
  import opened Totals
  import opened Blocks
  import opened Tables
  import opened Books
  import opened Summaries
  import opened EscrowLedger
  import opened EscrowSteps
  import opened Management
  import opened Ingestion
  import opened IngestSteps
  import opened Invariant
  import opened ManagementKeeps
  import opened Runs

  lemma InvOf(ops: seq<Op>)
    requires Valid(EMPTY, ops)
    ensures var db := Run(EMPTY, ops);
            BooksOk(db.books) && SummaryOk(db) && BudgetOk(db) && UsageOk(db) && SessionsOk(db.budget) && EscrowInv(db)
  {
    hide *;
    RunKeepsInv(ops);
    InvConjuncts(Run(EMPTY, ops));
  }

  /** Every cached balance is credits minus debits, and each currency sums to zero. */
  lemma LedgerBalances(ops: seq<Op>, a: Account, currency: Currency)
    requires Valid(EMPTY, ops)
    ensures var db := Run(EMPTY, ops);
            Held(db.books.balances, a) == Total(db.books.postings, Entry(a)) && Total(db.books.balances, InCurrency(currency)) == 0
  {
    InvOf(ops);
    hide Run, Valid, SummaryOk, BudgetOk, UsageOk, SessionsOk, EscrowInv, Total, Held;
  }

  /** Every summary is what a recount of the source tables gives. */
  lemma SummariesAreRebuilt(ops: seq<Op>, name: AmountName, currency: Currency, key: CountKey, k: TrackedKey)
    requires Valid(EMPTY, ops) && AmountRow(name, currency)
    ensures var db := Run(EMPTY, ops);
            && (name, currency) in db.summary.amounts && db.summary.amounts[(name, currency)] == RebuiltAmount(db, name, currency)
            && CountOf(db.summary, key) == RebuiltCount(db, key)
            && (k in db.summary.tracked <==> IsTracked(db, k))
            && (k in db.summary.tracked ==> db.summary.tracked[k] == RebuiltTracked(db, k))
  {
    InvOf(ops);
    hide Run, Valid, BooksOk, BudgetOk, UsageOk, SessionsOk, EscrowInv, RebuiltAmount, RebuiltCount, RebuiltTracked, IsTracked, CountOf;
  }

  /** A grant's total is what it has left plus what its allocations were given. */
  lemma GrantsConserve(ops: seq<Op>, id: Id)
    requires Valid(EMPTY, ops) && id in Run(EMPTY, ops).budget.grants
    ensures var db := Run(EMPTY, ops);
            var g := db.budget.grants[id];
            && g.total == Balance(db, GrantUnallocated, id, g.currency) + Total(db.budget.allocations, PartOf(id))
            && Balance(db, GrantUnallocated, id, g.currency) >= 0
  {
    InvOf(ops);
    hide Run, Valid, BooksOk, SummaryOk, UsageOk, SessionsOk, EscrowInv, Total, Held, KnownHolders, AllocationOk;
    assert GrantOk(Run(EMPTY, ops), id);
  }

  /** What an allocation was given is available or spent; spent is the fees of its applied rows. */
  lemma AllocationsConserve(ops: seq<Op>, id: Id)
    requires Valid(EMPTY, ops) && id in Run(EMPTY, ops).budget.allocations
    ensures var db := Run(EMPTY, ops);
            var a := db.budget.allocations[id];
            var available := Balance(db, AllocationAvailable, id, a.currency);
            && a.units == available + Balance(db, AllocationSpent, id, a.currency)
            && Balance(db, AllocationSpent, id, a.currency) == Total(db.usage.rows, FeePart(db.budget, id))
            && (a.status == Active || a.status == Exhausted ==> (a.status == Active <==> available > 0))
  {
    InvOf(ops);
    hide Run, Valid, BooksOk, SummaryOk, SessionsOk, EscrowInv, Total, Held, KnownHolders, GrantOk, OffsetsOk, IdsOk, RowsOk, ChargesOk;
    assert AllocationOk(Run(EMPTY, ops), id);
  }

  /** Each partition has one row for every offset below its checkpoint and none above. */
  lemma OffsetsAreExact(ops: seq<Op>, pos: Position)
    requires Valid(EMPTY, ops)
    ensures var u := Run(EMPTY, ops).usage;
            pos in u.rows <==> 0 <= pos.offset < NextOf(u, pos.partition)
  {
    InvOf(ops);
    hide Run, Valid, BooksOk, SummaryOk, BudgetOk, SessionsOk, EscrowInv, IdsOk, RowsOk, ChargesOk, SpentOk, NextOf;
  }

  /**
   * The ledger holds a row's posting once for every generation it reached, and its
   * reversal once for every generation but the last one of a live row; a redemption
   * event and its settlement agree on status and generation.
   */
  lemma GenerationsAreDisciplined(ops: seq<Op>, table: RowTable, id: LogId, orphan: bool, g: nat, leg: Leg)
    requires Valid(EMPTY, ops)
    ensures var db := Run(EMPTY, ops);
            var row := RowOf(db.escrow, table, id);
            var key := RowKey(table, orphan, id, g, leg);
            && (key in db.books.postings <==>
                  row.Some? && MoveOf(row.value, leg).amount > 0 &&
                  (g < row.value.generation || (g == row.value.generation && (orphan ==> !row.value.live))))
            && (key in db.books.postings ==> db.books.postings[key] == PostingOf(row.value, leg, orphan))
            && (id in db.escrow.settlements <==> id in db.escrow.events && db.escrow.events[id].data.kind == WinningTicketRedeemed)
            && (id in db.escrow.settlements ==>
                  db.escrow.settlements[id].settled == db.escrow.events[id].canonical &&
                  db.escrow.settlements[id].generation == db.escrow.events[id].generation)
  {
    InvOf(ops);
    var db := Run(EMPTY, ops);
    hide Run, Valid, BooksOk, SummaryOk, BudgetOk, UsageOk, SessionsOk, SumsOk, PostingOf, RowOf;
    LedgerOf(db, table, id, orphan, g, leg);
    assert AgreeAt(db.escrow, id);
  }

  lemma LedgerOf(db: DB, table: RowTable, id: LogId, orphan: bool, g: nat, leg: Leg)
    requires EscrowInv(db)
    ensures KeyOk(db.books.postings, RowOf(db.escrow, table, id), table, id, orphan, g, leg)
  {
    hide BooksOk, SummaryOk, SumsOk, KeyOk;
    LedgerAt(db, table, id, orphan, g, leg);
  }
}

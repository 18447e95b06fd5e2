/**
 * The monetary recount of the migration (backfillMetricAmounts in
 * migrations/metric_amounts.go): one pass over the source rows leaves metric_amounts
 * equal to the aggregates the incremental updates keep.
 */
module Rebuild {
  import opened Totals
  import opened Blocks
  import opened Tables
  import opened Summaries
  import opened StoreState
  import U = Units

  type Tally = map<(AmountName, Currency), int>

  function Add(totals: Tally, name: AmountName, currency: Currency, n: int): Tally {
    totals[(name, currency) := (if (name, currency) in totals then totals[(name, currency)] else 0) + n]
  }

  function Tallied(totals: Tally, name: AmountName, currency: Currency): int {
    if (name, currency) in totals then totals[(name, currency)] else 0
  }

  // ---- One row of each select ----

  function AddBalance(totals: Tally, allocations: map<Id, Allocation>, a: Account, n: int): Tally {
    if a.kind == GrantUnallocated then Add(totals, Sum(a.kind), a.currency, n)
    else if (a.kind == AllocationAvailable || a.kind == AllocationSpent) && Eligible(allocations, a) then
      var t := Add(totals, Sum(a.kind), a.currency, n);
      if a.kind == AllocationAvailable && n < 0 then Add(t, AllocationOverdraw, a.currency, -n) else t
    else totals
  }

  function AddTracked(totals: Tally, k: TrackedKey, t: Tracked): Tally {
    if EscrowKind(k.kind) then Add(totals, Sum(k.kind), k.currency, t.balance) else totals
  }

  function AddSettlement(totals: Tally, row: SettlementRow): Tally {
    if !row.settled then totals else
      var t := Add(Add(totals, SettlementFaceValue, Eth, row.data.face), SettlementPaid, Eth, row.data.paid);
      if row.data.face > row.data.paid then Add(t, SettlementShortfall, Eth, row.data.face - row.data.paid) else t
  }

  /** The aggregates over the rows visited so far. */
  ghost function Collected(db: DB, balances: map<Account, int>, tracked: map<TrackedKey, Tracked>, settlements: map<LogId, SettlementRow>,
                           name: AmountName, currency: Currency): int {
    if FromSettlements(name) then Total(settlements, SettlementWeight(name))
    else if FromTracked(name) then Total(tracked, TrackedWeight(name.kind))
    else Total(balances, BalanceWeight(db.budget.allocations, name, currency))
  }

  ghost predicate Tallies(db: DB, totals: Tally, balances: map<Account, int>, tracked: map<TrackedKey, Tracked>,
                          settlements: map<LogId, SettlementRow>) {
    forall name, currency :: AmountRow(name, currency) ==>
      Tallied(totals, name, currency) == Collected(db, balances, tracked, settlements, name, currency)
  }

  lemma BalanceTallied(db: DB, totals: Tally, balances: map<Account, int>, tracked: map<TrackedKey, Tracked>,
                       settlements: map<LogId, SettlementRow>, a: Account, n: int)
    requires Tallies(db, totals, balances, tracked, settlements) && a !in balances
    ensures Tallies(db, AddBalance(totals, db.budget.allocations, a, n), balances[a := n], tracked, settlements)
  {
    hide Total;
    forall name, currency | AmountRow(name, currency)
      ensures Tallied(AddBalance(totals, db.budget.allocations, a, n), name, currency) ==
              Collected(db, balances[a := n], tracked, settlements, name, currency)
    {
      assert Tallied(totals, name, currency) == Collected(db, balances, tracked, settlements, name, currency);
      if !FromSettlements(name) && !FromTracked(name) { Updated(balances, BalanceWeight(db.budget.allocations, name, currency), a, n); }
    }
  }

  lemma TrackedTallied(db: DB, totals: Tally, balances: map<Account, int>, tracked: map<TrackedKey, Tracked>,
                       settlements: map<LogId, SettlementRow>, k: TrackedKey, t: Tracked)
    requires Tallies(db, totals, balances, tracked, settlements) && k !in tracked && (EscrowKind(k.kind) ==> k.currency == Eth)
    ensures Tallies(db, AddTracked(totals, k, t), balances, tracked[k := t], settlements)
  {
    hide Total;
    forall name, currency | AmountRow(name, currency)
      ensures Tallied(AddTracked(totals, k, t), name, currency) == Collected(db, balances, tracked[k := t], settlements, name, currency)
    {
      assert Tallied(totals, name, currency) == Collected(db, balances, tracked, settlements, name, currency);
      if FromTracked(name) { Updated(tracked, TrackedWeight(name.kind), k, t); }
    }
  }

  lemma SettlementTallied(db: DB, totals: Tally, balances: map<Account, int>, tracked: map<TrackedKey, Tracked>,
                          settlements: map<LogId, SettlementRow>, id: LogId, row: SettlementRow)
    requires Tallies(db, totals, balances, tracked, settlements) && id !in settlements
    ensures Tallies(db, AddSettlement(totals, row), balances, tracked, settlements[id := row])
  {
    hide Total;
    forall name, currency | AmountRow(name, currency)
      ensures Tallied(AddSettlement(totals, row), name, currency) == Collected(db, balances, tracked, settlements[id := row], name, currency)
    {
      assert Tallied(totals, name, currency) == Collected(db, balances, tracked, settlements, name, currency);
      if FromSettlements(name) { Updated(settlements, SettlementWeight(name), id, row); }
    }
  }

  lemma NothingTallied(db: DB)
    ensures Tallies(db, map[], map[], map[], map[])
  {
  }

  lemma LessToDo<K, V>(all: map<K, V>, seen: map<K, V>, k: K)
    requires seen.Keys <= all.Keys && k in all && k !in seen
    ensures |all.Keys - seen[k := all[k]].Keys| < |all.Keys - seen.Keys|
  {
    assert all.Keys - seen[k := all[k]].Keys == (all.Keys - seen.Keys) - {k};
  }

  /** The rows of metric_amounts as migration 003 inserts them. */
  ghost predicate AllZeroRows(s: Summary) {
    forall name, currency :: AmountRow(name, currency) ==> (name, currency) in s.amounts && s.amounts[(name, currency)] == 0
  }

  /** Tracked escrow balances are in ETH. */
  ghost predicate InEth(tracked: map<TrackedKey, Tracked>) {
    forall k :: k in tracked && EscrowKind(k.kind) ==> k.currency == Eth
  }

  method CollectBalances(balances: map<Account, int>, allocations: map<Id, Allocation>, ghost db: DB) returns (totals: Tally)
    requires db.budget.allocations == allocations
    ensures Tallies(db, totals, balances, map[], map[])
  {
    hide *;
    totals := map[];
    NothingTallied(db);
    var seen: map<Account, int> := map[];
    while seen.Keys != balances.Keys
      invariant seen.Keys <= balances.Keys && forall a :: a in seen ==> seen[a] == balances[a]
      invariant Tallies(db, totals, seen, map[], map[])
      decreases |balances.Keys - seen.Keys|
    {
      var a :| a in balances && a !in seen;
      BalanceTallied(db, totals, seen, map[], map[], a, balances[a]);
      totals := AddBalance(totals, allocations, a, balances[a]);
      LessToDo(balances, seen, a);
      seen := seen[a := balances[a]];
    }
    assert seen == balances;
  }

  method CollectTracked(tracked: map<TrackedKey, Tracked>, before: Tally, ghost db: DB, ghost balances: map<Account, int>) returns (totals: Tally)
    requires Tallies(db, before, balances, map[], map[]) && InEth(tracked)
    ensures Tallies(db, totals, balances, tracked, map[])
  {
    hide *;
    totals := before;
    var seen: map<TrackedKey, Tracked> := map[];
    while seen.Keys != tracked.Keys
      invariant seen.Keys <= tracked.Keys && forall k :: k in seen ==> seen[k] == tracked[k]
      invariant Tallies(db, totals, balances, seen, map[])
      decreases |tracked.Keys - seen.Keys|
    {
      var k :| k in tracked && k !in seen;
      InEthAt(tracked, k);
      TrackedTallied(db, totals, balances, seen, map[], k, tracked[k]);
      totals := AddTracked(totals, k, tracked[k]);
      LessToDo(tracked, seen, k);
      seen := seen[k := tracked[k]];
    }
    assert seen == tracked;
  }

  method CollectSettlements(settlements: map<LogId, SettlementRow>, before: Tally, ghost db: DB, ghost balances: map<Account, int>,
                            ghost tracked: map<TrackedKey, Tracked>) returns (totals: Tally)
    requires Tallies(db, before, balances, tracked, map[])
    ensures Tallies(db, totals, balances, tracked, settlements)
  {
    hide *;
    totals := before;
    var seen: map<LogId, SettlementRow> := map[];
    while seen.Keys != settlements.Keys
      invariant seen.Keys <= settlements.Keys && forall id :: id in seen ==> seen[id] == settlements[id]
      invariant Tallies(db, totals, balances, tracked, seen)
      decreases |settlements.Keys - seen.Keys|
    {
      var id :| id in settlements && id !in seen;
      SettlementTallied(db, totals, balances, tracked, seen, id, settlements[id]);
      totals := AddSettlement(totals, settlements[id]);
      LessToDo(settlements, seen, id);
      seen := seen[id := settlements[id]];
    }
    assert seen == settlements;
  }

  lemma InEthAt(tracked: map<TrackedKey, Tracked>, k: TrackedKey)
    requires InEth(tracked) && k in tracked
    ensures EscrowKind(k.kind) ==> k.currency == Eth
  {
  }

  /** Collects the totals of all source rows, then writes each to its summary row. */
  method BackfillMetricAmounts(store: Store)
    requires AllZeroRows(store.summary) && InEth(store.summary.tracked)
    modifies store`summary
    ensures AmountsOk(store.View())
    ensures store.summary.counts == old(store.summary.counts) && store.summary.tracked == old(store.summary.tracked)
  {
    hide RebuiltAmount;
    ghost var db := store.View();
    var totals := CollectBalances(store.books.balances, store.budget.allocations, db);
    totals := CollectTracked(store.summary.tracked, totals, db, store.books.balances);
    totals := CollectSettlements(store.escrow.settlements, totals, db, store.books.balances, store.summary.tracked);
    var done: set<(AmountName, Currency)> := {};
    while done != totals.Keys
      invariant done <= totals.Keys
      invariant store.summary == old(store.summary).(amounts := store.summary.amounts)
      invariant forall k :: k in old(store.summary.amounts) ==>
                  k in store.summary.amounts && store.summary.amounts[k] == if k in done then totals[k] else old(store.summary.amounts)[k]
      decreases totals.Keys - done
    {
      var k :| k in totals && k !in done;
      if k in store.summary.amounts {
        store.summary := store.summary.(amounts := store.summary.amounts[k := totals[k]]);
      }
      done := done + {k};
    }
    forall name, currency | AmountRow(name, currency)
      ensures (name, currency) in store.summary.amounts &&
              store.summary.amounts[(name, currency)] == RebuiltAmount(store.View(), name, currency)
    {
      assert (name, currency) in old(store.summary.amounts);
      assert Tallied(totals, name, currency) == Collected(db, store.books.balances, store.summary.tracked, store.escrow.settlements, name, currency);
      CollectedIsRebuilt(store.View(), name, currency);
      SameCollected(db, store.View(), name, currency);
    }
  }

  lemma CollectedIsRebuilt(db: DB, name: AmountName, currency: Currency)
    ensures Collected(db, db.books.balances, db.summary.tracked, db.escrow.settlements, name, currency) == RebuiltAmount(db, name, currency)
  {
  }

  lemma SameCollected(db: DB, db': DB, name: AmountName, currency: Currency)
    requires db'.books == db.books && db'.budget == db.budget && db'.escrow == db.escrow && db'.summary.tracked == db.summary.tracked
    ensures Collected(db', db'.books.balances, db'.summary.tracked, db'.escrow.settlements, name, currency) ==
            Collected(db, db.books.balances, db.summary.tracked, db.escrow.settlements, name, currency)
  {
  }

  // ---- The underpayment test of migration 003 ----

  /** settled, with a face value longer than the payment, or as long and greater as text. */
  ghost function UnderpaidAsText(): (LogId, SettlementRow) -> int {
    (id: LogId, row: SettlementRow) => if row.settled && U.Shorter(U.Text(row.data.paid), U.Text(row.data.face)) then 1 else 0
  }

  /** The migration's comparison of texts counts the rows whose shortfall the updates count. */
  lemma UnderpaidByText(db: DB)
    ensures RebuiltCount(db, SettlementsUnderpaid) == Total(db.escrow.settlements, UnderpaidAsText())
  {
    hide Total, U.Shorter;
    var w, x, rows := SettlementCountWeight(SettlementsUnderpaid), UnderpaidAsText(), db.escrow.settlements;
    forall id | id in rows ensures w(id, rows[id]) == x(id, rows[id]) {
      U.ShorterIsSmaller(U.Text(rows[id].data.paid), U.Text(rows[id].data.face));
    }
    Same(rows, w, x);
  }
}

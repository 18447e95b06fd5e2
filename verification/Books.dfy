/**
 * The ledger kernel (internal/store/store.go): one posting primitive that appends
 * two equal, opposite entries, moves the cached balances, and keeps the summaries
 * of internal/store/metrics.go in step.
 */
module Books {
  import opened Results
  import opened Totals
  import opened Blocks
  import opened Tables

  // ---- Balances ----

  function Held(balances: map<Account, int>, a: Account): int {
    if a in balances then balances[a] else 0
  }

  function Balance(db: DB, kind: Kind, owner: Id, currency: Currency): int {
    Held(db.books.balances, Account(kind, owner, currency))
  }

  // ---- Summary rows ----

  function ChangeCount(s: Summary, key: CountKey, delta: int): Outcome<Summary> {
    if delta == 0 then Ok(s)
    else if delta < 0 && key !in s.counts then Err(NoRows)
    else
      var value := (if key in s.counts then s.counts[key] else 0) + delta;
      if value < 0 then Err(CountBelowZero) else Ok(s.(counts := s.counts[key := value]))
  }

  function ChangeAmount(s: Summary, name: AmountName, currency: Currency, delta: int): Outcome<Summary> {
    if delta == 0 then Ok(s)
    else if (name, currency) !in s.amounts then Err(NoRows)
    else Ok(s.(amounts := s.amounts[(name, currency) := s.amounts[(name, currency)] + delta]))
  }

  function BoolCount(v: bool): (n: int)
    ensures 0 <= n <= 1
  {
    if v then 1 else 0
  }

  function Overdraw(n: int): int { if n < 0 then -n else 0 }

  /** The tracked rows of one escrow account, one per snapshot that shares its owner. */
  function TrackedRows(s: Summary, kind: Kind, owner: Id, currency: Currency): set<TrackedKey> {
    set k | k in s.tracked && k.kind == kind && k.currency == currency && s.tracked[k].owner == owner
  }

  function Retracked(s: Summary, kind: Kind, owner: Id, currency: Currency, next: int): map<TrackedKey, Tracked> {
    map k | k in s.tracked ::
      if k.kind == kind && k.currency == currency && s.tracked[k].owner == owner then s.tracked[k].(balance := next)
      else s.tracked[k]
  }

  /** updateBalanceMetrics: what a balance change does to the summaries. */
  function UpdateBalanceMetrics(s: Summary, allocations: map<Id, Allocation>, a: Account, before: int, next: int): Outcome<Summary> {
    var delta := next - before;
    match a.kind
    case GrantUnallocated => ChangeAmount(s, Sum(a.kind), a.currency, delta)
    case AllocationSpent =>
      if a.owner in allocations && allocations[a.owner].currency == a.currency then
        ChangeAmount(s, Sum(a.kind), a.currency, delta)
      else Ok(s)
    case AllocationAvailable =>
      if a.owner in allocations && allocations[a.owner].currency == a.currency then
        var s1 :- ChangeAmount(s, Sum(a.kind), a.currency, delta);
        var s2 :- ChangeAmount(s1, AllocationOverdraw, a.currency, Overdraw(next) - Overdraw(before));
        var s3 :- ChangeCount(s2, AllocationsOverdrawn(a.currency), BoolCount(next < 0) - BoolCount(before < 0));
        var key := TrackedKey(a.kind, AllocationSource(a.owner), a.currency);
        if next < 0 then Ok(s3.(tracked := s3.tracked[key := Tracked(a.owner, next)]))
        else if before < 0 then Ok(s3.(tracked := s3.tracked - {key}))
        else Ok(s3)
      else Ok(s)
    case EscrowDeposit => UpdateEscrowMetrics(s, a, before, next)
    case EscrowReserve => UpdateEscrowMetrics(s, a, before, next)
    case _ => Ok(s)
  }

  function UpdateEscrowMetrics(s: Summary, a: Account, before: int, next: int): Outcome<Summary> {
    if a.currency != Eth then Ok(s) else
      var tracked := |TrackedRows(s, a.kind, a.owner, a.currency)|;
      var s1 := s.(tracked := Retracked(s, a.kind, a.owner, a.currency, next));
      if tracked == 0 then Ok(s1) else
        var s2 :- ChangeAmount(s1, Sum(a.kind), a.currency, (next - before) * tracked);
        ChangeCount(s2, EscrowUnfunded(a.kind), tracked * (BoolCount(next == 0) - BoolCount(before == 0)))
  }

  // ---- Posting ----

  /** One side of a posting: the cached balance, then the summaries. */
  function Adjust(db: DB, a: Account, delta: int): Outcome<DB> {
    var before := Held(db.books.balances, a);
    var s :- UpdateBalanceMetrics(db.summary, db.budget.allocations, a, before, before + delta);
    Ok(db.(books := db.books.(balances := db.books.balances[a := before + delta]), summary := s))
  }

  function Transfer(db: DB, key: Key, debit: Kind, debitOwner: Id, credit: Kind, creditOwner: Id, currency: Currency, n: int): Outcome<DB> {
    if n < 0 then Err(NegativeTransfer)
    else if n == 0 then Ok(db)
    else if key in db.books.postings then Err(DuplicateKey)
    else
      var d, c := Account(debit, debitOwner, currency), Account(credit, creditOwner, currency);
      var entered := db.(books := db.books.(postings := db.books.postings[key := Posting(d, c, n)]));
      var db1 :- Adjust(entered, d, -n);
      Adjust(db1, c, n)
  }

  /** The balance of an account after a posting. */
  function Moved(before: int, a: Account, d: Account, c: Account, n: int): int {
    before - (if a == d then n else 0) + (if a == c then n else 0)
  }

  /** What a successful posting changes, and that it changes nothing else. */
  lemma TransferEffect(db: DB, key: Key, debit: Kind, debitOwner: Id, credit: Kind, creditOwner: Id, currency: Currency, n: int)
    requires Transfer(db, key, debit, debitOwner, credit, creditOwner, currency, n).Ok?
    ensures var db' := Transfer(db, key, debit, debitOwner, credit, creditOwner, currency, n).value;
            var d, c := Account(debit, debitOwner, currency), Account(credit, creditOwner, currency);
            && db'.budget == db.budget && db'.usage == db.usage && db'.escrow == db.escrow
            && n >= 0
            && (n == 0 ==> db' == db)
            && (n > 0 ==> key !in db.books.postings && db'.books.postings == db.books.postings[key := Posting(d, c, n)])
            && (n > 0 ==> db'.books.balances.Keys == db.books.balances.Keys + {d, c})
            && forall a :: Held(db'.books.balances, a) == Moved(Held(db.books.balances, a), a, d, c, n)
  {
  }

  // ---- The ledger and its cache ----

  /** What a ledger transaction contributes to an account: its credit minus its debit entry. */
  ghost function Entry(a: Account): (Key, Posting) -> int {
    (key: Key, p: Posting) => (if p.credit == a then p.amount else 0) - (if p.debit == a then p.amount else 0)
  }

  /** Credits minus debits over the whole ledger. */
  ghost function Recounted(b: Books, a: Account): int {
    Total(b.postings, Entry(a))
  }

  ghost function InCurrency(currency: Currency): (Account, int) -> int {
    (a: Account, balance: int) => if a.currency == currency then balance else 0
  }

  ghost predicate BooksOk(b: Books) {
    && (forall a :: Held(b.balances, a) == Recounted(b, a))
    && (forall currency :: Total(b.balances, InCurrency(currency)) == 0)
    && forall k :: k in b.postings ==> b.postings[k].amount > 0 && b.postings[k].debit.currency == b.postings[k].credit.currency
  }

  ghost function Adjusted(balances: map<Account, int>, a: Account, delta: int): map<Account, int> {
    balances[a := Held(balances, a) + delta]
  }

  lemma AdjustedTotal(balances: map<Account, int>, a: Account, delta: int, currency: Currency)
    ensures Total(Adjusted(balances, a, delta), InCurrency(currency)) ==
            Total(balances, InCurrency(currency)) + (if a.currency == currency then delta else 0)
  {
    Updated(balances, InCurrency(currency), a, Held(balances, a) + delta);
  }

  lemma TransferBalances(db: DB, key: Key, debit: Kind, debitOwner: Id, credit: Kind, creditOwner: Id, currency: Currency, n: int)
    requires n > 0 && Transfer(db, key, debit, debitOwner, credit, creditOwner, currency, n).Ok?
    ensures Transfer(db, key, debit, debitOwner, credit, creditOwner, currency, n).value.books.balances ==
            Adjusted(Adjusted(db.books.balances, Account(debit, debitOwner, currency), -n), Account(credit, creditOwner, currency), n)
  {
  }

  lemma TransferKeepsCache(db: DB, key: Key, debit: Kind, debitOwner: Id, credit: Kind, creditOwner: Id, currency: Currency, n: int, a: Account)
    requires Held(db.books.balances, a) == Recounted(db.books, a)
    requires Transfer(db, key, debit, debitOwner, credit, creditOwner, currency, n).Ok?
    ensures var b := Transfer(db, key, debit, debitOwner, credit, creditOwner, currency, n).value.books;
            Held(b.balances, a) == Recounted(b, a)
  {
    TransferEffect(db, key, debit, debitOwner, credit, creditOwner, currency, n);
    if n > 0 {
      var p := Posting(Account(debit, debitOwner, currency), Account(credit, creditOwner, currency), n);
      Updated(db.books.postings, Entry(a), key, p);
    }
  }

  lemma TransferKeepsZeroSum(db: DB, key: Key, debit: Kind, debitOwner: Id, credit: Kind, creditOwner: Id, currency: Currency, n: int, cur: Currency)
    requires Transfer(db, key, debit, debitOwner, credit, creditOwner, currency, n).Ok?
    ensures var b := Transfer(db, key, debit, debitOwner, credit, creditOwner, currency, n).value.books;
            Total(b.balances, InCurrency(cur)) == Total(db.books.balances, InCurrency(cur))
  {
    hide *;
    TransferEffect(db, key, debit, debitOwner, credit, creditOwner, currency, n);
    if n > 0 {
      TransferBalances(db, key, debit, debitOwner, credit, creditOwner, currency, n);
      var d, c := Account(debit, debitOwner, currency), Account(credit, creditOwner, currency);
      AdjustedTotal(db.books.balances, d, -n, cur);
      AdjustedTotal(Adjusted(db.books.balances, d, -n), c, n, cur);
    }
  }

  /** A posting keeps the cache equal to the ledger and every currency in balance. */
  lemma TransferKeepsBooks(db: DB, key: Key, debit: Kind, debitOwner: Id, credit: Kind, creditOwner: Id, currency: Currency, n: int)
    requires BooksOk(db.books)
    requires Transfer(db, key, debit, debitOwner, credit, creditOwner, currency, n).Ok?
    ensures BooksOk(Transfer(db, key, debit, debitOwner, credit, creditOwner, currency, n).value.books)
  {
    hide Transfer, Total, Held, Moved, Recounted;
    var b := Transfer(db, key, debit, debitOwner, credit, creditOwner, currency, n).value.books;
    TransferEffect(db, key, debit, debitOwner, credit, creditOwner, currency, n);
    forall a ensures Held(b.balances, a) == Recounted(b, a) {
      TransferKeepsCache(db, key, debit, debitOwner, credit, creditOwner, currency, n, a);
    }
    forall cur ensures Total(b.balances, InCurrency(cur)) == 0 {
      TransferKeepsZeroSum(db, key, debit, debitOwner, credit, creditOwner, currency, n, cur);
    }
  }
}

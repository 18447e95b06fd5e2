/**
 * Grants and allocations (internal/store/manage.go): creation, funding and status
 * changes, with the conservation laws they keep together with usage charges.
 */
module Management {
  import opened Results
  import opened Totals
  import opened Blocks
  import opened Tables
  import opened Books
  import opened Summaries

  /** An amount as given on the command line or in a request. */
  datatype Requested = All | Units(units: nat)

  datatype Window = Window(starts: Option<int>, ends: Option<int>)

  predicate ValidWindow(w: Window) {
    w.starts.Some? && w.ends.Some? ==> w.starts.value < w.ends.value
  }

  // ---- Operations ----

  function ChangeInventory(s: Summary, before: Option<CountKey>, next: CountKey): Outcome<Summary> {
    if before == Some(next) then Ok(s)
    else if before.Some? then
      var s1 :- ChangeCount(s, before.value, -1);
      ChangeCount(s1, next, 1)
    else ChangeCount(s, next, 1)
  }

  function WithGrant(db: DB, id: Id, g: Grant): DB {
    db.(budget := db.budget.(grants := db.budget.grants[id := g]))
  }

  function WithAllocation(db: DB, id: Id, a: Allocation): DB {
    db.(budget := db.budget.(allocations := db.budget.allocations[id := a]))
  }

  function CreateGrant(db: DB, id: Id, amount: nat, currency: Option<Currency>, status: Option<GrantStatus>, window: Window): Outcome<DB> {
    if !ValidWindow(window) then Err(InvalidInput) else
      var cur := if currency.None? then Usd else currency.value;
      var initial := if status.None? then Draft else status.value;
      if initial == Closed then Err(InvalidInput)
      else if id in db.budget.grants then Err(UniqueViolation)
      else
        var s :- ChangeInventory(db.summary, None, Grants(cur, initial));
        var inserted := WithGrant(db, id, Grant(amount, cur, initial, window.starts, window.ends)).(summary := s);
        Transfer(inserted, CreateKey(id), GrantFundingSource, id, GrantUnallocated, id, cur, amount)
  }

  function AllocationAmount(requested: Requested, available: int): int {
    if requested.All? then available else requested.units
  }

  function CreateAllocation(db: DB, id: Id, grant: Id, requested: Requested, currency: Option<Currency>,
                            status: Option<AllocationStatus>, window: Window): Outcome<DB> {
    if !ValidWindow(window) then Err(InvalidInput)
    else if grant !in db.budget.grants then Err(NoRows)
    else
      var g := db.budget.grants[grant];
      if currency.Some? && currency.value != g.currency then Err(InvalidInput)
      else if g.status == Closed then Err(StateConflict)
      else
        var available := Balance(db, GrantUnallocated, grant, g.currency);
        var n := AllocationAmount(requested, available);
        if available < n then Err(StateConflict) else
          var asked := if status.None? then Active else status.value;
          if asked != Active && asked != Paused then Err(InvalidInput) else
            var initial := if asked == Active && n == 0 then Exhausted else asked;
            if id in db.budget.allocations then Err(UniqueViolation) else
              var s :- ChangeInventory(db.summary, None, Allocations(g.currency, initial));
              var row := Allocation(grant, n, g.currency, initial, window.starts, window.ends);
              Transfer(WithAllocation(db, id, row).(summary := s),
                       CreateKey(id), GrantUnallocated, grant, AllocationAvailable, id, g.currency, n)
  }

  function FundGrant(db: DB, id: Id, requested: Requested, currency: Option<Currency>, funding: Id): Outcome<DB> {
    if requested.All? || requested.units == 0 then Err(InvalidInput)
    else if id !in db.budget.grants then Err(NoRows)
    else
      var g := db.budget.grants[id];
      if currency.Some? && currency.value != g.currency then Err(InvalidInput)
      else if g.status == Closed then Err(StateConflict)
      else
        Transfer(WithGrant(db, id, g.(total := g.total + requested.units)),
                 FundKey(funding), GrantFundingSource, id, GrantUnallocated, id, g.currency, requested.units)
  }

  function FundAllocation(db: DB, id: Id, requested: Requested, currency: Option<Currency>, funding: Id): Outcome<DB> {
    if id !in db.budget.allocations then Err(NoRows) else
      var a := db.budget.allocations[id];
      if currency.Some? && currency.value != a.currency then Err(InvalidInput)
      else if a.status == Revoked then Err(StateConflict)
      else if a.grant !in db.budget.grants then Err(NoRows)
      else if db.budget.grants[a.grant].status == Closed then Err(StateConflict)
      else
        var available := Balance(db, GrantUnallocated, a.grant, a.currency);
        var n := AllocationAmount(requested, available);
        if n == 0 then Err(InvalidInput)
        else if available < n then Err(StateConflict)
        else
          var db1 :- Transfer(db, FundKey(funding), GrantUnallocated, a.grant, AllocationAvailable, id, a.currency, n);
          var next := if a.status == Exhausted && Balance(db1, AllocationAvailable, id, a.currency) > 0 then Active else a.status;
          var s :- ChangeInventory(db1.summary, Some(Allocations(a.currency, a.status)), Allocations(a.currency, next));
          Ok(WithAllocation(db1, id, a.(units := a.units + n, status := next)).(summary := s))
  }

  function SetGrantStatus(db: DB, id: Id, status: GrantStatus): Outcome<DB> {
    if id !in db.budget.grants then Err(NoRows) else
      var g := db.budget.grants[id];
      if g.status == Closed && status != Closed then Err(StateConflict) else
        var s :- ChangeInventory(db.summary, Some(Grants(g.currency, g.status)), Grants(g.currency, status));
        Ok(WithGrant(db, id, g.(status := status)).(summary := s))
  }

  function SetAllocationStatus(db: DB, id: Id, status: AllocationStatus): Outcome<DB> {
    if status == Exhausted then Err(InvalidInput)
    else if id !in db.budget.allocations then Err(NoRows)
    else
      var a := db.budget.allocations[id];
      if a.status == Revoked then (if status == Revoked then Ok(db) else Err(StateConflict)) else
        var bal := Balance(db, AllocationAvailable, id, a.currency);
        if status == Active && bal <= 0 then Err(StateConflict) else
          var returned := if status == Revoked && bal > 0 then bal else 0;
          var db1 :- Transfer(db, RevokeKey(id), AllocationAvailable, id, GrantUnallocated, a.grant, a.currency, returned);
          var s :- ChangeInventory(db1.summary, Some(Allocations(a.currency, a.status)), Allocations(a.currency, status));
          Ok(WithAllocation(db1, id, a.(units := a.units - returned, status := status)).(summary := s))
  }

  function IssueKey(db: DB, id: Id, allocation: Id, secretHash: Id): Outcome<DB> {
    if allocation !in db.budget.allocations then Err(NoRows)
    else if db.budget.allocations[allocation].status == Revoked then Err(StateConflict)
    else if id in db.budget.apiKeys then Err(UniqueViolation)
    else Ok(db.(budget := db.budget.(apiKeys := db.budget.apiKeys[id := ApiKey(allocation, secretHash, false)])))
  }

  function RevokeApiKey(db: DB, id: Id): Outcome<DB> {
    if id !in db.budget.apiKeys then Err(NoRows)
    else Ok(db.(budget := db.budget.(apiKeys := db.budget.apiKeys[id := db.budget.apiKeys[id].(revoked := true)])))
  }

  function RevokeSession(db: DB, id: Id): Outcome<DB> {
    if id !in db.budget.sessions then Err(NoRows)
    else Ok(db.(budget := db.budget.(sessions := db.budget.sessions[id := db.budget.sessions[id].(active := false)])))
  }

  // ---- The conservation laws ----

  ghost function PartOf(grant: Id): (Id, Allocation) -> int {
    (id: Id, a: Allocation) => if a.grant == grant then a.units else 0
  }

  ghost predicate GrantOk(db: DB, id: Id)
    requires id in db.budget.grants
  {
    var g := db.budget.grants[id];
    && g.total == Balance(db, GrantUnallocated, id, g.currency) + Total(db.budget.allocations, PartOf(id))
    && Balance(db, GrantUnallocated, id, g.currency) >= 0
  }

  ghost predicate AllocationOk(db: DB, id: Id)
    requires id in db.budget.allocations
  {
    var a := db.budget.allocations[id];
    var available := Balance(db, AllocationAvailable, id, a.currency);
    && a.grant in db.budget.grants && db.budget.grants[a.grant].currency == a.currency
    && a.units == available + Balance(db, AllocationSpent, id, a.currency)
    && Balance(db, AllocationSpent, id, a.currency) >= 0
    && (a.status == Active ==> available > 0)
    && (a.status == Exhausted ==> available <= 0)
  }

  /** Only known grants and allocations hold balances, each in its own currency. */
  ghost predicate KnownHolders(db: DB) {
    forall a :: Held(db.books.balances, a) != 0 ==>
      (a.kind == GrantUnallocated ==> a.owner in db.budget.grants && db.budget.grants[a.owner].currency == a.currency) &&
      (a.kind == AllocationAvailable || a.kind == AllocationSpent ==> Eligible(db.budget.allocations, a))
  }

  ghost predicate BudgetOk(db: DB) {
    && (forall id :: id in db.budget.grants ==> GrantOk(db, id))
    && (forall id :: id in db.budget.allocations ==> AllocationOk(db, id))
    && KnownHolders(db)
  }

  // ---- Writing a row keeps the summaries ----

  lemma ChangeInventoryEffect(s: Summary, before: Option<CountKey>, next: CountKey)
    requires before.Some? && before != Some(next) ==> CountOf(s, before.value) >= 1
    requires CountOf(s, next) >= 0
    ensures ChangeInventory(s, before, next).Ok?
    ensures var t := ChangeInventory(s, before, next).value;
            t.amounts == s.amounts && t.tracked == s.tracked &&
            forall k :: CountOf(t, k) == CountOf(s, k)
              - (if before == Some(k) then 1 else 0) + (if k == next then 1 else 0)
  {
    if before == Some(next) {
    } else if before.Some? {
      ChangeCountEffect(s, before.value, -1);
      ChangeCountEffect(ChangeCount(s, before.value, -1).value, next, 1);
    } else {
      ChangeCountEffect(s, next, 1);
    }
  }

  /** Amounts and tracked balances read allocations only through eligibility of nonzero balances. */
  lemma EligibilityFrame(db: DB, db': DB)
    requires AmountsOk(db) && TrackedOk(db)
    requires db'.books.balances == db.books.balances && db'.escrow == db.escrow
    requires db'.summary.amounts == db.summary.amounts && db'.summary.tracked == db.summary.tracked
    requires forall a: Account :: (a.kind == AllocationAvailable || a.kind == AllocationSpent) && Held(db.books.balances, a) != 0 ==>
               Eligible(db.budget.allocations, a) == Eligible(db'.budget.allocations, a)
    ensures AmountsOk(db') && TrackedOk(db')
  {
    forall name, currency | AmountRow(name, currency)
      ensures RebuiltAmount(db', name, currency) == RebuiltAmount(db, name, currency)
    {
      if FromBalances(name) {
        var w, x := BalanceWeight(db'.budget.allocations, name, currency), BalanceWeight(db.budget.allocations, name, currency);
        forall a | a in db.books.balances ensures w(a, db.books.balances[a]) == x(a, db.books.balances[a]) {
          assert Held(db.books.balances, a) == db.books.balances[a];
        }
        Same(db.books.balances, w, x);
      }
    }
    forall k ensures IsTracked(db', k) == IsTracked(db, k) && RebuiltTracked(db', k) == RebuiltTracked(db, k) {
      if k.source.AllocationSource? {
        var a := Account(k.kind, k.source.id, k.currency);
        assert Balance(db', k.kind, k.source.id, k.currency) == Held(db.books.balances, a);
      }
    }
  }

  lemma GrantWritten(db: DB, id: Id, g: Grant)
    requires SummaryOk(db)
    requires id in db.budget.grants ==> db.budget.grants[id].currency == g.currency
    ensures var before := if id in db.budget.grants then Some(Grants(g.currency, db.budget.grants[id].status)) else None;
            var r := ChangeInventory(db.summary, before, Grants(g.currency, g.status));
            r.Ok? && SummaryOk(WithGrant(db, id, g).(summary := r.value))
  {
    var before := if id in db.budget.grants then Some(Grants(g.currency, db.budget.grants[id].status)) else None;
    var next := Grants(g.currency, g.status);
    RebuiltCountNonNegative(db, next);
    if before.Some? { AtLeastOneGrant(db, id); }
    ChangeInventoryEffect(db.summary, before, next);
    var db' := WithGrant(db, id, g).(summary := ChangeInventory(db.summary, before, next).value);
    EligibilityFrame(db, db');
    forall key ensures CountOf(db'.summary, key) == RebuiltCount(db', key) {
      if key.Grants? {
        Updated(db.budget.grants, GrantWeight(key), id, g);
      } else {
        assert RebuiltCount(db', key) == RebuiltCount(db, key);
      }
    }
  }

  lemma AtLeastOneGrant(db: DB, id: Id)
    requires CountsOk(db) && id in db.budget.grants
    ensures CountOf(db.summary, Grants(db.budget.grants[id].currency, db.budget.grants[id].status)) >= 1
  {
    var key := Grants(db.budget.grants[id].currency, db.budget.grants[id].status);
    AtLeastShare(db.budget.grants, GrantWeight(key), id);
  }

  lemma AllocationWritten(db: DB, id: Id, a: Allocation)
    requires SummaryOk(db)
    requires if id in db.budget.allocations then db.budget.allocations[id].currency == a.currency
             else forall c: Account :: c.owner == id && (c.kind == AllocationAvailable || c.kind == AllocationSpent) ==> Held(db.books.balances, c) == 0
    ensures var before := if id in db.budget.allocations then Some(Allocations(a.currency, db.budget.allocations[id].status)) else None;
            var r := ChangeInventory(db.summary, before, Allocations(a.currency, a.status));
            r.Ok? && SummaryOk(WithAllocation(db, id, a).(summary := r.value))
  {
    var before := if id in db.budget.allocations then Some(Allocations(a.currency, db.budget.allocations[id].status)) else None;
    var next := Allocations(a.currency, a.status);
    RebuiltCountNonNegative(db, next);
    if before.Some? { AtLeastOneAllocation(db, id); }
    ChangeInventoryEffect(db.summary, before, next);
    var db' := WithAllocation(db, id, a).(summary := ChangeInventory(db.summary, before, next).value);
    EligibilityFrame(db, db');
    forall key ensures CountOf(db'.summary, key) == RebuiltCount(db', key) {
      if key.Allocations? {
        Updated(db.budget.allocations, AllocationWeight(key), id, a);
      } else {
        assert RebuiltCount(db', key) == RebuiltCount(db, key);
      }
    }
  }

  lemma AtLeastOneAllocation(db: DB, id: Id)
    requires CountsOk(db) && id in db.budget.allocations
    ensures CountOf(db.summary, Allocations(db.budget.allocations[id].currency, db.budget.allocations[id].status)) >= 1
  {
    var key := Allocations(db.budget.allocations[id].currency, db.budget.allocations[id].status);
    AtLeastShare(db.budget.allocations, AllocationWeight(key), id);
  }

  // ---- Each operation keeps the books, the summaries and the budget ----

  ghost predicate BooksAndBudgetOk(db: DB) {
    BooksOk(db.books) && SummaryOk(db) && BudgetOk(db)
  }

  lemma TransferKeepsBoth(db: DB, key: Key, debit: Kind, debitOwner: Id, credit: Kind, creditOwner: Id, currency: Currency, n: int)
    requires BooksOk(db.books) && SummaryOk(db)
    ensures var r := Transfer(db, key, debit, debitOwner, credit, creditOwner, currency, n);
            && (r.Ok? <==> n == 0 || (n > 0 && key !in db.books.postings))
            && (r.Ok? ==> BooksOk(r.value.books) && SummaryOk(r.value))
  {
    TransferKeepsSummary(db, key, debit, debitOwner, credit, creditOwner, currency, n);
    if n == 0 || (n > 0 && key !in db.books.postings) {
      TransferKeepsBooks(db, key, debit, debitOwner, credit, creditOwner, currency, n);
    }
  }

  /** An allocation is revoked, and its unused units returned, at most once. */
  ghost predicate RevokedOnce(db: DB) {
    forall id :: RevokeKey(id) in db.books.postings ==> id in db.budget.allocations && db.budget.allocations[id].status == Revoked
  }

  predicate GrantCreatable(status: Option<GrantStatus>, window: Window) {
    ValidWindow(window) && status != Some(Closed)
  }

  lemma CreateGrantBooks(db: DB, id: Id, amount: nat, currency: Option<Currency>, status: Option<GrantStatus>, window: Window)
    requires BooksOk(db.books) && SummaryOk(db) && id !in db.budget.grants && CreateKey(id) !in db.books.postings
    ensures var r := CreateGrant(db, id, amount, currency, status, window);
            && (r.Ok? <==> GrantCreatable(status, window))
            && (r.Ok? ==> BooksOk(r.value.books) && SummaryOk(r.value))
  {
    hide BooksOk, SummaryOk, Transfer, ChangeInventory;
    if GrantCreatable(status, window) {
      var cur := if currency.None? then Usd else currency.value;
      var initial := if status.None? then Draft else status.value;
      var g := Grant(amount, cur, initial, window.starts, window.ends);
      GrantWritten(db, id, g);
      var inserted := WithGrant(db, id, g).(summary := ChangeInventory(db.summary, None, Grants(cur, initial)).value);
      TransferKeepsBoth(inserted, CreateKey(id), GrantFundingSource, id, GrantUnallocated, id, cur, amount);
    }
  }

  lemma CreateGrantBudget(db: DB, id: Id, amount: nat, currency: Option<Currency>, status: Option<GrantStatus>, window: Window)
    requires BudgetOk(db) && CreateGrant(db, id, amount, currency, status, window).Ok?
    ensures BudgetOk(CreateGrant(db, id, amount, currency, status, window).value)
  {
    hide Transfer, ChangeInventory, Total, AllocationOk;
    var cur := if currency.None? then Usd else currency.value;
    var initial := if status.None? then Draft else status.value;
    var g := Grant(amount, cur, initial, window.starts, window.ends);
    var inserted := WithGrant(db, id, g).(summary := ChangeInventory(db.summary, None, Grants(cur, initial)).value);
    TransferEffect(inserted, CreateKey(id), GrantFundingSource, id, GrantUnallocated, id, cur, amount);
    var db' := CreateGrant(db, id, amount, currency, status, window).value;
    NoParts(db, id);
    assert Held(db.books.balances, Account(GrantUnallocated, id, cur)) == 0;
    assert GrantOk(db', id);
    assert OnlyGrant(db, db', id);
    OneGrantKeepsBudget(db, db', id);
  }

  /** A grant nobody has heard of has no allocations. */
  lemma NoParts(db: DB, id: Id)
    requires BudgetOk(db) && id !in db.budget.grants
    ensures Total(db.budget.allocations, PartOf(id)) == 0
  {
    AllZero(db.budget.allocations, PartOf(id));
  }

  /** Only one grant row and its unallocated balance changed. */
  ghost predicate OnlyGrant(db: DB, db': DB, grant: Id) {
    && db'.budget.allocations == db.budget.allocations
    && grant in db'.budget.grants && db'.budget.grants == db.budget.grants[grant := db'.budget.grants[grant]]
    && (grant in db.budget.grants ==> db.budget.grants[grant].currency == db'.budget.grants[grant].currency)
    && forall a: Account :: a.kind != GrantFundingSource && a != Account(GrantUnallocated, grant, db'.budget.grants[grant].currency) ==>
         Held(db'.books.balances, a) == Held(db.books.balances, a)
  }

  lemma OneGrantKeepsBudget(db: DB, db': DB, grant: Id)
    requires BudgetOk(db) && OnlyGrant(db, db', grant) && GrantOk(db', grant)
    ensures BudgetOk(db')
  {
    forall id | id in db'.budget.grants && id != grant ensures GrantOk(db', id) { assert GrantOk(db, id); }
    forall id | id in db'.budget.allocations ensures AllocationOk(db', id) { assert AllocationOk(db, id); }
    forall a | Held(db'.books.balances, a) != 0
      ensures a.kind == GrantUnallocated ==> a.owner in db'.budget.grants && db'.budget.grants[a.owner].currency == a.currency
      ensures a.kind == AllocationAvailable || a.kind == AllocationSpent ==> Eligible(db'.budget.allocations, a)
    {
      if a.kind == GrantUnallocated && a != Account(GrantUnallocated, grant, db'.budget.grants[grant].currency) {
        assert Held(db.books.balances, a) != 0;
      }
    }
  }

  predicate GrantFundable(db: DB, id: Id, requested: Requested, currency: Option<Currency>) {
    && requested.Units? && requested.units > 0
    && id in db.budget.grants && db.budget.grants[id].status != Closed
    && (currency.Some? ==> currency.value == db.budget.grants[id].currency)
  }

  lemma FundGrantBooks(db: DB, id: Id, requested: Requested, currency: Option<Currency>, funding: Id)
    requires BooksOk(db.books) && SummaryOk(db) && FundKey(funding) !in db.books.postings
    ensures var r := FundGrant(db, id, requested, currency, funding);
            && (r.Ok? <==> GrantFundable(db, id, requested, currency))
            && (r.Ok? ==> BooksOk(r.value.books) && SummaryOk(r.value))
  {
    hide BooksOk, SummaryOk;
    if GrantFundable(db, id, requested, currency) {
      var g := db.budget.grants[id];
      var raised := g.(total := g.total + requested.units);
      GrantWritten(db, id, raised);
      var db1 := WithGrant(db, id, raised);
      assert db1.(summary := db.summary) == db1;
      TransferKeepsBoth(db1, FundKey(funding), GrantFundingSource, id, GrantUnallocated, id, g.currency, requested.units);
    }
  }

  lemma FundGrantEffect(db: DB, id: Id, requested: Requested, currency: Option<Currency>, funding: Id)
    requires FundGrant(db, id, requested, currency, funding).Ok?
    ensures var db' := FundGrant(db, id, requested, currency, funding).value;
            && id in db.budget.grants && requested.Units? && OnlyGrant(db, db', id)
            && db'.budget == WithGrant(db, id, db.budget.grants[id].(total := db.budget.grants[id].total + requested.units)).budget
            && Balance(db', GrantUnallocated, id, db.budget.grants[id].currency) ==
               Balance(db, GrantUnallocated, id, db.budget.grants[id].currency) + requested.units
  {
    var g := db.budget.grants[id];
    var db1 := WithGrant(db, id, g.(total := g.total + requested.units));
    TransferEffect(db1, FundKey(funding), GrantFundingSource, id, GrantUnallocated, id, g.currency, requested.units);
    hide Transfer;
  }

  lemma FundGrantBudget(db: DB, id: Id, requested: Requested, currency: Option<Currency>, funding: Id)
    requires BudgetOk(db) && FundGrant(db, id, requested, currency, funding).Ok?
    ensures BudgetOk(FundGrant(db, id, requested, currency, funding).value)
  {
    hide FundGrant, OnlyGrant, KnownHolders, AllocationOk, GrantOk;
    FundGrantEffect(db, id, requested, currency, funding);
    var db' := FundGrant(db, id, requested, currency, funding).value;
    RaisedGrant(db, db', id, requested.units);
    OneGrantKeepsBudget(db, db', id);
  }

  lemma RaisedGrant(db: DB, db': DB, id: Id, n: int)
    requires id in db.budget.grants && GrantOk(db, id) && n >= 0
    requires db'.budget == WithGrant(db, id, db.budget.grants[id].(total := db.budget.grants[id].total + n)).budget
    requires Balance(db', GrantUnallocated, id, db.budget.grants[id].currency) == Balance(db, GrantUnallocated, id, db.budget.grants[id].currency) + n
    ensures GrantOk(db', id)
  {
  }

  lemma SetGrantStatusKeeps(db: DB, id: Id, status: GrantStatus)
    requires BooksAndBudgetOk(db)
    ensures var r := SetGrantStatus(db, id, status);
            && (r.Ok? <==> id in db.budget.grants && (db.budget.grants[id].status == Closed ==> status == Closed))
            && (r.Ok? ==> BooksAndBudgetOk(r.value))
  {
    if id in db.budget.grants {
      var g := db.budget.grants[id];
      GrantWritten(db, id, g.(status := status));
      if SetGrantStatus(db, id, status).Ok? {
        var db' := SetGrantStatus(db, id, status).value;
        assert GrantOk(db, id);
        assert GrantOk(db', id);
        OneGrantKeepsBudget(db, db', id);
      }
    }
  }

  /**
   * Units move between a grant and one of its allocations, whose row changes with
   * them; every other account and row stays.
   */
  ghost predicate UnitsMoved(db: DB, db': DB, id: Id, moved: int) {
    && db'.budget.grants == db.budget.grants
    && id in db'.budget.allocations && db'.budget.allocations == db.budget.allocations[id := db'.budget.allocations[id]]
    && var a := db'.budget.allocations[id];
    && a.grant in db.budget.grants && db.budget.grants[a.grant].currency == a.currency
    && (if id in db.budget.allocations then
          a.units == db.budget.allocations[id].units + moved && a.grant == db.budget.allocations[id].grant &&
          a.currency == db.budget.allocations[id].currency
        else a.units == moved)
    && moved <= Balance(db, GrantUnallocated, a.grant, a.currency)
    && HeldAfterMove(db, db', a, id, moved)
  }

  ghost predicate HeldAfterMove(db: DB, db': DB, a: Allocation, id: Id, moved: int) {
    forall c: Account :: c.kind != GrantFundingSource ==>
      Held(db'.books.balances, c) == Held(db.books.balances, c)
        - (if c == Account(GrantUnallocated, a.grant, a.currency) then moved else 0)
        + (if c == Account(AllocationAvailable, id, a.currency) then moved else 0)
  }

  lemma MovedGrant(db: DB, db': DB, id: Id, moved: int, g: Id)
    requires UnitsMoved(db, db', id, moved) && g in db.budget.grants && GrantOk(db, g)
    requires id in db.budget.allocations ==> db.budget.allocations[id].grant == db'.budget.allocations[id].grant
    ensures GrantOk(db', g)
  {
    Updated(db.budget.allocations, PartOf(g), id, db'.budget.allocations[id]);
  }

  lemma MovedAllocation(db: DB, db': DB, id: Id, moved: int, x: Id)
    requires UnitsMoved(db, db', id, moved) && KnownHolders(db) && x in db'.budget.allocations
    requires x in db.budget.allocations ==> AllocationOk(db, x)
    requires x == id ==> StatusOk(db', x)
    ensures AllocationOk(db', x)
  {
    if x !in db.budget.allocations {
      var a := db'.budget.allocations[x];
      assert Held(db.books.balances, Account(AllocationAvailable, x, a.currency)) == 0;
      assert Held(db.books.balances, Account(AllocationSpent, x, a.currency)) == 0;
    }
  }

  /** Active exactly when something is available, exhausted exactly when nothing is. */
  predicate StatusOk(db: DB, id: Id)
    requires id in db.budget.allocations
  {
    var a := db.budget.allocations[id];
    var available := Balance(db, AllocationAvailable, id, a.currency);
    (a.status == Active ==> available > 0) && (a.status == Exhausted ==> available <= 0)
  }

  lemma MovedHolders(db: DB, db': DB, id: Id, moved: int)
    requires UnitsMoved(db, db', id, moved) && KnownHolders(db)
    ensures KnownHolders(db')
  {
    var a := db'.budget.allocations[id];
    forall c | Held(db'.books.balances, c) != 0
      ensures c.kind == GrantUnallocated ==> c.owner in db'.budget.grants && db'.budget.grants[c.owner].currency == c.currency
      ensures c.kind == AllocationAvailable || c.kind == AllocationSpent ==> Eligible(db'.budget.allocations, c)
    {
      if c != Account(GrantUnallocated, a.grant, a.currency) && c != Account(AllocationAvailable, id, a.currency) && c.kind != GrantFundingSource {
        assert Held(db.books.balances, c) != 0;
      }
    }
  }

  lemma MoveKeepsBudget(db: DB, db': DB, id: Id, moved: int)
    requires BudgetOk(db) && UnitsMoved(db, db', id, moved) && StatusOk(db', id)
    ensures BudgetOk(db')
  {
    forall g | g in db'.budget.grants ensures GrantOk(db', g) {
      MovedGrant(db, db', id, moved, g);
    }
    forall x | x in db'.budget.allocations ensures AllocationOk(db', x) {
      MovedAllocation(db, db', id, moved, x);
    }
    MovedHolders(db, db', id, moved);
  }

  predicate Allocatable(db: DB, grant: Id, requested: Requested, currency: Option<Currency>, status: Option<AllocationStatus>, window: Window) {
    && ValidWindow(window)
    && grant in db.budget.grants && db.budget.grants[grant].status != Closed
    && (currency.Some? ==> currency.value == db.budget.grants[grant].currency)
    && (requested.Units? ==> requested.units <= Balance(db, GrantUnallocated, grant, db.budget.grants[grant].currency))
    && status != Some(Exhausted) && status != Some(Revoked)
  }

  ghost predicate NoHoldings(db: DB, id: Id) {
    forall c: Account :: c.owner == id && (c.kind == AllocationAvailable || c.kind == AllocationSpent) ==> Held(db.books.balances, c) == 0
  }

  lemma CreateAllocationBooks(db: DB, id: Id, grant: Id, requested: Requested, currency: Option<Currency>,
                              status: Option<AllocationStatus>, window: Window)
    requires BooksOk(db.books) && SummaryOk(db) && NoHoldings(db, id) && id !in db.budget.allocations && CreateKey(id) !in db.books.postings
    requires grant in db.budget.grants ==> Balance(db, GrantUnallocated, grant, db.budget.grants[grant].currency) >= 0
    ensures var r := CreateAllocation(db, id, grant, requested, currency, status, window);
            && (r.Ok? <==> Allocatable(db, grant, requested, currency, status, window))
            && (r.Ok? ==> BooksOk(r.value.books) && SummaryOk(r.value))
  {
    hide BooksOk, SummaryOk, Transfer, ChangeInventory;
    if Allocatable(db, grant, requested, currency, status, window) {
      var cur := db.budget.grants[grant].currency;
      var n := AllocationAmount(requested, Balance(db, GrantUnallocated, grant, cur));
      var asked := if status.None? then Active else status.value;
      var initial := if asked == Active && n == 0 then Exhausted else asked;
      var row := Allocation(grant, n, cur, initial, window.starts, window.ends);
      AllocationWritten(db, id, row);
      var inserted := WithAllocation(db, id, row).(summary := ChangeInventory(db.summary, None, Allocations(cur, initial)).value);
      TransferKeepsBoth(inserted, CreateKey(id), GrantUnallocated, grant, AllocationAvailable, id, cur, n);
    }
  }

  lemma CreateAllocationBudget(db: DB, id: Id, grant: Id, requested: Requested, currency: Option<Currency>,
                               status: Option<AllocationStatus>, window: Window)
    requires BudgetOk(db) && CreateAllocation(db, id, grant, requested, currency, status, window).Ok?
    ensures BudgetOk(CreateAllocation(db, id, grant, requested, currency, status, window).value)
  {
    hide Transfer, ChangeInventory, GrantOk, AllocationOk;
    var cur := db.budget.grants[grant].currency;
    var n := AllocationAmount(requested, Balance(db, GrantUnallocated, grant, cur));
    var asked := if status.None? then Active else status.value;
    var initial := if asked == Active && n == 0 then Exhausted else asked;
    var row := Allocation(grant, n, cur, initial, window.starts, window.ends);
    var inserted := WithAllocation(db, id, row).(summary := ChangeInventory(db.summary, None, Allocations(cur, initial)).value);
    TransferEffect(inserted, CreateKey(id), GrantUnallocated, grant, AllocationAvailable, id, cur, n);
    var db' := CreateAllocation(db, id, grant, requested, currency, status, window).value;
    assert Held(db.books.balances, Account(AllocationAvailable, id, cur)) == 0;
    assert HeldAfterMove(db, db', row, id, n);
    MoveKeepsBudget(db, db', id, n);
  }

  predicate Fundable(db: DB, id: Id, requested: Requested, currency: Option<Currency>) {
    && id in db.budget.allocations
    && var a := db.budget.allocations[id];
    && (currency.Some? ==> currency.value == a.currency)
    && a.status != Revoked
    && a.grant in db.budget.grants && db.budget.grants[a.grant].status != Closed
    && var left := Balance(db, GrantUnallocated, a.grant, a.currency);
    && if requested.All? then left > 0 else 0 < requested.units <= left
  }

  lemma FundAllocationBooks(db: DB, id: Id, requested: Requested, currency: Option<Currency>, funding: Id)
    requires BooksOk(db.books) && SummaryOk(db) && FundKey(funding) !in db.books.postings
    requires id in db.budget.allocations ==>
               Balance(db, GrantUnallocated, db.budget.allocations[id].grant, db.budget.allocations[id].currency) >= 0
    ensures var r := FundAllocation(db, id, requested, currency, funding);
            && (r.Ok? <==> Fundable(db, id, requested, currency))
            && (r.Ok? ==> BooksOk(r.value.books) && SummaryOk(r.value))
  {
    hide BooksOk, SummaryOk, Transfer, ChangeInventory;
    if Fundable(db, id, requested, currency) {
      var a := db.budget.allocations[id];
      var n := AllocationAmount(requested, Balance(db, GrantUnallocated, a.grant, a.currency));
      TransferKeepsBoth(db, FundKey(funding), GrantUnallocated, a.grant, AllocationAvailable, id, a.currency, n);
      TransferEffect(db, FundKey(funding), GrantUnallocated, a.grant, AllocationAvailable, id, a.currency, n);
      var db1 := Transfer(db, FundKey(funding), GrantUnallocated, a.grant, AllocationAvailable, id, a.currency, n).value;
      var next := if a.status == Exhausted && Balance(db1, AllocationAvailable, id, a.currency) > 0 then Active else a.status;
      AllocationWritten(db1, id, a.(units := a.units + n, status := next));
    }
  }

  lemma FundAllocationMoves(db: DB, id: Id, requested: Requested, currency: Option<Currency>, funding: Id)
    requires FundAllocation(db, id, requested, currency, funding).Ok?
    requires id in db.budget.allocations ==> AllocationOk(db, id)
    ensures var db' := FundAllocation(db, id, requested, currency, funding).value;
            && id in db.budget.allocations && id in db'.budget.allocations
            && var n := db'.budget.allocations[id].units - db.budget.allocations[id].units;
            && UnitsMoved(db, db', id, n) && StatusOk(db', id)
  {
    hide Transfer, ChangeInventory, Total;
    var a := db.budget.allocations[id];
    var n := AllocationAmount(requested, Balance(db, GrantUnallocated, a.grant, a.currency));
    TransferEffect(db, FundKey(funding), GrantUnallocated, a.grant, AllocationAvailable, id, a.currency, n);
    var db' := FundAllocation(db, id, requested, currency, funding).value;
    assert HeldAfterMove(db, db', a, id, n);
  }

  lemma FundAllocationBudget(db: DB, id: Id, requested: Requested, currency: Option<Currency>, funding: Id)
    requires BudgetOk(db) && FundAllocation(db, id, requested, currency, funding).Ok?
    ensures BudgetOk(FundAllocation(db, id, requested, currency, funding).value)
  {
    FundAllocationMoves(db, id, requested, currency, funding);
    hide *;
    var db' := FundAllocation(db, id, requested, currency, funding).value;
    MoveKeepsBudget(db, db', id, db'.budget.allocations[id].units - db.budget.allocations[id].units);
  }

  predicate Settable(db: DB, id: Id, status: AllocationStatus) {
    && status != Exhausted && id in db.budget.allocations
    && (db.budget.allocations[id].status == Revoked ==> status == Revoked)
    && (status == Active ==> Balance(db, AllocationAvailable, id, db.budget.allocations[id].currency) > 0)
  }

  lemma SetAllocationStatusBooks(db: DB, id: Id, status: AllocationStatus)
    requires BooksOk(db.books) && SummaryOk(db) && RevokedOnce(db)
    ensures var r := SetAllocationStatus(db, id, status);
            && (r.Ok? <==> Settable(db, id, status))
            && (r.Ok? ==> BooksOk(r.value.books) && SummaryOk(r.value) && RevokedOnce(r.value))
  {
    hide BooksOk, SummaryOk, Transfer, ChangeInventory, Moved;
    if Settable(db, id, status) && db.budget.allocations[id].status != Revoked {
      var a := db.budget.allocations[id];
      var bal := Balance(db, AllocationAvailable, id, a.currency);
      var n := if status == Revoked && bal > 0 then bal else 0;
      assert RevokeKey(id) !in db.books.postings;
      TransferKeepsBoth(db, RevokeKey(id), AllocationAvailable, id, GrantUnallocated, a.grant, a.currency, n);
      TransferEffect(db, RevokeKey(id), AllocationAvailable, id, GrantUnallocated, a.grant, a.currency, n);
      var db1 := Transfer(db, RevokeKey(id), AllocationAvailable, id, GrantUnallocated, a.grant, a.currency, n).value;
      AllocationWritten(db1, id, a.(units := a.units - n, status := status));
    }
  }

  /** What revoking gives back. */
  function Returned(db: DB, id: Id, status: AllocationStatus): int
    requires id in db.budget.allocations
  {
    var bal := Balance(db, AllocationAvailable, id, db.budget.allocations[id].currency);
    if status == Revoked && bal > 0 then bal else 0
  }

  lemma SetAllocationStatusMoves(db: DB, id: Id, status: AllocationStatus)
    requires id in db.budget.allocations && db.budget.allocations[id].status != Revoked
    requires SetAllocationStatus(db, id, status).Ok? && AllocationOk(db, id)
    requires Balance(db, GrantUnallocated, db.budget.allocations[id].grant, db.budget.allocations[id].currency) >= 0
    ensures var db' := SetAllocationStatus(db, id, status).value;
            UnitsMoved(db, db', id, -Returned(db, id, status)) && StatusOk(db', id)
  {
    var a := db.budget.allocations[id];
    hide Transfer, ChangeInventory, Total;
    var n := Returned(db, id, status);
    TransferEffect(db, RevokeKey(id), AllocationAvailable, id, GrantUnallocated, a.grant, a.currency, n);
    var db' := SetAllocationStatus(db, id, status).value;
    assert HeldAfterMove(db, db', a, id, -n);
  }

  lemma SetAllocationStatusBudget(db: DB, id: Id, status: AllocationStatus)
    requires BudgetOk(db) && SetAllocationStatus(db, id, status).Ok?
    ensures BudgetOk(SetAllocationStatus(db, id, status).value)
  {
    hide Transfer, ChangeInventory, Total, KnownHolders;
    var a := db.budget.allocations[id];
    assert AllocationOk(db, id) && GrantOk(db, a.grant);
    if a.status != Revoked {
      SetAllocationStatusMoves(db, id, status);
      hide *;
      MoveKeepsBudget(db, SetAllocationStatus(db, id, status).value, id, -Returned(db, id, status));
    }
  }
}

/**
 * Management writes keep the whole invariant (internal/store/manage.go and
 * internal/store/idempotency.go), and succeed exactly when their arguments and the
 * state allow it.
 */
module ManagementKeeps {
  import opened Results
  import opened Blocks
  import opened Tables
  import opened Books
  import opened Summaries
  import opened Attribution
  import opened EscrowLedger
  import opened EscrowSteps
  import opened Management
  import opened IngestSteps
  import opened Invariant
  import opened Idempotent

  // ---- What a management write leaves alone ----

  predicate ManagementKey(k: Key) { k.CreateKey? || k.FundKey? || k.RevokeKey? }

  predicate ManagementKind(kind: Kind) { kind == GrantFundingSource || kind == GrantUnallocated || kind == AllocationAvailable }

  ghost predicate ManagementSide(db: DB, db': DB) {
    && db'.usage == db.usage && db'.escrow == db.escrow && SameBindings(db.budget, db'.budget)
    && (forall a: Account :: !ManagementKind(a.kind) ==> Held(db'.books.balances, a) == Held(db.books.balances, a))
    && (forall k :: k in db.books.postings ==> k in db'.books.postings && db'.books.postings[k] == db.books.postings[k])
    && (forall k :: k in db'.books.postings && k !in db.books.postings ==> ManagementKey(k))
  }

  lemma SideOfChain(db: DB, db': DB)
    requires ManagementSide(db, db')
    ensures ChainSide(db, db') && UsageSide(db, db')
  {
    hide Held, SameBindings;
  }

  lemma InvConjuncts(db: DB)
    requires Inv(db)
    ensures EscrowInv(db) && BudgetOk(db) && RevokedOnce(db) && UsageOk(db) && SessionsOk(db.budget)
    ensures BooksOk(db.books) && SummaryOk(db) && KnownHolders(db) && AttributionOk(db)
  {
    hide BooksOk, SummaryOk, SumsOk, LedgerOk, AgreeOk, AttributionOk, SnapshotKeysOk, GrantOk, AllocationOk, KnownHolders, RevokedOnce,
         SessionsOk, UsageOk;
  }

  lemma EscrowParts(db: DB)
    requires AccountsOk(db) && AgreeOk(db.escrow) && AttributionOk(db) && SnapshotKeysOk(db)
    ensures EscrowInv(db)
  {
    hide AccountsOk, AgreeOk, AttributionOk, SnapshotKeysOk;
  }

  lemma ManagementSideKeeps(db: DB, db': DB)
    requires Inv(db) && ManagementSide(db, db')
    requires BooksOk(db'.books) && SummaryOk(db') && BudgetOk(db') && RevokedOnce(db') && SessionsOk(db'.budget)
    ensures Inv(db')
  {
    InvConjuncts(db);
    SideOfChain(db, db');
    assert db'.usage == db.usage && db'.escrow == db.escrow;
    hide *;
    ChainSideKeeps(db, db');
    SameAttribution(db, db');
    EscrowParts(db');
    UsageSideKeeps(db, db');
    AllParts(db');
  }

  lemma AllParts(db: DB)
    requires EscrowInv(db) && BudgetOk(db) && RevokedOnce(db) && UsageOk(db) && SessionsOk(db.budget)
    ensures Inv(db)
  {
    hide EscrowInv, BudgetOk, RevokedOnce, UsageOk, SessionsOk;
  }

  lemma TransferSide(db: DB, key: Key, debit: Kind, debitOwner: Id, credit: Kind, creditOwner: Id, currency: Currency, n: int)
    requires ManagementKey(key) && ManagementKind(debit) && ManagementKind(credit)
    requires Transfer(db, key, debit, debitOwner, credit, creditOwner, currency, n).Ok?
    ensures var db' := Transfer(db, key, debit, debitOwner, credit, creditOwner, currency, n).value;
            ManagementSide(db, db') && db'.budget == db.budget &&
            forall k :: k in db'.books.postings ==> k == key || k in db.books.postings
  {
    hide Transfer, Held;
    TransferEffect(db, key, debit, debitOwner, credit, creditOwner, currency, n);
  }

  lemma SideTwice(db0: DB, db1: DB, db2: DB)
    requires ManagementSide(db0, db1) && ManagementSide(db1, db2)
    ensures ManagementSide(db0, db2)
  {
    hide Held;
  }

  /** Only rows changed, and no binding of them. */
  lemma RowSide(db: DB, db': DB)
    requires db'.books == db.books && db'.usage == db.usage && db'.escrow == db.escrow && SameBindings(db.budget, db'.budget)
    ensures ManagementSide(db, db')
  {
    hide SameBindings;
  }

  lemma AllocationRowBound(b: Budget, b': Budget, id: Id)
    requires id in b'.allocations && b' == b.(allocations := b.allocations[id := b'.allocations[id]])
    requires id in b.allocations ==> b'.allocations[id].grant == b.allocations[id].grant && b'.allocations[id].currency == b.allocations[id].currency
    ensures SameBindings(b, b')
  {
  }

  /** Revoked allocations stay revoked, and no other revocation was posted. */
  lemma RevokedSide(db: DB, db': DB)
    requires RevokedOnce(db)
    requires forall id :: RevokeKey(id) in db'.books.postings ==> RevokeKey(id) in db.books.postings
    requires forall id :: id in db.budget.allocations && db.budget.allocations[id].status == Revoked ==>
               id in db'.budget.allocations && db'.budget.allocations[id].status == Revoked
    ensures RevokedOnce(db')
  {
  }

  lemma SessionsSide(b: Budget, b': Budget)
    requires SessionsOk(b) && b'.apiKeys == b.apiKeys && b'.sessions == b.sessions && b.allocations.Keys <= b'.allocations.Keys
    ensures SessionsOk(b')
  {
  }

  lemma UnknownHoldsNothing(db: DB, id: Id)
    requires BudgetOk(db) && id !in db.budget.allocations
    ensures NoHoldings(db, id)
  {
  }

  lemma FundedGrant(db: DB, grant: Id)
    requires BudgetOk(db) && grant in db.budget.grants
    ensures Balance(db, GrantUnallocated, grant, db.budget.grants[grant].currency) >= 0
  {
    assert GrantOk(db, grant);
  }

  // ---- Grants ----

  predicate FreshGrant(db: DB, id: Id) {
    id !in db.budget.grants && CreateKey(id) !in db.books.postings
  }

  lemma CreateGrantInv(db: DB, id: Id, amount: nat, currency: Option<Currency>, status: Option<GrantStatus>, window: Window)
    requires Inv(db) && FreshGrant(db, id)
    ensures var r := CreateGrant(db, id, amount, currency, status, window);
            (r.Ok? <==> GrantCreatable(status, window)) && (r.Ok? ==> Inv(r.value) && ManagementSide(db, r.value))
  {
    hide Inv, BudgetOk, SessionsOk, RevokedOnce, BooksOk, SummaryOk, EscrowInv, UsageOk;
    InvConjuncts(db);
    CreateGrantBooks(db, id, amount, currency, status, window);
    if GrantCreatable(status, window) {
      CreateGrantBudget(db, id, amount, currency, status, window);
      hide BooksOk, SummaryOk;
      CreateGrantSide(db, id, amount, currency, status, window);
      var db' := CreateGrant(db, id, amount, currency, status, window).value;
      RevokedSide(db, db');
      SessionsSide(db.budget, db'.budget);
      ManagementSideKeeps(db, db');
    }
  }

  lemma CreateGrantSide(db: DB, id: Id, amount: nat, currency: Option<Currency>, status: Option<GrantStatus>, window: Window)
    requires id !in db.budget.grants && CreateGrant(db, id, amount, currency, status, window).Ok?
    ensures var db' := CreateGrant(db, id, amount, currency, status, window).value;
            && ManagementSide(db, db') && db'.budget.allocations == db.budget.allocations
            && db'.budget.apiKeys == db.budget.apiKeys && db'.budget.sessions == db.budget.sessions && db'.budget.replies == db.budget.replies
            && forall a :: RevokeKey(a) in db'.books.postings ==> RevokeKey(a) in db.books.postings
  {
    hide Transfer, ChangeInventory, ManagementSide;
    var cur := if currency.None? then Usd else currency.value;
    var initial := if status.None? then Draft else status.value;
    var g := Grant(amount, cur, initial, window.starts, window.ends);
    var inserted := WithGrant(db, id, g).(summary := ChangeInventory(db.summary, None, Grants(cur, initial)).value);
    RowSide(db, inserted);
    TransferSide(inserted, CreateKey(id), GrantFundingSource, id, GrantUnallocated, id, cur, amount);
    SideTwice(db, inserted, CreateGrant(db, id, amount, currency, status, window).value);
  }

  lemma FundGrantInv(db: DB, id: Id, requested: Requested, currency: Option<Currency>, funding: Id)
    requires Inv(db) && FundKey(funding) !in db.books.postings
    ensures var r := FundGrant(db, id, requested, currency, funding);
            (r.Ok? <==> GrantFundable(db, id, requested, currency)) && (r.Ok? ==> Inv(r.value) && ManagementSide(db, r.value))
  {
    hide Inv, BudgetOk, SessionsOk, RevokedOnce, BooksOk, SummaryOk, EscrowInv, UsageOk;
    InvConjuncts(db);
    FundGrantBooks(db, id, requested, currency, funding);
    if GrantFundable(db, id, requested, currency) {
      FundGrantBudget(db, id, requested, currency, funding);
      FundGrantSide(db, id, requested, currency, funding);
      var db' := FundGrant(db, id, requested, currency, funding).value;
      RevokedSide(db, db');
      SessionsSide(db.budget, db'.budget);
      ManagementSideKeeps(db, db');
    }
  }

  lemma FundGrantSide(db: DB, id: Id, requested: Requested, currency: Option<Currency>, funding: Id)
    requires FundGrant(db, id, requested, currency, funding).Ok?
    ensures var db' := FundGrant(db, id, requested, currency, funding).value;
            && ManagementSide(db, db') && db'.budget.allocations == db.budget.allocations
            && db'.budget.apiKeys == db.budget.apiKeys && db'.budget.sessions == db.budget.sessions && db'.budget.replies == db.budget.replies
            && forall a :: RevokeKey(a) in db'.books.postings ==> RevokeKey(a) in db.books.postings
  {
    hide Transfer, ManagementSide;
    var g := db.budget.grants[id];
    var db1 := WithGrant(db, id, g.(total := g.total + requested.units));
    RowSide(db, db1);
    TransferSide(db1, FundKey(funding), GrantFundingSource, id, GrantUnallocated, id, g.currency, requested.units);
    SideTwice(db, db1, FundGrant(db, id, requested, currency, funding).value);
  }

  predicate GrantSettable(db: DB, id: Id, status: GrantStatus) {
    id in db.budget.grants && (db.budget.grants[id].status == Closed ==> status == Closed)
  }

  lemma SetGrantStatusInv(db: DB, id: Id, status: GrantStatus)
    requires Inv(db)
    ensures var r := SetGrantStatus(db, id, status);
            (r.Ok? <==> GrantSettable(db, id, status)) && (r.Ok? ==> Inv(r.value) && ManagementSide(db, r.value))
  {
    hide BudgetOk, SessionsOk, RevokedOnce, BooksOk, SummaryOk, EscrowInv, UsageOk, ChangeInventory;
    InvConjuncts(db);
    SetGrantStatusKeeps(db, id, status);
    if GrantSettable(db, id, status) {
      var db' := SetGrantStatus(db, id, status).value;
      RowSide(db, db');
      RevokedSide(db, db');
      SessionsSide(db.budget, db'.budget);
      hide ManagementSide;
      ManagementSideKeeps(db, db');
    }
  }

  // ---- Allocations ----

  predicate FreshAllocation(db: DB, id: Id) {
    id !in db.budget.allocations && CreateKey(id) !in db.books.postings
  }

  lemma CreateAllocationInv(db: DB, id: Id, grant: Id, requested: Requested, currency: Option<Currency>,
                            status: Option<AllocationStatus>, window: Window)
    requires Inv(db) && FreshAllocation(db, id)
    ensures var r := CreateAllocation(db, id, grant, requested, currency, status, window);
            && (r.Ok? <==> Allocatable(db, grant, requested, currency, status, window))
            && (r.Ok? ==> Inv(r.value) && ManagementSide(db, r.value))
            && (r.Ok? ==> id in r.value.budget.allocations && r.value.budget.allocations[id].status != Revoked &&
                          r.value.budget.apiKeys == db.budget.apiKeys)
  {
    hide Inv, BudgetOk, SessionsOk, RevokedOnce, BooksOk, SummaryOk, EscrowInv, UsageOk;
    InvConjuncts(db);
    UnknownHoldsNothing(db, id);
    if grant in db.budget.grants { FundedGrant(db, grant); }
    CreateAllocationBooks(db, id, grant, requested, currency, status, window);
    if Allocatable(db, grant, requested, currency, status, window) {
      CreateAllocationBudget(db, id, grant, requested, currency, status, window);
      CreateAllocationSide(db, id, grant, requested, currency, status, window);
      var db' := CreateAllocation(db, id, grant, requested, currency, status, window).value;
      RevokedSide(db, db');
      SessionsSide(db.budget, db'.budget);
      ManagementSideKeeps(db, db');
    }
  }

  lemma CreateAllocationSide(db: DB, id: Id, grant: Id, requested: Requested, currency: Option<Currency>,
                             status: Option<AllocationStatus>, window: Window)
    requires id !in db.budget.allocations && CreateAllocation(db, id, grant, requested, currency, status, window).Ok?
    ensures var db' := CreateAllocation(db, id, grant, requested, currency, status, window).value;
            && ManagementSide(db, db')
            && id in db'.budget.allocations && db'.budget.allocations == db.budget.allocations[id := db'.budget.allocations[id]]
            && db'.budget.allocations[id].status != Revoked
            && db'.budget.apiKeys == db.budget.apiKeys && db'.budget.sessions == db.budget.sessions && db'.budget.replies == db.budget.replies
            && forall a :: RevokeKey(a) in db'.books.postings ==> RevokeKey(a) in db.books.postings
  {
    hide Transfer, ChangeInventory, ManagementSide, Held, SameBindings;
    var cur := db.budget.grants[grant].currency;
    var n := AllocationAmount(requested, Balance(db, GrantUnallocated, grant, cur));
    var asked := if status.None? then Active else status.value;
    var initial := if asked == Active && n == 0 then Exhausted else asked;
    var row := Allocation(grant, n, cur, initial, window.starts, window.ends);
    var inserted := WithAllocation(db, id, row).(summary := ChangeInventory(db.summary, None, Allocations(cur, initial)).value);
    AllocationRowBound(db.budget, inserted.budget, id);
    RowSide(db, inserted);
    TransferSide(inserted, CreateKey(id), GrantUnallocated, grant, AllocationAvailable, id, cur, n);
    SideTwice(db, inserted, CreateAllocation(db, id, grant, requested, currency, status, window).value);
  }

  lemma FundAllocationInv(db: DB, id: Id, requested: Requested, currency: Option<Currency>, funding: Id)
    requires Inv(db) && FundKey(funding) !in db.books.postings
    ensures var r := FundAllocation(db, id, requested, currency, funding);
            (r.Ok? <==> Fundable(db, id, requested, currency)) && (r.Ok? ==> Inv(r.value) && ManagementSide(db, r.value))
  {
    hide Inv, SessionsOk, RevokedOnce, BooksOk, SummaryOk, EscrowInv, UsageOk, GrantOk, AllocationOk, KnownHolders;
    InvConjuncts(db);
    if id in db.budget.allocations { AllocationSolvent(db, id); }
    hide BudgetOk;
    FundAllocationBooks(db, id, requested, currency, funding);
    if Fundable(db, id, requested, currency) {
      FundAllocationBudget(db, id, requested, currency, funding);
      FundAllocationSide(db, id, requested, currency, funding);
      var db' := FundAllocation(db, id, requested, currency, funding).value;
      RevokedSide(db, db');
      SessionsSide(db.budget, db'.budget);
      ManagementSideKeeps(db, db');
    }
  }

  lemma AllocationSolvent(db: DB, id: Id)
    requires BudgetOk(db) && id in db.budget.allocations
    ensures Balance(db, GrantUnallocated, db.budget.allocations[id].grant, db.budget.allocations[id].currency) >= 0
  {
    assert AllocationOk(db, id);
    assert GrantOk(db, db.budget.allocations[id].grant);
  }

  lemma FundAllocationSide(db: DB, id: Id, requested: Requested, currency: Option<Currency>, funding: Id)
    requires FundAllocation(db, id, requested, currency, funding).Ok?
    ensures var db' := FundAllocation(db, id, requested, currency, funding).value;
            && ManagementSide(db, db') && id in db.budget.allocations && db.budget.allocations[id].status != Revoked
            && id in db'.budget.allocations && db'.budget.allocations == db.budget.allocations[id := db'.budget.allocations[id]]
            && db'.budget.apiKeys == db.budget.apiKeys && db'.budget.sessions == db.budget.sessions && db'.budget.replies == db.budget.replies
            && forall a :: RevokeKey(a) in db'.books.postings ==> RevokeKey(a) in db.books.postings
  {
    hide Transfer, ChangeInventory, ManagementSide, Held, SameBindings;
    var a := db.budget.allocations[id];
    var n := AllocationAmount(requested, Balance(db, GrantUnallocated, a.grant, a.currency));
    TransferSide(db, FundKey(funding), GrantUnallocated, a.grant, AllocationAvailable, id, a.currency, n);
    var db1 := Transfer(db, FundKey(funding), GrantUnallocated, a.grant, AllocationAvailable, id, a.currency, n).value;
    var db' := FundAllocation(db, id, requested, currency, funding).value;
    AllocationRowBound(db1.budget, db'.budget, id);
    RowSide(db1, db');
    SideTwice(db, db1, db');
  }

  lemma SetAllocationStatusInv(db: DB, id: Id, status: AllocationStatus)
    requires Inv(db)
    ensures var r := SetAllocationStatus(db, id, status);
            (r.Ok? <==> Settable(db, id, status)) && (r.Ok? ==> Inv(r.value) && ManagementSide(db, r.value))
  {
    hide Inv, BudgetOk, SessionsOk, RevokedOnce, BooksOk, SummaryOk, EscrowInv, UsageOk;
    InvConjuncts(db);
    SetAllocationStatusBooks(db, id, status);
    if Settable(db, id, status) {
      SetAllocationStatusBudget(db, id, status);
      SetAllocationStatusSide(db, id, status);
      var db' := SetAllocationStatus(db, id, status).value;
      SessionsSide(db.budget, db'.budget);
      ManagementSideKeeps(db, db');
    }
  }

  lemma SetAllocationStatusSide(db: DB, id: Id, status: AllocationStatus)
    requires SetAllocationStatus(db, id, status).Ok?
    ensures var db' := SetAllocationStatus(db, id, status).value;
            && ManagementSide(db, db')
            && id in db'.budget.allocations && db'.budget.allocations == db.budget.allocations[id := db'.budget.allocations[id]]
            && db'.budget.apiKeys == db.budget.apiKeys && db'.budget.sessions == db.budget.sessions && db'.budget.replies == db.budget.replies
  {
    hide Transfer, ChangeInventory, ManagementSide, Held, SameBindings;
    var a := db.budget.allocations[id];
    var db' := SetAllocationStatus(db, id, status).value;
    if a.status == Revoked {
      ReplayInv(db);
      assert db.budget.allocations[id := a] == db.budget.allocations;
    } else {
      var n := Returned(db, id, status);
      TransferSide(db, RevokeKey(id), AllocationAvailable, id, GrantUnallocated, a.grant, a.currency, n);
      var db1 := Transfer(db, RevokeKey(id), AllocationAvailable, id, GrantUnallocated, a.grant, a.currency, n).value;
      AllocationRowBound(db1.budget, db'.budget, id);
      RowSide(db1, db');
      SideTwice(db, db1, db');
    }
  }

  // ---- Keys and sessions ----

  /** Rows of the budget that no balance or summary reads. */
  predicate AccessOnly(db: DB, db': DB) {
    && db' == db.(budget := db.budget.(apiKeys := db'.budget.apiKeys, sessions := db'.budget.sessions, replies := db'.budget.replies))
    && SameBindings(db.budget, db'.budget)
  }

  lemma AccessInv(db: DB, db': DB)
    requires Inv(db) && AccessOnly(db, db') && SessionsOk(db'.budget)
    ensures Inv(db') && ManagementSide(db, db')
  {
    InvConjuncts(db);
    hide Inv, BooksOk, SummaryOk, BudgetOk, RevokedOnce, SessionsOk, EscrowInv, UsageOk, KnownHolders, AttributionOk, SameBindings;
    BudgetSideKeeps(db, db');
    SummaryFrame(db, db');
    RowSide(db, db');
    RevokedSame(db, db');
    hide ManagementSide;
    ManagementSideKeeps(db, db');
  }

  lemma RevokedSame(db: DB, db': DB)
    requires RevokedOnce(db) && db'.books == db.books && db'.budget.allocations == db.budget.allocations
    ensures RevokedOnce(db')
  {
  }

  predicate KeyCreatable(db: DB, allocation: Id) {
    allocation in db.budget.allocations && db.budget.allocations[allocation].status != Revoked
  }

  lemma KeyAdded(b: Budget, b': Budget, id: Id, k: ApiKey)
    requires SessionsOk(b) && id !in b.apiKeys && k.allocation in b.allocations && b' == b.(apiKeys := b.apiKeys[id := k])
    ensures SessionsOk(b') && SameBindings(b, b')
  {
  }

  lemma CreateKeyInv(db: DB, id: Id, allocation: Id, secretHash: Id)
    requires Inv(db) && id !in db.budget.apiKeys
    ensures var r := IssueKey(db, id, allocation, secretHash);
            (r.Ok? <==> KeyCreatable(db, allocation)) && (r.Ok? ==> Inv(r.value) && ManagementSide(db, r.value))
  {
    InvConjuncts(db);
    hide Inv, BooksOk, SummaryOk, BudgetOk, RevokedOnce, SessionsOk, EscrowInv, UsageOk, KnownHolders, AttributionOk, ManagementSide, SameBindings;
    if KeyCreatable(db, allocation) {
      var db' := IssueKey(db, id, allocation, secretHash).value;
      KeyAdded(db.budget, db'.budget, id, ApiKey(allocation, secretHash, false));
      AccessInv(db, db');
    }
  }

  lemma KeyRevoked(b: Budget, b': Budget, id: Id)
    requires SessionsOk(b) && id in b.apiKeys && b' == b.(apiKeys := b.apiKeys[id := b.apiKeys[id].(revoked := true)])
    ensures SessionsOk(b') && SameBindings(b, b')
  {
  }

  lemma RevokeKeyInv(db: DB, id: Id)
    requires Inv(db)
    ensures var r := RevokeApiKey(db, id);
            (r.Ok? <==> id in db.budget.apiKeys) && (r.Ok? ==> Inv(r.value) && ManagementSide(db, r.value))
  {
    InvConjuncts(db);
    hide Inv, BooksOk, SummaryOk, BudgetOk, RevokedOnce, SessionsOk, EscrowInv, UsageOk, KnownHolders, AttributionOk, ManagementSide, SameBindings;
    if id in db.budget.apiKeys {
      var db' := RevokeApiKey(db, id).value;
      KeyRevoked(db.budget, db'.budget, id);
      AccessInv(db, db');
    }
  }

  lemma SessionRevoked(b: Budget, b': Budget, id: Id)
    requires SessionsOk(b) && id in b.sessions && b' == b.(sessions := b.sessions[id := b.sessions[id].(active := false)])
    ensures SessionsOk(b') && SameBindings(b, b')
  {
  }

  lemma RevokeSessionInv(db: DB, id: Id)
    requires Inv(db)
    ensures var r := RevokeSession(db, id);
            (r.Ok? <==> id in db.budget.sessions) && (r.Ok? ==> Inv(r.value) && ManagementSide(db, r.value))
  {
    InvConjuncts(db);
    hide Inv, BooksOk, SummaryOk, BudgetOk, RevokedOnce, SessionsOk, EscrowInv, UsageOk, KnownHolders, AttributionOk, ManagementSide, SameBindings;
    if id in db.budget.sessions {
      var db' := RevokeSession(db, id).value;
      SessionRevoked(db.budget, db'.budget, id);
      AccessInv(db, db');
    }
  }

  // ---- Idempotent writes ----

  /** The generated ids of a mutation are new. */
  predicate FreshMutation(db: DB, m: Mutation) {
    match m
    case AddAllocation(id, _, _, _, _, _) => FreshAllocation(db, id)
    case FundGrantBy(_, _, _, funding) => FundKey(funding) !in db.books.postings
    case FundAllocationBy(_, _, _, funding) => FundKey(funding) !in db.books.postings
    case AddKey(id, _, _) => id !in db.budget.apiKeys
    case AddKeyForGrant(allocation, id, _, _, _, _) => FreshAllocation(db, allocation) && id !in db.budget.apiKeys
  }

  lemma CreateKeyForGrantInv(db: DB, allocation: Id, id: Id, grant: Id, requested: Requested, currency: Option<Currency>, secretHash: Id)
    requires Inv(db) && FreshAllocation(db, allocation) && id !in db.budget.apiKeys
    ensures var r := CreateKeyForGrant(db, allocation, id, grant, requested, currency, secretHash);
            && (r.Ok? <==> Allocatable(db, grant, requested, currency, None, Window(None, None)))
            && (r.Ok? ==> Inv(r.value) && ManagementSide(db, r.value))
  {
    hide Inv, CreateAllocation, IssueKey, ManagementSide, Allocatable;
    CreateAllocationInv(db, allocation, grant, requested, currency, None, Window(None, None));
    if Allocatable(db, grant, requested, currency, None, Window(None, None)) {
      var db1 := CreateAllocation(db, allocation, grant, requested, currency, None, Window(None, None)).value;
      CreateKeyInv(db1, id, allocation, secretHash);
      SideTwice(db, db1, IssueKey(db1, id, allocation, secretHash).value);
    }
  }

  lemma MutateInv(db: DB, m: Mutation)
    requires Inv(db) && FreshMutation(db, m)
    ensures Mutate(db, m).Ok? ==> Inv(Mutate(db, m).value) && ManagementSide(db, Mutate(db, m).value)
  {
    hide Inv, ManagementSide, CreateAllocation, FundGrant, FundAllocation, IssueKey, CreateKeyForGrant;
    match m
    case AddAllocation(id, grant, requested, currency, status, window) => CreateAllocationInv(db, id, grant, requested, currency, status, window);
    case FundGrantBy(grant, requested, currency, funding) => FundGrantInv(db, grant, requested, currency, funding);
    case FundAllocationBy(allocation, requested, currency, funding) => FundAllocationInv(db, allocation, requested, currency, funding);
    case AddKey(id, allocation, secretHash) => CreateKeyInv(db, id, allocation, secretHash);
    case AddKeyForGrant(allocation, id, grant, requested, currency, secretHash) =>
      CreateKeyForGrantInv(db, allocation, id, grant, requested, currency, secretHash);
  }

  lemma MutateKeepsReplies(db: DB, m: Mutation)
    requires Mutate(db, m).Ok? && FreshMutation(db, m)
    ensures Mutate(db, m).value.budget.replies == db.budget.replies
  {
    hide CreateAllocation, FundGrant, FundAllocation, ManagementSide;
    match m
    case AddAllocation(id, grant, requested, currency, status, window) => CreateAllocationSide(db, id, grant, requested, currency, status, window);
    case FundGrantBy(grant, requested, currency, funding) => FundGrantSide(db, grant, requested, currency, funding);
    case FundAllocationBy(allocation, requested, currency, funding) => FundAllocationSide(db, allocation, requested, currency, funding);
    case AddKey(_, _, _) =>
    case AddKeyForGrant(allocation, id, grant, requested, currency, secretHash) =>
      CreateAllocationSide(db, allocation, grant, requested, currency, None, Window(None, None));
  }

  lemma WriteIdempotentInv(db: DB, key: string, fingerprint: Id, m: Mutation)
    requires Inv(db) && FreshMutation(db, m)
    ensures var r := WriteIdempotent(db, key, fingerprint, m);
            r.Ok? ==> Inv(r.value.0) && ManagementSide(db, r.value.0)
  {
    hide Inv, ManagementSide, Mutate, GrantOf, ValidKey;
    MutateInv(db, m);
    ReplayInv(db);
    if Mutate(db, m).Ok? {
      var db1 := Mutate(db, m).value;
      var grant := GrantOf(db.budget, ScopeOf(m));
      if grant.Some? {
        var reply := Reply(fingerprint, ResponseTo(m));
        if (grant.value, key) !in db.budget.replies {
          MutateKeepsReplies(db, m);
          StoredInv(db1, grant.value, key, reply);
          SideTwice(db, db1, WithReply(db1, grant.value, key, reply));
        }
      }
    }
  }

  lemma ReplayInv(db: DB)
    ensures ManagementSide(db, db)
  {
  }

  lemma ReplyKeepsRows(b: Budget, b': Budget)
    requires b'.sessions == b.sessions && b'.allocations == b.allocations
    requires forall k :: k in b.replies ==> k in b'.replies && b'.replies[k] == b.replies[k]
    ensures SameBindings(b, b')
  {
  }

  lemma StoredInv(db: DB, grant: Id, key: string, r: Reply)
    requires Inv(db) && (grant, key) !in db.budget.replies
    ensures Inv(WithReply(db, grant, key, r)) && ManagementSide(db, WithReply(db, grant, key, r))
  {
    InvConjuncts(db);
    hide Inv, BooksOk, SummaryOk, BudgetOk, RevokedOnce, SessionsOk, EscrowInv, UsageOk, KnownHolders, AttributionOk, ManagementSide, SameBindings;
    SessionsSide(db.budget, WithReply(db, grant, key, r).budget);
    ReplyKeepsRows(db.budget, WithReply(db, grant, key, r).budget);
    AccessInv(db, WithReply(db, grant, key, r));
  }
}

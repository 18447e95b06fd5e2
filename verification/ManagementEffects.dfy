/**
 * What the management writes leave (internal/store/manage.go): the row and the balances
 * of each, told in the caller's amounts, and when each is accepted.
 */
module ManagementEffects {
  import opened Results
  import opened Blocks
  import opened Tables
  import opened Books
  import opened Management
  import opened Idempotent
  import opened Invariant
  import opened ManagementKeeps

  /** n units went from one account to another, posted once under this key, and nothing else moved. */
  ghost predicate Paid(db: DB, db': DB, key: Key, from: Account, to: Account, n: int) {
    && (forall a :: Held(db'.books.balances, a) == Held(db.books.balances, a) - (if a == from then n else 0) + (if a == to then n else 0))
    && (n == 0 ==> db'.books.postings == db.books.postings)
    && (n != 0 ==> key !in db.books.postings && db'.books.postings == db.books.postings[key := Posting(from, to, n)])
  }

  // ---- Grants ----

  /** A grant starts with its whole amount unallocated; usd and draft are the defaults. */
  lemma CreatedGrant(db: DB, id: Id, amount: nat, currency: Option<Currency>, status: Option<GrantStatus>, window: Window)
    requires CreateGrant(db, id, amount, currency, status, window).Ok?
    ensures var db' := CreateGrant(db, id, amount, currency, status, window).value;
            && id !in db.budget.grants && id in db'.budget.grants
            && var g := db'.budget.grants[id];
            && db'.budget == db.budget.(grants := db.budget.grants[id := g])
            && g.total == amount && g.starts == window.starts && g.ends == window.ends
            && (currency.Some? ==> currency == Some(g.currency)) && (currency.None? ==> g.currency == Usd)
            && (status.Some? ==> status == Some(g.status)) && (status.None? ==> g.status == Draft)
            && Paid(db, db', CreateKey(id), Account(GrantFundingSource, id, g.currency), Account(GrantUnallocated, id, g.currency), amount)
  {
    hide Transfer, ChangeInventory, Held;
    var cur := if currency.None? then Usd else currency.value;
    var initial := if status.None? then Draft else status.value;
    var g := Grant(amount, cur, initial, window.starts, window.ends);
    var inserted := WithGrant(db, id, g).(summary := ChangeInventory(db.summary, None, Grants(cur, initial)).value);
    TransferEffect(inserted, CreateKey(id), GrantFundingSource, id, GrantUnallocated, id, cur, amount);
  }

  lemma GrantAccepted(db: DB, id: Id, amount: nat, currency: Option<Currency>, status: Option<GrantStatus>, window: Window)
    requires Inv(db) && FreshGrant(db, id)
    ensures CreateGrant(db, id, amount, currency, status, window).Ok? <==>
            (window.starts.Some? && window.ends.Some? ==> window.starts.value < window.ends.value) && status != Some(Closed)
  {
    CreateGrantInv(db, id, amount, currency, status, window);
    hide Inv, CreateGrant;
  }

  /** A grant's total and its unallocated balance rose by as much. */
  ghost predicate GrantRaised(db: DB, db': DB, id: Id, n: int, funding: Id) {
    && id in db.budget.grants
    && var g := db.budget.grants[id];
    && db'.budget == db.budget.(grants := db.budget.grants[id := g.(total := g.total + n)])
    && Paid(db, db', FundKey(funding), Account(GrantFundingSource, id, g.currency), Account(GrantUnallocated, id, g.currency), n)
  }

  /** Funding a grant needs a positive amount, an open grant and its currency, and adds exactly the amount. */
  lemma FundedGrantGrows(db: DB, id: Id, requested: Requested, currency: Option<Currency>, funding: Id)
    requires Inv(db) && FundKey(funding) !in db.books.postings
    ensures var r := FundGrant(db, id, requested, currency, funding);
            && (r.Ok? <==> requested.Units? && requested.units > 0 && id in db.budget.grants && db.budget.grants[id].status != Closed &&
                           (currency == None || currency == Some(db.budget.grants[id].currency)))
            && (r.Ok? ==> GrantRaised(db, r.value, id, requested.units, funding))
  {
    FundGrantInv(db, id, requested, currency, funding);
    if FundGrant(db, id, requested, currency, funding).Ok? { FundedGrantLeaves(db, id, requested, currency, funding); }
    hide Inv, FundGrant, ManagementSide, GrantRaised;
  }

  lemma FundedGrantLeaves(db: DB, id: Id, requested: Requested, currency: Option<Currency>, funding: Id)
    requires FundGrant(db, id, requested, currency, funding).Ok?
    ensures requested.Units? && GrantRaised(db, FundGrant(db, id, requested, currency, funding).value, id, requested.units, funding)
  {
    hide Transfer, Held;
    var g := db.budget.grants[id];
    TransferEffect(WithGrant(db, id, g.(total := g.total + requested.units)), FundKey(funding), GrantFundingSource, id, GrantUnallocated, id,
                   g.currency, requested.units);
  }

  /** A status change writes the status, and a closed grant stays closed. */
  lemma GrantStatusSet(db: DB, id: Id, status: GrantStatus)
    requires Inv(db)
    ensures var r := SetGrantStatus(db, id, status);
            && (r.Ok? <==> id in db.budget.grants && (db.budget.grants[id].status == Closed ==> status == Closed))
            && (r.Ok? ==>
                  && r.value.budget == db.budget.(grants := db.budget.grants[id := db.budget.grants[id].(status := status)])
                  && r.value.books == db.books && r.value.usage == db.usage && r.value.escrow == db.escrow)
  {
    SetGrantStatusInv(db, id, status);
    hide Inv, ChangeInventory, ManagementSide;
  }

  // ---- Allocations ----

  /** How much an amount asks of what is left: all of it, or so many units. */
  predicate AsksFor(requested: Requested, left: int, n: int) {
    match requested
    case All => n == left
    case Units(units) => n == units
  }

  /**
   * An allocation gets the units asked for out of what its grant has left; it starts
   * active unless it is asked to be paused, and exhausted if it is active with nothing.
   */
  ghost predicate AllocationMade(db: DB, db': DB, id: Id, grant: Id, requested: Requested, status: Option<AllocationStatus>, window: Window) {
    && grant in db.budget.grants && id !in db.budget.allocations && id in db'.budget.allocations
    && var a := db'.budget.allocations[id];
    && db'.budget == db.budget.(allocations := db.budget.allocations[id := a])
    && a.grant == grant && a.currency == db.budget.grants[grant].currency && a.starts == window.starts && a.ends == window.ends
    && AsksFor(requested, Balance(db, GrantUnallocated, grant, a.currency), a.units)
    && (status == Some(Paused) ==> a.status == Paused)
    && (status == None || status == Some(Active) ==> a.status == if a.units == 0 then Exhausted else Active)
    && Paid(db, db', CreateKey(id), Account(GrantUnallocated, grant, a.currency), Account(AllocationAvailable, id, a.currency), a.units)
  }

  lemma CreatedAllocation(db: DB, id: Id, grant: Id, requested: Requested, currency: Option<Currency>,
                          status: Option<AllocationStatus>, window: Window)
    requires CreateAllocation(db, id, grant, requested, currency, status, window).Ok?
    ensures AllocationMade(db, CreateAllocation(db, id, grant, requested, currency, status, window).value, id, grant, requested, status, window)
  {
    var inserted, a := AllocationRow(db, id, grant, requested, currency, status, window);
    TransferEffect(inserted, CreateKey(id), GrantUnallocated, grant, AllocationAvailable, id, a.currency, a.units);
    hide CreateAllocation, Transfer, Held;
  }

  /** The row before its posting. */
  lemma AllocationRow(db: DB, id: Id, grant: Id, requested: Requested, currency: Option<Currency>,
                      status: Option<AllocationStatus>, window: Window) returns (inserted: DB, a: Allocation)
    requires CreateAllocation(db, id, grant, requested, currency, status, window).Ok?
    ensures grant in db.budget.grants && id !in db.budget.allocations
    ensures inserted.books == db.books && inserted.budget == db.budget.(allocations := db.budget.allocations[id := a])
    ensures CreateAllocation(db, id, grant, requested, currency, status, window) ==
            Transfer(inserted, CreateKey(id), GrantUnallocated, grant, AllocationAvailable, id, a.currency, a.units)
    ensures a.grant == grant && a.currency == db.budget.grants[grant].currency && a.starts == window.starts && a.ends == window.ends
    ensures AsksFor(requested, Balance(db, GrantUnallocated, grant, a.currency), a.units)
    ensures status == Some(Paused) ==> a.status == Paused
    ensures status == None || status == Some(Active) ==> a.status == if a.units == 0 then Exhausted else Active
  {
    hide Transfer, ChangeInventory, Held;
    var cur := db.budget.grants[grant].currency;
    var n := AllocationAmount(requested, Balance(db, GrantUnallocated, grant, cur));
    var asked := if status.None? then Active else status.value;
    var initial := if asked == Active && n == 0 then Exhausted else asked;
    a := Allocation(grant, n, cur, initial, window.starts, window.ends);
    inserted := WithAllocation(db, id, a).(summary := ChangeInventory(db.summary, None, Allocations(cur, initial)).value);
  }

  lemma AllocationAccepted(db: DB, id: Id, grant: Id, requested: Requested, currency: Option<Currency>,
                           status: Option<AllocationStatus>, window: Window)
    requires Inv(db) && FreshAllocation(db, id)
    ensures CreateAllocation(db, id, grant, requested, currency, status, window).Ok? <==>
            && (window.starts.Some? && window.ends.Some? ==> window.starts.value < window.ends.value)
            && grant in db.budget.grants && db.budget.grants[grant].status != Closed
            && (currency == None || currency == Some(db.budget.grants[grant].currency))
            && (requested.Units? ==> requested.units <= Balance(db, GrantUnallocated, grant, db.budget.grants[grant].currency))
            && (status == None || status == Some(Active) || status == Some(Paused))
  {
    hide *;
    CreateAllocationInv(db, id, grant, requested, currency, status, window);
    AllocatableMeaning(db, grant, requested, currency, status, window);
  }

  lemma AllocatableMeaning(db: DB, grant: Id, requested: Requested, currency: Option<Currency>, status: Option<AllocationStatus>, window: Window)
    ensures Allocatable(db, grant, requested, currency, status, window) <==>
            && (window.starts.Some? && window.ends.Some? ==> window.starts.value < window.ends.value)
            && grant in db.budget.grants && db.budget.grants[grant].status != Closed
            && (currency == None || currency == Some(db.budget.grants[grant].currency))
            && (requested.Units? ==> requested.units <= Balance(db, GrantUnallocated, grant, db.budget.grants[grant].currency))
            && (status == None || status == Some(Active) || status == Some(Paused))
  {
    hide Held;
    if status.Some? {
      match status.value
      case Active =>
      case Paused =>
      case _ =>
    }
  }

  /**
   * Funding an allocation moves the units asked for, which must be positive and left in
   * its grant, and wakes an exhausted allocation that has something again.
   */
  ghost predicate AllocationRaised(db: DB, db': DB, id: Id, requested: Requested, funding: Id) {
    && id in db.budget.allocations && id in db'.budget.allocations
    && var a, a' := db.budget.allocations[id], db'.budget.allocations[id];
    && var n := a'.units - a.units;
    && n > 0 && AsksFor(requested, Balance(db, GrantUnallocated, a.grant, a.currency), n)
    && db'.budget == db.budget.(allocations := db.budget.allocations[id := a'])
    && a' == a.(units := a.units + n,
                status := if a.status == Exhausted && Balance(db, AllocationAvailable, id, a.currency) + n > 0 then Active else a.status)
    && Paid(db, db', FundKey(funding), Account(GrantUnallocated, a.grant, a.currency), Account(AllocationAvailable, id, a.currency), n)
  }

  lemma FundedAllocation(db: DB, id: Id, requested: Requested, currency: Option<Currency>, funding: Id)
    requires FundAllocation(db, id, requested, currency, funding).Ok?
    ensures AllocationRaised(db, FundAllocation(db, id, requested, currency, funding).value, id, requested, funding)
  {
    hide Transfer, ChangeInventory, Held;
    var a := db.budget.allocations[id];
    var n := AllocationAmount(requested, Balance(db, GrantUnallocated, a.grant, a.currency));
    TransferEffect(db, FundKey(funding), GrantUnallocated, a.grant, AllocationAvailable, id, a.currency, n);
  }

  lemma FundingAccepted(db: DB, id: Id, requested: Requested, currency: Option<Currency>, funding: Id)
    requires Inv(db) && FundKey(funding) !in db.books.postings
    ensures FundAllocation(db, id, requested, currency, funding).Ok? <==>
            && id in db.budget.allocations
            && var a := db.budget.allocations[id];
            && var left := Balance(db, GrantUnallocated, a.grant, a.currency);
            && a.status != Revoked && db.budget.grants[a.grant].status != Closed
            && (currency == None || currency == Some(a.currency))
            && (if requested.All? then left > 0 else 0 < requested.units <= left)
  {
    FundAllocationInv(db, id, requested, currency, funding);
    if id in db.budget.allocations { GrantOfAllocation(db, id); }
    hide Inv, FundAllocation, ManagementSide, Held;
  }

  lemma GrantOfAllocation(db: DB, id: Id)
    requires Inv(db) && id in db.budget.allocations
    ensures db.budget.allocations[id].grant in db.budget.grants
  {
    hide *;
    InvConjuncts(db);
    KnownGrant(db, id);
  }

  lemma KnownGrant(db: DB, id: Id)
    requires BudgetOk(db) && id in db.budget.allocations
    ensures db.budget.allocations[id].grant in db.budget.grants
  {
    hide GrantOk, KnownHolders;
    assert AllocationOk(db, id);
  }

  /** Revoking gives everything still available back to the grant, once; other changes move nothing. */
  lemma AllocationStatusSet(db: DB, id: Id, status: AllocationStatus)
    requires SetAllocationStatus(db, id, status).Ok?
    ensures var db' := SetAllocationStatus(db, id, status).value;
            && id in db.budget.allocations && id in db'.budget.allocations
            && var a := db.budget.allocations[id];
            && var left := Balance(db, AllocationAvailable, id, a.currency);
            && var n := if a.status != Revoked && status == Revoked && left > 0 then left else 0;
            && db'.budget == db.budget.(allocations := db.budget.allocations[id := a.(units := a.units - n, status := status)])
            && Paid(db, db', RevokeKey(id), Account(AllocationAvailable, id, a.currency), Account(GrantUnallocated, a.grant, a.currency), n)
  {
    hide Transfer, ChangeInventory, Held;
    var a := db.budget.allocations[id];
    var left := Balance(db, AllocationAvailable, id, a.currency);
    if a.status == Revoked {
      assert db.budget.allocations[id := a] == db.budget.allocations;
    } else {
      TransferEffect(db, RevokeKey(id), AllocationAvailable, id, GrantUnallocated, a.grant, a.currency, if status == Revoked && left > 0 then left else 0);
    }
  }

  /** A revocation empties the allocation: nothing is available any more. */
  lemma RevocationEmpties(db: DB, id: Id)
    requires id in db.budget.allocations && db.budget.allocations[id].status != Revoked && SetAllocationStatus(db, id, Revoked).Ok?
    ensures Balance(SetAllocationStatus(db, id, Revoked).value, AllocationAvailable, id, db.budget.allocations[id].currency) <= 0
  {
    AllocationStatusSet(db, id, Revoked);
    hide SetAllocationStatus, Held;
  }

  // ---- Keys and sessions ----

  ghost predicate KeyMade(db: DB, db': DB, id: Id, allocation: Id, secretHash: Id) {
    && id !in db.budget.apiKeys && id in db'.budget.apiKeys
    && db' == db.(budget := db.budget.(apiKeys := db.budget.apiKeys[id := db'.budget.apiKeys[id]]))
    && var k := db'.budget.apiKeys[id];
    && k.allocation == allocation && k.secretHash == secretHash && !k.revoked
  }

  /** A key is issued for an allocation that is not revoked, with the secret's hash, and is not revoked itself. */
  lemma IssuedKey(db: DB, id: Id, allocation: Id, secretHash: Id)
    ensures var r := IssueKey(db, id, allocation, secretHash);
            && (r.Ok? <==> allocation in db.budget.allocations && db.budget.allocations[allocation].status != Revoked && id !in db.budget.apiKeys)
            && (r.Ok? ==> KeyMade(db, r.value, id, allocation, secretHash))
  {
  }

  /** Revoking an existing key marks it, and revoking an existing session ends it; nothing else changes. */
  lemma AccessRevoked(db: DB, id: Id)
    ensures var r := RevokeApiKey(db, id);
            && (r.Ok? <==> id in db.budget.apiKeys)
            && (r.Ok? ==> r.value == db.(budget := db.budget.(apiKeys := db.budget.apiKeys[id := db.budget.apiKeys[id].(revoked := true)])))
    ensures var r := RevokeSession(db, id);
            && (r.Ok? <==> id in db.budget.sessions)
            && (r.Ok? ==> r.value == db.(budget := db.budget.(sessions := db.budget.sessions[id := db.budget.sessions[id].(active := false)])))
  {
  }

  /** A key for a grant comes with an active allocation of its own, without a window. */
  ghost predicate KeyWithAllocation(db: DB, db': DB, allocation: Id, id: Id, grant: Id, requested: Requested, secretHash: Id) {
    exists db1 :: AllocationMade(db, db1, allocation, grant, requested, Some(Active), Window(None, None)) && KeyMade(db1, db', id, allocation, secretHash)
  }

  lemma KeyForGrant(db: DB, allocation: Id, id: Id, grant: Id, requested: Requested, currency: Option<Currency>, secretHash: Id)
    requires CreateKeyForGrant(db, allocation, id, grant, requested, currency, secretHash).Ok?
    ensures KeyWithAllocation(db, CreateKeyForGrant(db, allocation, id, grant, requested, currency, secretHash).value,
                              allocation, id, grant, requested, secretHash)
  {
    CreatedAllocation(db, allocation, grant, requested, currency, None, Window(None, None));
    var db1 := CreateAllocation(db, allocation, grant, requested, currency, None, Window(None, None)).value;
    IssuedKey(db1, id, allocation, secretHash);
    hide CreateAllocation, IssueKey, Paid, KeyMade;
    assert AllocationMade(db, db1, allocation, grant, requested, Some(Active), Window(None, None));
  }

  // ---- Keyed writes ----

  /** A key is up to 256 letters, digits, underscores, hyphens and equals signs. */
  predicate Acceptable(key: string) {
    1 <= |key| <= 256 && forall c :: c in key ==> 'A' <= c <= 'Z' || 'a' <= c <= 'z' || '0' <= c <= '9' || c in {'_', '-', '='}
  }

  lemma KeysAccepted(key: string)
    ensures ValidKey(key) <==> Acceptable(key)
  {
    if Acceptable(key) {
      forall i | 0 <= i < |key| ensures KeyChar(key[i]) { assert key[i] in key; }
    }
  }

  /** The grant whose key space a mutation uses: its own, or its allocation's. */
  predicate ScopedTo(b: Budget, m: Mutation, grant: Id) {
    match m
    case AddAllocation(_, g, _, _, _, _) => grant == g
    case FundGrantBy(g, _, _, _) => grant == g
    case FundAllocationBy(a, _, _, _) => a in b.allocations && grant == b.allocations[a].grant
    case AddKey(_, a, _) => a in b.allocations && grant == b.allocations[a].grant
    case AddKeyForGrant(_, _, g, _, _, _) => grant == g
  }

  /** The ids a mutation answers: what it created or funded, and for a key also its allocation and secret. */
  predicate Answers(m: Mutation, response: seq<Id>) {
    match m
    case AddAllocation(id, _, _, _, _, _) => response == [id]
    case FundGrantBy(g, _, _, _) => response == [g]
    case FundAllocationBy(a, _, _, _) => response == [a]
    case AddKey(id, a, secret) => response == [a, id, secret]
    case AddKeyForGrant(a, id, _, _, _, secret) => response == [a, id, secret]
  }

  /** What each mutation leaves. */
  ghost predicate Made(db: DB, db': DB, m: Mutation) {
    match m
    case AddAllocation(id, grant, requested, _, status, window) => AllocationMade(db, db', id, grant, requested, status, window)
    case FundGrantBy(grant, requested, _, funding) => requested.Units? && GrantRaised(db, db', grant, requested.units, funding)
    case FundAllocationBy(allocation, requested, _, funding) => AllocationRaised(db, db', allocation, requested, funding)
    case AddKey(id, allocation, secretHash) => KeyMade(db, db', id, allocation, secretHash)
    case AddKeyForGrant(allocation, id, grant, requested, _, secretHash) => KeyWithAllocation(db, db', allocation, id, grant, requested, secretHash)
  }

  lemma MutationMade(db: DB, m: Mutation)
    requires Mutate(db, m).Ok?
    ensures Made(db, Mutate(db, m).value, m)
  {
    hide CreateAllocation, FundGrant, FundAllocation, IssueKey, CreateKeyForGrant, AllocationMade, GrantRaised, AllocationRaised, KeyMade, KeyWithAllocation;
    match m
    case AddAllocation(id, grant, requested, currency, status, window) => CreatedAllocation(db, id, grant, requested, currency, status, window);
    case FundGrantBy(grant, requested, currency, funding) => FundedGrantLeaves(db, grant, requested, currency, funding);
    case FundAllocationBy(allocation, requested, currency, funding) => FundedAllocation(db, allocation, requested, currency, funding);
    case AddKey(id, allocation, secretHash) => IssuedKey(db, id, allocation, secretHash);
    case AddKeyForGrant(allocation, id, grant, requested, currency, secretHash) =>
      KeyForGrant(db, allocation, id, grant, requested, currency, secretHash);
  }

  /**
   * A keyed write either repeats a stored answer for the same request under its grant
   * and key, changing nothing, or does the mutation, answers its ids, and stores that
   * answer under its grant and key; without a key nothing is stored.
   */
  lemma KeyedWrite(db: DB, key: string, fingerprint: Id, m: Mutation)
    requires WriteIdempotent(db, key, fingerprint, m).Ok?
    ensures var (db', response) := WriteIdempotent(db, key, fingerprint, m).value;
            if key == "" then Made(db, db', m) && Answers(m, response)
            else Acceptable(key) && exists grant :: ScopedTo(db.budget, m, grant) && Kept(db, db', m, grant, key, Reply(fingerprint, response))
  {
    hide Mutate, ValidKey, Made;
    KeysAccepted(key);
    if Mutate(db, m).Ok? { MutationMade(db, m); }
    if key != "" {
      var grant := GrantOf(db.budget, ScopeOf(m)).value;
      assert ScopedTo(db.budget, m, grant);
      if (grant, key) !in db.budget.replies { StoredBeside(Mutate(db, m).value, grant, key, Reply(fingerprint, ResponseTo(m))); }
    }
  }

  /** The stored answer was there already, or it is stored beside what the mutation did. */
  ghost predicate Kept(db: DB, db': DB, m: Mutation, grant: Id, key: string, reply: Reply) {
    if (grant, key) in db.budget.replies then db' == db && db.budget.replies[(grant, key)] == reply
    else Answers(m, reply.response) && exists db1 :: Made(db, db1, m) && Beside(db1, db', grant, key, reply)
  }

  ghost predicate Beside(db1: DB, db': DB, grant: Id, key: string, reply: Reply) {
    db' == db1.(budget := db1.budget.(replies := db1.budget.replies[(grant, key) := reply]))
  }

  lemma StoredBeside(db1: DB, grant: Id, key: string, reply: Reply)
    ensures Beside(db1, WithReply(db1, grant, key, reply), grant, key, reply)
  {
  }

  /** A key that is not acceptable, or used for another request, is refused, and so is a window that ends before it starts. */
  lemma KeyRefused(db: DB, key: string, fingerprint: Id, m: Mutation, grant: Id)
    ensures m.AddAllocation? && m.window.starts.Some? && m.window.ends.Some? && m.window.ends.value <= m.window.starts.value ==>
              WriteIdempotent(db, key, fingerprint, m) == Err(InvalidInput)
    ensures key != "" && !Acceptable(key) ==> WriteIdempotent(db, key, fingerprint, m) == Err(InvalidInput)
    ensures Acceptable(key) && ScopedTo(db.budget, m, grant) && (grant, key) in db.budget.replies && db.budget.replies[(grant, key)].fingerprint != fingerprint ==>
              WriteIdempotent(db, key, fingerprint, m) in {Err(FingerprintConflict), Err(InvalidInput)}
  {
    hide Mutate, ValidKey;
    KeysAccepted(key);
  }
}

/**
 * Idempotent management writes (internal/store/idempotency.go): lookup, mutation and
 * response storage in one write.
 */
module Idempotent {
  import opened Results
  import opened Blocks
  import opened Tables
  import opened Management

  /** The four mutations that accept an idempotency key, with the ids and secret they generate. */
  datatype Mutation =
    | AddAllocation(id: Id, grant: Id, requested: Requested, currency: Option<Currency>, status: Option<AllocationStatus>, window: Window)
    | FundGrantBy(grant: Id, requested: Requested, currency: Option<Currency>, funding: Id)
    | FundAllocationBy(allocation: Id, requested: Requested, currency: Option<Currency>, funding: Id)
    | AddKey(id: Id, allocation: Id, secretHash: Id)
    | AddKeyForGrant(allocation: Id, id: Id, grant: Id, requested: Requested, currency: Option<Currency>, secretHash: Id)

  /** createKeyForGrant: a default allocation and a key for it, or neither. */
  function CreateKeyForGrant(db: DB, allocation: Id, id: Id, grant: Id, requested: Requested, currency: Option<Currency>, secretHash: Id): Outcome<DB> {
    var db1 :- CreateAllocation(db, allocation, grant, requested, currency, None, Window(None, None));
    IssueKey(db1, id, allocation, secretHash)
  }

  function Mutate(db: DB, m: Mutation): Outcome<DB> {
    match m
    case AddAllocation(id, grant, requested, currency, status, window) => CreateAllocation(db, id, grant, requested, currency, status, window)
    case FundGrantBy(grant, requested, currency, funding) => FundGrant(db, grant, requested, currency, funding)
    case FundAllocationBy(allocation, requested, currency, funding) => FundAllocation(db, allocation, requested, currency, funding)
    case AddKey(id, allocation, secretHash) => IssueKey(db, id, allocation, secretHash)
    case AddKeyForGrant(allocation, id, grant, requested, currency, secretHash) =>
      CreateKeyForGrant(db, allocation, id, grant, requested, currency, secretHash)
  }

  function ResponseTo(m: Mutation): seq<Id> {
    match m
    case AddAllocation(id, _, _, _, _, _) => [id]
    case FundGrantBy(grant, _, _, _) => [grant]
    case FundAllocationBy(allocation, _, _, _) => [allocation]
    case AddKey(id, allocation, secretHash) => [allocation, id, secretHash]
    case AddKeyForGrant(allocation, id, _, _, _, secretHash) => [allocation, id, secretHash]
  }

  datatype Scope = GrantScope(id: Id) | AllocationScope(id: Id)

  /** The scope each caller passes. */
  function ScopeOf(m: Mutation): Scope {
    match m
    case AddAllocation(_, grant, _, _, _, _) => GrantScope(grant)
    case FundGrantBy(grant, _, _, _) => GrantScope(grant)
    case FundAllocationBy(allocation, _, _, _) => AllocationScope(allocation)
    case AddKey(_, allocation, _) => AllocationScope(allocation)
    case AddKeyForGrant(_, _, grant, _, _, _) => GrantScope(grant)
  }

  predicate KeyChar(c: char) {
    'A' <= c <= 'Z' || 'a' <= c <= 'z' || '0' <= c <= '9' || c == '_' || c == '-' || c == '='
  }

  predicate ValidKey(key: string) {
    1 <= |key| <= 256 && forall i :: 0 <= i < |key| ==> KeyChar(key[i])
  }

  /** The grant a key is scoped to, through its allocation if need be. */
  function GrantOf(b: Budget, s: Scope): Option<Id> {
    match s
    case GrantScope(id) => Some(id)
    case AllocationScope(id) => if id in b.allocations then Some(b.allocations[id].grant) else None
  }

  function WithReply(db: DB, grant: Id, key: string, r: Reply): DB {
    db.(budget := db.budget.(replies := db.budget.replies[(grant, key) := r]))
  }

  /** writeIdempotent: an empty key disables replay. */
  function WriteIdempotent(db: DB, key: string, fingerprint: Id, m: Mutation): Outcome<(DB, seq<Id>)> {
    if m.AddAllocation? && !ValidWindow(m.window) then Err(InvalidInput)
    else if key == "" then
      var db1 :- Mutate(db, m);
      Ok((db1, ResponseTo(m)))
    else if !ValidKey(key) then Err(InvalidInput)
    else
      var grant := GrantOf(db.budget, ScopeOf(m));
      if grant.None? then Err(NoRows)
      else if (grant.value, key) in db.budget.replies then
        var stored := db.budget.replies[(grant.value, key)];
        if stored.fingerprint != fingerprint then Err(FingerprintConflict) else Ok((db, stored.response))
      else
        var db1 :- Mutate(db, m);
        Ok((WithReply(db1, grant.value, key, Reply(fingerprint, ResponseTo(m))), ResponseTo(m)))
  }
}

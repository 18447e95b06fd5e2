/**
 * Keyed management retries are stuttering (internal/store/idempotency.go:41-133): a run
 * ends in the same state with its retries deleted, and every success for one grant and
 * key returns the same response.
 */
module Retries {
  import opened Results
  import opened Blocks
  import opened Tables
  import opened Books
  import opened EscrowStore
  import opened Management
  import opened Ingestion
  import opened IngestSteps
  import opened Invariant
  import opened IngestKeeps
  import opened Authorize
  import opened Idempotent
  import opened Runs
  import opened Progress

  /** The key and grant under which a management request is recorded. */
  function RecordKey(db: DB, op: Op): Option<(Id, string)> {
    if op.Manage? && op.key != "" && ValidKey(op.key) && GrantOf(db.budget, ScopeOf(op.mutation)).Some? then
      Some((GrantOf(db.budget, ScopeOf(op.mutation)).value, op.key))
    else None
  }

  /** The grant and key already have an answer. */
  predicate IsRetry(db: DB, op: Op) {
    RecordKey(db, op).Some? && RecordKey(db, op).value in db.budget.replies
  }

  /** A retry replays the stored response or reports a conflict; either way nothing changes. */
  lemma RetryStutters(db: DB, op: Op)
    requires IsRetry(db, op)
    ensures Next(db, op) == db
    ensures var stored := db.budget.replies[RecordKey(db, op).value];
            var r := WriteIdempotent(db, op.key, op.fingerprint, op.mutation);
            && (r.Ok? ==> r.value == (db, stored.response) && stored.fingerprint == op.fingerprint)
            && (op.fingerprint != stored.fingerprint ==> r.Err?)
            && (r.Err? && r.error != InvalidInput ==> r.error == FingerprintConflict && op.fingerprint != stored.fingerprint)
  {
  }

  /** The run without its retries. */
  ghost function WithoutRetries(db: DB, ops: seq<Op>): seq<Op> {
    if ops == [] then [] else
      var front := WithoutRetries(db, ops[..|ops| - 1]);
      if IsRetry(Run(db, ops[..|ops| - 1]), ops[|ops| - 1]) then front else front + [ops[|ops| - 1]]
  }

  /** Deleting every retry of a run changes no table. */
  lemma {:induction false} RetriesDoNotMatter(db: DB, ops: seq<Op>)
    ensures Run(db, WithoutRetries(db, ops)) == Run(db, ops)
  {
    if ops != [] {
      var front, last := ops[..|ops| - 1], ops[|ops| - 1];
      RetriesDoNotMatter(db, front);
      if IsRetry(Run(db, front), last) {
        RetryStutters(Run(db, front), last);
      } else {
        RunSnoc(db, WithoutRetries(db, front), last);
      }
    }
  }

  lemma {:induction false} KeptIsValid(db: DB, ops: seq<Op>)
    requires Valid(db, ops)
    ensures Valid(db, WithoutRetries(db, ops))
  {
    if ops != [] {
      var front, last := ops[..|ops| - 1], ops[|ops| - 1];
      KeptIsValid(db, front);
      RetriesDoNotMatter(db, front);
      RunSnoc(db, WithoutRetries(db, front), last);
    }
  }

  /** A success under a key, first or replayed, leaves its response recorded. */
  lemma SuccessIsRecorded(db: DB, op: Op)
    requires RecordKey(db, op).Some? && WriteIdempotent(db, op.key, op.fingerprint, op.mutation).Ok?
    ensures var k := RecordKey(db, op).value;
            var r := WriteIdempotent(db, op.key, op.fingerprint, op.mutation).value;
            Next(db, op) == r.0 && k in r.0.budget.replies && r.0.budget.replies[k] == Reply(op.fingerprint, r.1)
  {
    hide Mutate;
  }

  lemma RecordKeyPersists(db: DB, db': DB, op: Op)
    requires SameBindings(db.budget, db'.budget) && RecordKey(db, op).Some?
    ensures RecordKey(db', op) == RecordKey(db, op)
  {
  }

  /**
   * Once a request has succeeded, whatever else runs, every later request with its key
   * and grant is a retry: it changes nothing, and returns the same response or a
   * conflict when its fingerprint differs.
   */
  lemma LaterIsRetry(db: DB, first: Op, between: seq<Op>, second: Op)
    requires Inv(db) && Valid(db, [first] + between)
    requires RecordKey(db, first).Some? && WriteIdempotent(db, first.key, first.fingerprint, first.mutation).Ok?
    requires RecordKey(Run(db, [first] + between), second) == RecordKey(db, first)
    ensures var db' := Run(db, [first] + between);
            var r := WriteIdempotent(db', second.key, second.fingerprint, second.mutation);
            && IsRetry(db', second) && Next(db', second) == db'
            && (r.Ok? ==> second.fingerprint == first.fingerprint &&
                          r.value.1 == WriteIdempotent(db, first.key, first.fingerprint, first.mutation).value.1)
            && (second.fingerprint != first.fingerprint ==> r.Err?)
  {
    hide Inv, Valid, Run, Next, Enabled, WriteIdempotent, Grows, RecordKey;
    SuccessIsRecorded(db, first);
    var k := RecordKey(db, first).value;
    RunConcat(db, [first], between);
    OneOp(db, first);
    StepKeepsInv(db, first);
    RunFrom(Next(db, first), between);
    var db' := Run(db, [first] + between);
    RepliesPersist(Next(db, first), db', k);
    RetryStutters(db', second);
  }

  /** The very same request, sent again whenever, gets the very same response. */
  lemma SameRequestAgain(db: DB, request: Op, between: seq<Op>)
    requires Inv(db) && Valid(db, [request] + between)
    requires RecordKey(db, request).Some? && WriteIdempotent(db, request.key, request.fingerprint, request.mutation).Ok?
    ensures var db' := Run(db, [request] + between);
            var r := WriteIdempotent(db', request.key, request.fingerprint, request.mutation);
            Next(db', request) == db' && r.Ok? && r.value == (db', WriteIdempotent(db, request.key, request.fingerprint, request.mutation).value.1)
  {
    hide *;
    StaysRecorded(db, request, between);
    var db' := Run(db, [request] + between);
    StillAnswered(db, db', request);
    RetryStutters(db', request);
  }

  lemma StaysRecorded(db: DB, request: Op, between: seq<Op>)
    requires Inv(db) && Valid(db, [request] + between)
    requires RecordKey(db, request).Some? && WriteIdempotent(db, request.key, request.fingerprint, request.mutation).Ok?
    ensures var db' := Run(db, [request] + between);
            var response := WriteIdempotent(db, request.key, request.fingerprint, request.mutation).value.1;
            && RecordKey(db', request) == RecordKey(db, request) && IsRetry(db', request)
            && db'.budget.replies[RecordKey(db, request).value] == Reply(request.fingerprint, response)
  {
    hide *;
    RunFrom(db, [request] + between);
    SuccessIsRecorded(db, request);
    RunConcat(db, [request], between);
    OneOp(db, request);
    StepKeepsInv(db, request);
    RunFrom(Next(db, request), between);
    var db' := Run(db, [request] + between);
    BindingsGrow(db, db');
    RecordKeyPersists(db, db', request);
    RepliesPersist(Next(db, request), db', RecordKey(db, request).value);
    RecordedIsRetry(db', request);
  }

  lemma BindingsGrow(db: DB, db': DB)
    requires Grows(db, db')
    ensures SameBindings(db.budget, db'.budget)
  {
    hide LedgerGrows, UsageGrows, EscrowGrows, SameBindings;
  }

  lemma RecordedIsRetry(db: DB, op: Op)
    requires RecordKey(db, op).Some? && RecordKey(db, op).value in db.budget.replies
    ensures IsRetry(db, op)
  {
  }

  /** A request that was once well formed still is. */
  lemma StillAnswered(db: DB, db': DB, op: Op)
    requires RecordKey(db, op).Some? && WriteIdempotent(db, op.key, op.fingerprint, op.mutation).Ok? && IsRetry(db', op)
    requires db'.budget.replies[RecordKey(db', op).value].fingerprint == op.fingerprint
    ensures WriteIdempotent(db', op.key, op.fingerprint, op.mutation).Ok?
  {
    hide Mutate;
  }

  lemma OneOp(db: DB, op: Op)
    ensures Run(db, [op]) == Next(db, op) && (Valid(db, [op]) <==> Enabled(db, op))
  {
    RunSnoc(db, [], op);
    assert [] + [op] == [op];
  }

  lemma RepliesPersist(db: DB, db': DB, k: (Id, string))
    requires Grows(db, db') && k in db.budget.replies
    ensures k in db'.budget.replies && db'.budget.replies[k] == db.budget.replies[k]
  {
    hide LedgerGrows, UsageGrows, EscrowGrows;
  }

  // ---- A key is used by a success and by nothing else ----

  lemma TransferReplies(db: DB, key: Key, debit: Kind, from: Id, credit: Kind, to: Id, currency: Currency, n: int)
    ensures var r := Transfer(db, key, debit, from, credit, to, currency, n);
            r.Ok? ==> r.value.budget == db.budget
  {
    if Transfer(db, key, debit, from, credit, to, currency, n).Ok? { TransferEffect(db, key, debit, from, credit, to, currency, n); }
  }

  lemma CreateGrantReplies(db: DB, id: Id, amount: nat, currency: Option<Currency>, status: Option<GrantStatus>, window: Window)
    ensures var r := CreateGrant(db, id, amount, currency, status, window);
            r.Ok? ==> r.value.budget.replies == db.budget.replies
  {
    hide Transfer, ChangeInventory;
    var cur := if currency.None? then Usd else currency.value;
    var initial := if status.None? then Draft else status.value;
    var s := ChangeInventory(db.summary, None, Grants(cur, initial));
    if s.Ok? {
      TransferReplies(WithGrant(db, id, Grant(amount, cur, initial, window.starts, window.ends)).(summary := s.value),
                      CreateKey(id), GrantFundingSource, id, GrantUnallocated, id, cur, amount);
    }
  }

  lemma CreateAllocationReplies(db: DB, id: Id, grant: Id, requested: Requested, currency: Option<Currency>,
                                status: Option<AllocationStatus>, window: Window)
    ensures var r := CreateAllocation(db, id, grant, requested, currency, status, window);
            r.Ok? ==> r.value.budget.replies == db.budget.replies
  {
    hide Transfer, ChangeInventory, Held;
    if grant in db.budget.grants {
      var g := db.budget.grants[grant];
      var n := AllocationAmount(requested, Balance(db, GrantUnallocated, grant, g.currency));
      var asked := if status.None? then Active else status.value;
      var initial := if asked == Active && n == 0 then Exhausted else asked;
      var s := ChangeInventory(db.summary, None, Allocations(g.currency, initial));
      if s.Ok? {
        TransferReplies(WithAllocation(db, id, Allocation(grant, n, g.currency, initial, window.starts, window.ends)).(summary := s.value),
                        CreateKey(id), GrantUnallocated, grant, AllocationAvailable, id, g.currency, n);
      }
    }
  }

  lemma FundGrantReplies(db: DB, id: Id, requested: Requested, currency: Option<Currency>, funding: Id)
    ensures var r := FundGrant(db, id, requested, currency, funding);
            r.Ok? ==> r.value.budget.replies == db.budget.replies
  {
    hide Transfer;
    if id in db.budget.grants && requested.Units? {
      var g := db.budget.grants[id];
      TransferReplies(WithGrant(db, id, g.(total := g.total + requested.units)), FundKey(funding), GrantFundingSource, id, GrantUnallocated, id,
                      g.currency, requested.units);
    }
  }

  lemma FundAllocationReplies(db: DB, id: Id, requested: Requested, currency: Option<Currency>, funding: Id)
    ensures var r := FundAllocation(db, id, requested, currency, funding);
            r.Ok? ==> r.value.budget.replies == db.budget.replies
  {
    hide Transfer, ChangeInventory, Held;
    if id in db.budget.allocations {
      var a := db.budget.allocations[id];
      var n := AllocationAmount(requested, Balance(db, GrantUnallocated, a.grant, a.currency));
      TransferReplies(db, FundKey(funding), GrantUnallocated, a.grant, AllocationAvailable, id, a.currency, n);
    }
  }

  lemma MutateReplies(db: DB, m: Mutation)
    ensures var r := Mutate(db, m);
            r.Ok? ==> r.value.budget.replies == db.budget.replies
  {
    hide CreateAllocation, FundGrant, FundAllocation;
    match m
    case AddAllocation(id, grant, requested, currency, status, window) => CreateAllocationReplies(db, id, grant, requested, currency, status, window);
    case FundGrantBy(grant, requested, currency, funding) => FundGrantReplies(db, grant, requested, currency, funding);
    case FundAllocationBy(allocation, requested, currency, funding) => FundAllocationReplies(db, allocation, requested, currency, funding);
    case AddKey(id, allocation, secretHash) =>
    case AddKeyForGrant(allocation, id, grant, requested, currency, secretHash) =>
      CreateAllocationReplies(db, allocation, grant, requested, currency, None, Window(None, None));
  }

  lemma SetStatusReplies(db: DB, op: Op)
    requires op.SetGrant? || op.SetAllocation?
    ensures Next(db, op).budget.replies == db.budget.replies
  {
    hide Transfer, ChangeInventory, Held;
    if op.SetAllocation? && op.id in db.budget.allocations {
      var a := db.budget.allocations[op.id];
      var bal := Balance(db, AllocationAvailable, op.id, a.currency);
      TransferReplies(db, RevokeKey(op.id), AllocationAvailable, op.id, GrantUnallocated, a.grant, a.currency,
                      if op.toAllocation == Revoked && bal > 0 then bal else 0);
    }
  }

  lemma AccessReplies(db: DB, op: Op)
    requires op.DropKey? || op.DropSession? || op.Sign? || op.PublishLag?
    ensures Next(db, op).budget.replies == db.budget.replies
  {
    hide Decide;
  }

  lemma ConsumeReplies(db: DB, pos: Position, raw: Payload)
    requires Inv(db)
    ensures var r := Ingest(db, pos, raw);
            r.Ok? ==> r.value.budget.replies == db.budget.replies
  {
    IngestKeepsInv(db, pos, raw);
    hide Inv, Ingest, RowFor, OnlyMatches, Held, AppliedRow, Spent, ChargePosting, RowFee, ValidPosition, NextOf;
  }

  predicate Records(db: DB, op: Op, k: (Id, string)) {
    RecordKey(db, op) == Some(k) && Exec(db, op).Ok?
  }

  lemma ManageReplies(db: DB, op: Op, k: (Id, string))
    requires op.Manage?
    ensures k in Next(db, op).budget.replies <==> k in db.budget.replies || Records(db, op, k)
  {
    MutateReplies(db, op.mutation);
    hide Mutate;
  }

  lemma RepliesStep(db: DB, op: Op, k: (Id, string))
    requires Inv(db) && Enabled(db, op)
    ensures k in Next(db, op).budget.replies <==> k in db.budget.replies || Records(db, op, k)
  {
    if op.Manage? {
      ManageReplies(db, op, k);
    } else {
      SameReplies(db, op);
      NotRecorded(db, op, k);
    }
  }

  lemma NotRecorded(db: DB, op: Op, k: (Id, string))
    requires !op.Manage?
    ensures !Records(db, op, k)
  {
    hide Exec;
  }

  lemma SameReplies(db: DB, op: Op)
    requires Inv(db) && Enabled(db, op) && !op.Manage?
    ensures Next(db, op).budget.replies == db.budget.replies
  {
    hide Inv, CreateGrant, SetGrantStatus, SetAllocationStatus, RevokeApiKey, RevokeSession, Commit, Ingest, BootstrapChain, ApplyChain, Rewind,
         ListsSettlements, ListsEvents, SetLag;
    match op
    case NewGrant(id, amount, currency, status, window) => CreateGrantReplies(db, id, amount, currency, status, window);
    case SetGrant(_, _) => SetStatusReplies(db, op);
    case SetAllocation(_, _) => SetStatusReplies(db, op);
    case Consume(pos, raw) => ConsumeReplies(db, pos, raw);
    case OpenChain(_, _, _) => ChainOpFrame(db, op);
    case ApplyBlocks(_, _, _, _) => ChainOpFrame(db, op);
    case Reorg(_, _, _, _) => ChainOpFrame(db, op);
    case _ => AccessReplies(db, op);
  }

  ghost predicate RecordedBy(ops: seq<Op>, i: int, k: (Id, string)) {
    0 <= i < |ops| && Records(Run(EMPTY, ops[..i]), ops[i], k)
  }

  /**
   * In every run a grant's key is used exactly when some request under it has succeeded:
   * failed attempts, and whatever else runs, leave it free.
   */
  lemma {:induction false} KeyUsedIff(ops: seq<Op>, k: (Id, string))
    requires Valid(EMPTY, ops)
    ensures k in Run(EMPTY, ops).budget.replies <==> exists i :: RecordedBy(ops, i, k)
  {
    hide Inv, Enabled, Next, Records, ZEROES;
    if ops == [] {
      NoReplies();
    } else {
      var front, last := ops[..|ops| - 1], ops[|ops| - 1];
      KeyUsedIff(front, k);
      RunKeepsInv(front);
      RepliesStep(Run(EMPTY, front), last, k);
      forall i | 0 <= i < |front| ensures RecordedBy(front, i, k) <==> RecordedBy(ops, i, k) { assert front[..i] == ops[..i]; }
      assert RecordedBy(ops, |front|, k) <==> Records(Run(EMPTY, front), last, k);
      if exists i :: RecordedBy(ops, i, k) {
        var i :| RecordedBy(ops, i, k);
        if i < |front| { assert RecordedBy(front, i, k); }
      }
      if exists i :: RecordedBy(front, i, k) {
        var i :| RecordedBy(front, i, k);
        assert RecordedBy(ops, i, k);
      }
    }
  }

  lemma NoReplies()
    ensures EMPTY.budget.replies == map[]
  {
    hide ZEROES;
  }
}

/**
 * What the metric tables say in every run (migrations/003_metric_summaries.sql:11-59),
 * told without the rebuild: counts are the numbers of rows of a kind, amounts are sums of
 * balances or of settled payments, and the tracked balances are the accounts' own.
 */
module Reports {
  import opened Totals
  import opened Blocks
  import opened Tables
  import opened Books
  import opened Summaries
  import opened Runs
  import opened Theorems

  // ---- The rows that are counted ----

  function GrantsIn(db: DB, currency: Currency, status: GrantStatus): set<Id> {
    set id | id in db.budget.grants && db.budget.grants[id].currency == currency && db.budget.grants[id].status == status
  }

  function AllocationsIn(db: DB, currency: Currency, status: AllocationStatus): set<Id> {
    set id | id in db.budget.allocations && db.budget.allocations[id].currency == currency && db.budget.allocations[id].status == status
  }

  function QuarantinedFor(db: DB, reason: Reason): set<Position> {
    set p | p in db.usage.rows && db.usage.rows[p].status == Quarantined && db.usage.rows[p].reason == reason
  }

  predicate MatchedAs(m: Match, tag: MatchTag) {
    match m
    case Unmatched => tag == UnmatchedTag
    case Matched(_) => tag == MatchedTag
    case Ambiguous => tag == AmbiguousTag
  }

  function SettlementsIn(db: DB, settled: bool, tag: MatchTag): set<LogId> {
    set id | id in db.escrow.settlements && db.escrow.settlements[id].settled == settled && MatchedAs(db.escrow.settlements[id].matching, tag)
  }

  function Underpaid(db: DB): set<LogId> {
    set id | id in db.escrow.settlements && db.escrow.settlements[id].settled && db.escrow.settlements[id].data.paid < db.escrow.settlements[id].data.face
  }

  /** Allocations of a currency with less than nothing available. */
  function Overdrawn(db: DB, currency: Currency): set<Id> {
    set id | id in db.budget.allocations && db.budget.allocations[id].currency == currency &&
             Held(db.books.balances, Account(AllocationAvailable, id, currency)) < 0
  }

  /** Opened senders whose account of this bucket is empty. */
  function Unfunded(db: DB, bucket: Kind): set<(Id, Id)> {
    set k | k in db.escrow.snapshots && Held(db.books.balances, Account(bucket, k.1, Eth)) == 0
  }

  // ---- Counting rows ----

  lemma RowsCounted(db: DB, key: CountKey)
    ensures match key
            case Grants(currency, status) => RebuiltCount(db, key) == |GrantsIn(db, currency, status)|
            case Allocations(currency, status) => RebuiltCount(db, key) == |AllocationsIn(db, currency, status)|
            case Quarantines(reason) => RebuiltCount(db, key) == |QuarantinedFor(db, reason)|
            case Settlements(settled, tag) => RebuiltCount(db, key) == |SettlementsIn(db, settled, tag)|
            case SettlementsUnderpaid => RebuiltCount(db, key) == |Underpaid(db)|
            case _ => true
  {
    hide Total;
    match key
    case Grants(currency, status) => Counts(db.budget.grants, GrantWeight(key), GrantsIn(db, currency, status));
    case Allocations(currency, status) => Counts(db.budget.allocations, AllocationWeight(key), AllocationsIn(db, currency, status));
    case Quarantines(reason) => Counts(db.usage.rows, QuarantineWeight(key), QuarantinedFor(db, reason));
    case Settlements(settled, tag) => Counts(db.escrow.settlements, SettlementCountWeight(key), SettlementsIn(db, settled, tag));
    case SettlementsUnderpaid => Counts(db.escrow.settlements, SettlementCountWeight(key), Underpaid(db));
    case _ =>
  }

  // ---- Counting tracked balances ----

  function AllocationKeys(ids: set<Id>, currency: Currency): set<TrackedKey> {
    set id | id in ids :: TrackedKey(AllocationAvailable, AllocationSource(id), currency)
  }

  function SnapshotKeys(ks: set<(Id, Id)>, bucket: Kind): set<TrackedKey> {
    set k | k in ks :: TrackedKey(bucket, SnapshotSource(k.0, k.1), Eth)
  }

  lemma {:induction false} AsManyAllocations(ids: set<Id>, currency: Currency)
    ensures |AllocationKeys(ids, currency)| == |ids|
  {
    if ids != {} {
      var id :| id in ids;
      AsManyAllocations(ids - {id}, currency);
      var key := TrackedKey(AllocationAvailable, AllocationSource(id), currency);
      assert AllocationKeys(ids, currency) == AllocationKeys(ids - {id}, currency) + {key};
      assert key !in AllocationKeys(ids - {id}, currency);
    }
  }

  lemma {:induction false} AsManySnapshots(ks: set<(Id, Id)>, bucket: Kind)
    ensures |SnapshotKeys(ks, bucket)| == |ks|
  {
    if ks != {} {
      var k :| k in ks;
      AsManySnapshots(ks - {k}, bucket);
      var key := TrackedKey(bucket, SnapshotSource(k.0, k.1), Eth);
      assert SnapshotKeys(ks, bucket) == SnapshotKeys(ks - {k}, bucket) + {key};
      assert key !in SnapshotKeys(ks - {k}, bucket);
    }
  }

  lemma TrackedCounted(db: DB, currency: Currency, bucket: Kind)
    requires TrackedOk(db) && (bucket == EscrowDeposit || bucket == EscrowReserve)
    ensures RebuiltCount(db, AllocationsOverdrawn(currency)) == |Overdrawn(db, currency)|
    ensures RebuiltCount(db, EscrowUnfunded(bucket)) == |Unfunded(db, bucket)|
  {
    hide Total, Held;
    AsManyAllocations(Overdrawn(db, currency), currency);
    OverdrawnKeys(db, currency);
    Counts(db.summary.tracked, TrackedCountWeight(AllocationsOverdrawn(currency)), AllocationKeys(Overdrawn(db, currency), currency));
    AsManySnapshots(Unfunded(db, bucket), bucket);
    UnfundedKeys(db, bucket);
    Counts(db.summary.tracked, TrackedCountWeight(EscrowUnfunded(bucket)), SnapshotKeys(Unfunded(db, bucket), bucket));
  }

  lemma OverdrawnKeys(db: DB, currency: Currency)
    requires TrackedOk(db)
    ensures var keys := AllocationKeys(Overdrawn(db, currency), currency);
            keys <= db.summary.tracked.Keys &&
            forall k :: k in db.summary.tracked ==>
              TrackedCountWeight(AllocationsOverdrawn(currency))(k, db.summary.tracked[k]) == if k in keys then 1 else 0
  {
    hide Held;
    var keys := AllocationKeys(Overdrawn(db, currency), currency);
    forall k | k in keys ensures k in db.summary.tracked { assert IsTracked(db, k); }
    forall k | k in db.summary.tracked
      ensures TrackedCountWeight(AllocationsOverdrawn(currency))(k, db.summary.tracked[k]) == if k in keys then 1 else 0
    {
      assert IsTracked(db, k);
    }
  }

  lemma UnfundedKeys(db: DB, bucket: Kind)
    requires TrackedOk(db) && (bucket == EscrowDeposit || bucket == EscrowReserve)
    ensures var keys := SnapshotKeys(Unfunded(db, bucket), bucket);
            keys <= db.summary.tracked.Keys &&
            forall k :: k in db.summary.tracked ==>
              TrackedCountWeight(EscrowUnfunded(bucket))(k, db.summary.tracked[k]) == if k in keys then 1 else 0
  {
    hide Held;
    var keys := SnapshotKeys(Unfunded(db, bucket), bucket);
    forall k | k in keys ensures k in db.summary.tracked { assert IsTracked(db, k); }
    forall k | k in db.summary.tracked
      ensures TrackedCountWeight(EscrowUnfunded(bucket))(k, db.summary.tracked[k]) == if k in keys then 1 else 0
    {
      assert IsTracked(db, k);
      if k.kind == bucket {
        var key := (k.source.stream, k.source.sender);
        assert k in keys <==> key in Unfunded(db, bucket);
      }
    }
  }

  /** In every run each stored count is the number of rows it speaks of. */
  lemma CountsAreRows(ops: seq<Op>, currency: Currency, grant: GrantStatus, allocation: AllocationStatus, reason: Reason, settled: bool, tag: MatchTag,
                      bucket: Kind)
    requires Valid(EMPTY, ops) && (bucket == EscrowDeposit || bucket == EscrowReserve)
    ensures var db := Run(EMPTY, ops);
            && CountOf(db.summary, Grants(currency, grant)) == |GrantsIn(db, currency, grant)|
            && CountOf(db.summary, Allocations(currency, allocation)) == |AllocationsIn(db, currency, allocation)|
            && CountOf(db.summary, Quarantines(reason)) == |QuarantinedFor(db, reason)|
            && CountOf(db.summary, Settlements(settled, tag)) == |SettlementsIn(db, settled, tag)|
            && CountOf(db.summary, SettlementsUnderpaid) == |Underpaid(db)|
            && CountOf(db.summary, AllocationsOverdrawn(currency)) == |Overdrawn(db, currency)|
            && CountOf(db.summary, EscrowUnfunded(bucket)) == |Unfunded(db, bucket)|
  {
    hide *;
    InvOf(ops);
    var db := Run(EMPTY, ops);
    CountsIn(db);
    RowsCounted(db, Grants(currency, grant));
    RowsCounted(db, Allocations(currency, allocation));
    RowsCounted(db, Quarantines(reason));
    RowsCounted(db, Settlements(settled, tag));
    RowsCounted(db, SettlementsUnderpaid);
    TrackedCounted(db, currency, bucket);
  }

  lemma CountsIn(db: DB)
    requires SummaryOk(db)
    ensures AmountsOk(db) && TrackedOk(db) && forall key :: CountOf(db.summary, key) == RebuiltCount(db, key)
  {
    hide AmountsOk, TrackedOk, CountOf, RebuiltCount;
  }

  // ---- Amounts ----

  /** The balances of one kind and currency; those of an allocation count when it exists in that currency. */
  ghost function BalanceIn(allocations: map<Id, Allocation>, kind: Kind, currency: Currency): (Account, int) -> int {
    (a: Account, n: int) =>
      if a.kind == kind && a.currency == currency &&
         (kind == GrantUnallocated || (a.owner in allocations && allocations[a.owner].currency == currency)) then n else 0
  }

  /** What allocations of a currency are short of. */
  ghost function ShortOf(allocations: map<Id, Allocation>, currency: Currency): (Account, int) -> int {
    (a: Account, n: int) =>
      if a.kind == AllocationAvailable && a.currency == currency && a.owner in allocations && allocations[a.owner].currency == currency && n < 0 then -n
      else 0
  }

  ghost function FaceSettled(): (LogId, SettlementRow) -> int { (id: LogId, row: SettlementRow) => if row.settled then row.data.face else 0 }

  ghost function PaidSettled(): (LogId, SettlementRow) -> int { (id: LogId, row: SettlementRow) => if row.settled then row.data.paid else 0 }

  ghost function UnpaidSettled(): (LogId, SettlementRow) -> int {
    (id: LogId, row: SettlementRow) => if row.settled && row.data.paid < row.data.face then row.data.face - row.data.paid else 0
  }

  /** The stored amount of one row of the table. */
  predicate Reported(db: DB, name: AmountName, currency: Currency, n: int) {
    (name, currency) in db.summary.amounts && db.summary.amounts[(name, currency)] == n
  }

  lemma BalanceReported(db: DB, kind: Kind, currency: Currency)
    requires AmountsOk(db) && (kind == GrantUnallocated || kind == AllocationAvailable || kind == AllocationSpent)
    ensures Reported(db, Sum(kind), currency, Total(db.books.balances, BalanceIn(db.budget.allocations, kind, currency)))
  {
    hide Total;
    var w, x := BalanceWeight(db.budget.allocations, Sum(kind), currency), BalanceIn(db.budget.allocations, kind, currency);
    forall a | a in db.books.balances ensures w(a, db.books.balances[a]) == x(a, db.books.balances[a]) {
      var n := db.books.balances[a];
      var eligible := Eligible(db.budget.allocations, a);
      assert w(a, n) == if a.currency == currency && a.kind == kind && (kind == GrantUnallocated || eligible) then n else 0;
      assert x(a, n) == if a.currency == currency && a.kind == kind && (kind == GrantUnallocated || eligible) then n else 0;
    }
    Same(db.books.balances, w, x);
    assert AmountRow(Sum(kind), currency);
  }

  lemma OverdrawReported(db: DB, currency: Currency)
    requires AmountsOk(db)
    ensures Reported(db, AllocationOverdraw, currency, Total(db.books.balances, ShortOf(db.budget.allocations, currency)))
  {
    hide Total;
    var w, x := BalanceWeight(db.budget.allocations, AllocationOverdraw, currency), ShortOf(db.budget.allocations, currency);
    forall a | a in db.books.balances ensures w(a, db.books.balances[a]) == x(a, db.books.balances[a]) {
      var n := db.books.balances[a];
      var eligible := Eligible(db.budget.allocations, a);
      assert w(a, n) == if a.currency == currency && a.kind == AllocationAvailable && eligible && n < 0 then -n else 0;
      assert x(a, n) == if a.currency == currency && a.kind == AllocationAvailable && eligible && n < 0 then -n else 0;
    }
    Same(db.books.balances, w, x);
    assert AmountRow(AllocationOverdraw, currency);
  }

  lemma PaymentsReported(db: DB)
    requires AmountsOk(db)
    ensures Reported(db, SettlementFaceValue, Eth, Total(db.escrow.settlements, FaceSettled()))
    ensures Reported(db, SettlementPaid, Eth, Total(db.escrow.settlements, PaidSettled()))
    ensures Reported(db, SettlementShortfall, Eth, Total(db.escrow.settlements, UnpaidSettled()))
  {
    hide Total;
    Same(db.escrow.settlements, SettlementWeight(SettlementFaceValue), FaceSettled());
    Same(db.escrow.settlements, SettlementWeight(SettlementPaid), PaidSettled());
    Same(db.escrow.settlements, SettlementWeight(SettlementShortfall), UnpaidSettled());
    assert AmountRow(SettlementFaceValue, Eth) && AmountRow(SettlementPaid, Eth) && AmountRow(SettlementShortfall, Eth);
  }

  /** The tracked rows of one bucket. */
  ghost function TrackedIn(bucket: Kind): (TrackedKey, Tracked) -> int {
    (k: TrackedKey, t: Tracked) => if k.kind == bucket then t.balance else 0
  }

  lemma BucketsReported(db: DB, bucket: Kind)
    requires AmountsOk(db) && (bucket == EscrowDeposit || bucket == EscrowReserve)
    ensures Reported(db, Sum(bucket), Eth, Total(db.summary.tracked, TrackedIn(bucket)))
  {
    hide Total;
    Same(db.summary.tracked, TrackedWeight(bucket), TrackedIn(bucket));
    assert AmountRow(Sum(bucket), Eth);
  }

  /** In every run each stored amount is the sum it names. */
  lemma AmountsAreSums(ops: seq<Op>, currency: Currency, bucket: Kind)
    requires Valid(EMPTY, ops) && (bucket == EscrowDeposit || bucket == EscrowReserve)
    ensures var db := Run(EMPTY, ops);
            && (forall kind :: kind in {GrantUnallocated, AllocationAvailable, AllocationSpent} ==>
                  Reported(db, Sum(kind), currency, Total(db.books.balances, BalanceIn(db.budget.allocations, kind, currency))))
            && Reported(db, AllocationOverdraw, currency, Total(db.books.balances, ShortOf(db.budget.allocations, currency)))
            && Reported(db, SettlementFaceValue, Eth, Total(db.escrow.settlements, FaceSettled()))
            && Reported(db, SettlementPaid, Eth, Total(db.escrow.settlements, PaidSettled()))
            && Reported(db, SettlementShortfall, Eth, Total(db.escrow.settlements, UnpaidSettled()))
            && Reported(db, Sum(bucket), Eth, Total(db.summary.tracked, TrackedIn(bucket)))
  {
    hide *;
    InvOf(ops);
    var db := Run(EMPTY, ops);
    CountsIn(db);
    forall kind | kind in {GrantUnallocated, AllocationAvailable, AllocationSpent}
      ensures Reported(db, Sum(kind), currency, Total(db.books.balances, BalanceIn(db.budget.allocations, kind, currency)))
    {
      BalanceReported(db, kind, currency);
    }
    OverdrawReported(db, currency);
    PaymentsReported(db);
    BucketsReported(db, bucket);
  }

  /** In every run exactly the overdrawn allocations and both buckets of every opened sender are tracked, each with its own balance. */
  lemma TrackedAreBalances(ops: seq<Op>, kind: Kind, currency: Currency, id: Id, stream: Id, sender: Id)
    requires Valid(EMPTY, ops)
    ensures var db := Run(EMPTY, ops);
            var k := TrackedKey(kind, AllocationSource(id), currency);
            var n := Held(db.books.balances, Account(kind, id, currency));
            && (k in db.summary.tracked <==>
                  kind == AllocationAvailable && id in db.budget.allocations && db.budget.allocations[id].currency == currency && n < 0)
            && (k in db.summary.tracked ==> db.summary.tracked[k] == Tracked(id, n))
    ensures var db := Run(EMPTY, ops);
            var k := TrackedKey(kind, SnapshotSource(stream, sender), currency);
            && (k in db.summary.tracked <==>
                  (kind == EscrowDeposit || kind == EscrowReserve) && currency == Eth && (stream, sender) in db.escrow.snapshots)
            && (k in db.summary.tracked ==> db.summary.tracked[k] == Tracked(sender, Held(db.books.balances, Account(kind, sender, currency))))
  {
    hide *;
    InvOf(ops);
    CountsIn(Run(EMPTY, ops));
    TrackedMeans(Run(EMPTY, ops), TrackedKey(kind, AllocationSource(id), currency));
    TrackedMeans(Run(EMPTY, ops), TrackedKey(kind, SnapshotSource(stream, sender), currency));
  }

  lemma TrackedMeans(db: DB, k: TrackedKey)
    requires TrackedOk(db)
    ensures match k.source
            case AllocationSource(id) =>
              var n := Held(db.books.balances, Account(k.kind, id, k.currency));
              && (k in db.summary.tracked <==>
                    k.kind == AllocationAvailable && id in db.budget.allocations && db.budget.allocations[id].currency == k.currency && n < 0)
              && (k in db.summary.tracked ==> db.summary.tracked[k] == Tracked(id, n))
            case SnapshotSource(stream, sender) =>
              && (k in db.summary.tracked <==>
                    (k.kind == EscrowDeposit || k.kind == EscrowReserve) && k.currency == Eth && (stream, sender) in db.escrow.snapshots)
              && (k in db.summary.tracked ==> db.summary.tracked[k] == Tracked(sender, Held(db.books.balances, Account(k.kind, sender, k.currency))))
  {
    hide Held;
    assert k in db.summary.tracked <==> IsTracked(db, k);
  }
}

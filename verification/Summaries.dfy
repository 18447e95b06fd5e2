/**
 * The summaries and their rebuild: migrations/003_metric_summaries.sql and
 * migrations/metric_amounts.go define each summary as an aggregate of the source
 * tables; the lemmas show that the incremental updates keep them equal.
 */
module Summaries {
  import opened Results
  import opened Totals
  import opened Blocks
  import opened Tables
  import opened Books

  // ---- The rebuild ----

  predicate Eligible(allocations: map<Id, Allocation>, a: Account) {
    a.owner in allocations && allocations[a.owner].currency == a.currency
  }

  /** What one cached balance adds to a monetary summary. */
  ghost function BalanceWeight(allocations: map<Id, Allocation>, name: AmountName, currency: Currency): (Account, int) -> int {
    (a: Account, balance: int) =>
      if a.currency != currency then 0
      else if name == AllocationOverdraw then
        if a.kind == AllocationAvailable && Eligible(allocations, a) then Overdraw(balance) else 0
      else if name == Sum(GrantUnallocated) then
        if a.kind == GrantUnallocated then balance else 0
      else if name == Sum(a.kind) && Eligible(allocations, a) then balance else 0
  }

  /** What one tracked balance adds to an escrow total. */
  ghost function TrackedWeight(kind: Kind): (TrackedKey, Tracked) -> int {
    (k: TrackedKey, t: Tracked) => if k.kind == kind then t.balance else 0
  }

  function Shortfall(face: int, paid: int): int {
    if face > paid then face - paid else 0
  }

  function SettlementAmount(name: AmountName, d: SettlementData): int {
    match name
    case SettlementFaceValue => d.face
    case SettlementPaid => d.paid
    case _ => Shortfall(d.face, d.paid)
  }

  ghost function SettlementWeight(name: AmountName): (LogId, SettlementRow) -> int {
    (id: LogId, row: SettlementRow) => if row.settled then SettlementAmount(name, row.data) else 0
  }

  predicate FromSettlements(name: AmountName) {
    name.SettlementFaceValue? || name.SettlementPaid? || name.SettlementShortfall?
  }

  predicate EscrowKind(kind: Kind) { kind == EscrowDeposit || kind == EscrowReserve }

  predicate FromTracked(name: AmountName) {
    name.Sum? && EscrowKind(name.kind)
  }

  /** The rows migration 003 creates in metric_amounts. */
  predicate AmountRow(name: AmountName, currency: Currency) {
    if FromSettlements(name) || FromTracked(name) then currency == Eth
    else name == AllocationOverdraw || name == Sum(GrantUnallocated) || name == Sum(AllocationAvailable) || name == Sum(AllocationSpent)
  }

  /** backfillMetricAmounts for one row. */
  ghost function RebuiltAmount(db: DB, name: AmountName, currency: Currency): int {
    if FromSettlements(name) then Total(db.escrow.settlements, SettlementWeight(name))
    else if FromTracked(name) then Total(db.summary.tracked, TrackedWeight(name.kind))
    else Total(db.books.balances, BalanceWeight(db.budget.allocations, name, currency))
  }

  ghost function GrantWeight(key: CountKey): (Id, Grant) -> int {
    (id: Id, g: Grant) => BoolCount(key == Grants(g.currency, g.status))
  }

  ghost function AllocationWeight(key: CountKey): (Id, Allocation) -> int {
    (id: Id, a: Allocation) => BoolCount(key == Allocations(a.currency, a.status))
  }

  ghost function QuarantineWeight(key: CountKey): (Position, UsageRow) -> int {
    (p: Position, row: UsageRow) => BoolCount(row.status == Quarantined && key == Quarantines(row.reason))
  }

  function Tag(m: Match): MatchTag {
    match m
    case Unmatched => UnmatchedTag
    case Matched(_) => MatchedTag
    case Ambiguous => AmbiguousTag
  }

  ghost function SettlementCountWeight(key: CountKey): (LogId, SettlementRow) -> int {
    (id: LogId, row: SettlementRow) =>
      BoolCount(key == Settlements(row.settled, Tag(row.matching)) ||
                (key == SettlementsUnderpaid && row.settled && Shortfall(row.data.face, row.data.paid) > 0))
  }

  ghost function TrackedCountWeight(key: CountKey): (TrackedKey, Tracked) -> int {
    (k: TrackedKey, t: Tracked) =>
      if k.kind == AllocationAvailable && key == AllocationsOverdrawn(k.currency) then 1
      else if EscrowKind(k.kind) && t.balance == 0 && key == EscrowUnfunded(k.kind) then 1
      else 0
  }

  /** The aggregate of migration 003 for one count. */
  ghost function RebuiltCount(db: DB, key: CountKey): int {
    match key
    case Grants(_, _) => Total(db.budget.grants, GrantWeight(key))
    case Allocations(_, _) => Total(db.budget.allocations, AllocationWeight(key))
    case Quarantines(_) => Total(db.usage.rows, QuarantineWeight(key))
    case Settlements(_, _) => Total(db.escrow.settlements, SettlementCountWeight(key))
    case SettlementsUnderpaid => Total(db.escrow.settlements, SettlementCountWeight(key))
    case AllocationsOverdrawn(_) => Total(db.summary.tracked, TrackedCountWeight(key))
    case EscrowUnfunded(_) => Total(db.summary.tracked, TrackedCountWeight(key))
  }

  /** Membership of metric_balances: overdrawn eligible allocations and all escrow snapshots. */
  predicate IsTracked(db: DB, k: TrackedKey) {
    match k.source
    case AllocationSource(id) =>
      k.kind == AllocationAvailable && Eligible(db.budget.allocations, Account(k.kind, id, k.currency)) &&
      Balance(db, k.kind, id, k.currency) < 0
    case SnapshotSource(stream, sender) =>
      EscrowKind(k.kind) && k.currency == Eth && (stream, sender) in db.escrow.snapshots
  }

  function TrackedOwner(source: Source): Id {
    match source
    case AllocationSource(id) => id
    case SnapshotSource(_, sender) => sender
  }

  function RebuiltTracked(db: DB, k: TrackedKey): Tracked {
    Tracked(TrackedOwner(k.source), Balance(db, k.kind, TrackedOwner(k.source), k.currency))
  }

  function CountOf(s: Summary, key: CountKey): int {
    if key in s.counts then s.counts[key] else 0
  }

  ghost predicate AmountsOk(db: DB) {
    forall name, currency :: AmountRow(name, currency) ==>
      (name, currency) in db.summary.amounts && db.summary.amounts[(name, currency)] == RebuiltAmount(db, name, currency)
  }

  /** Counts agree with the rebuild, up to rows that hold zero. */
  ghost predicate CountsOk(db: DB) {
    forall key :: CountOf(db.summary, key) == RebuiltCount(db, key)
  }

  ghost predicate TrackedOk(db: DB) {
    && (forall k :: k in db.summary.tracked <==> IsTracked(db, k))
    && forall k :: k in db.summary.tracked ==> db.summary.tracked[k] == RebuiltTracked(db, k)
  }

  /** metric_amounts, metric_counts and metric_balances are what a rebuild would compute. */
  ghost predicate SummaryOk(db: DB) {
    AmountsOk(db) && CountsOk(db) && TrackedOk(db)
  }

  // ---- Counts never go below zero ----

  lemma ChangeCountEffect(s: Summary, key: CountKey, delta: int)
    requires CountOf(s, key) + delta >= 0
    ensures ChangeCount(s, key, delta).Ok?
    ensures var t := ChangeCount(s, key, delta).value;
            t.amounts == s.amounts && t.tracked == s.tracked &&
            forall k :: CountOf(t, k) == CountOf(s, k) + (if k == key then delta else 0)
  {
  }

  lemma RebuiltCountNonNegative(db: DB, key: CountKey)
    ensures RebuiltCount(db, key) >= 0
  {
    match key
    case Grants(_, _) => NonNegative(db.budget.grants, GrantWeight(key));
    case Allocations(_, _) => NonNegative(db.budget.allocations, AllocationWeight(key));
    case Quarantines(_) => NonNegative(db.usage.rows, QuarantineWeight(key));
    case Settlements(_, _) => NonNegative(db.escrow.settlements, SettlementCountWeight(key));
    case SettlementsUnderpaid => NonNegative(db.escrow.settlements, SettlementCountWeight(key));
    case AllocationsOverdrawn(_) => TrackedCountNonNegative(db.summary.tracked, key);
    case EscrowUnfunded(_) => TrackedCountNonNegative(db.summary.tracked, key);
  }

  lemma TrackedCountNonNegative(tracked: map<TrackedKey, Tracked>, key: CountKey)
    ensures Total(tracked, TrackedCountWeight(key)) >= 0
  {
    var w := TrackedCountWeight(key);
    NonNegative(tracked, w);
  }

  // ---- A balance change keeps the summaries ----

  /** How much a balance-derived summary moves with one balance. */
  ghost function Drift(db: DB, a: Account, delta: int, name: AmountName, currency: Currency): int {
    var w := BalanceWeight(db.budget.allocations, name, currency);
    w(a, Held(db.books.balances, a) + delta) - w(a, Held(db.books.balances, a))
  }

  predicate FromBalances(name: AmountName) {
    !FromSettlements(name) && !FromTracked(name)
  }

  ghost function WithBalance(db: DB, a: Account, delta: int): DB {
    db.(books := db.books.(balances := db.books.balances[a := Held(db.books.balances, a) + delta]))
  }

  /** The rebuilt balance-derived totals drift alike. */
  lemma RebuiltDrift(db: DB, a: Account, delta: int, name: AmountName, currency: Currency)
    requires FromBalances(name)
    ensures RebuiltAmount(WithBalance(db, a, delta), name, currency) == RebuiltAmount(db, name, currency) + Drift(db, a, delta, name, currency)
  {
    Updated(db.books.balances, BalanceWeight(db.budget.allocations, name, currency), a, Held(db.books.balances, a) + delta);
  }

  lemma AmountsFollow(db: DB, a: Account, delta: int, s: Summary)
    requires AmountsOk(db) && s.tracked == db.summary.tracked
    requires forall name, currency :: AmountRow(name, currency) ==>
               (name, currency) in s.amounts &&
               s.amounts[(name, currency)] == db.summary.amounts[(name, currency)] +
                 (if FromBalances(name) then Drift(db, a, delta, name, currency) else 0)
    ensures AmountsOk(WithBalance(db, a, delta).(summary := s))
  {
    var db' := WithBalance(db, a, delta).(summary := s);
    forall name, currency | AmountRow(name, currency)
      ensures s.amounts[(name, currency)] == RebuiltAmount(db', name, currency)
    {
      if FromBalances(name) {
        RebuiltDrift(db, a, delta, name, currency);
        assert RebuiltAmount(db', name, currency) == RebuiltAmount(WithBalance(db, a, delta), name, currency);
      }
    }
  }

  function Credited(s: Summary, name: AmountName, currency: Currency, delta: int): Summary
    requires (name, currency) in s.amounts
  {
    s.(amounts := s.amounts[(name, currency) := s.amounts[(name, currency)] + delta])
  }

  lemma CreditedEffect(s: Summary, name: AmountName, currency: Currency, delta: int)
    requires (name, currency) in s.amounts
    ensures ChangeAmount(s, name, currency, delta) == Ok(Credited(s, name, currency, delta))
  {
    assert s.amounts[(name, currency) := s.amounts[(name, currency)]] == s.amounts;
  }

  /** Adjust writes the balance, and the summaries as updateBalanceMetrics leaves them. */
  lemma AdjustShape(db: DB, a: Account, delta: int)
    ensures var before := Held(db.books.balances, a);
            var r := UpdateBalanceMetrics(db.summary, db.budget.allocations, a, before, before + delta);
            Adjust(db, a, delta) == if r.Err? then Err(r.error) else Ok(WithBalance(db, a, delta).(summary := r.value))
  {
    hide UpdateBalanceMetrics;
  }

  // Grant balances, spent balances and accounts without summaries.

  predicate Summed(db: DB, a: Account) {
    a.kind == GrantUnallocated || (a.kind == AllocationSpent && Eligible(db.budget.allocations, a))
  }

  lemma PlainAdjustResult(db: DB, a: Account, delta: int)
    requires AmountsOk(db) && a.kind != AllocationAvailable && !EscrowKind(a.kind)
    ensures Summed(db, a) ==> (Sum(a.kind), a.currency) in db.summary.amounts
    ensures Adjust(db, a, delta) ==
            Ok(WithBalance(db, a, delta).(summary := if Summed(db, a) then Credited(db.summary, Sum(a.kind), a.currency, delta) else db.summary))
  {
    if Summed(db, a) {
      assert AmountRow(Sum(a.kind), a.currency);
      CreditedEffect(db.summary, Sum(a.kind), a.currency, delta);
    }
  }

  lemma PlainDrift(db: DB, a: Account, delta: int, name: AmountName, currency: Currency)
    requires a.kind != AllocationAvailable && !EscrowKind(a.kind) && AmountRow(name, currency) && FromBalances(name)
    ensures Drift(db, a, delta, name, currency) ==
            if Summed(db, a) && name == Sum(a.kind) && currency == a.currency then delta else 0
  {
  }

  lemma PlainAdjust(db: DB, a: Account, delta: int)
    requires SummaryOk(db) && a.kind != AllocationAvailable && !EscrowKind(a.kind)
    ensures Adjust(db, a, delta).Ok? && SummaryOk(Adjust(db, a, delta).value)
  {
    PlainAdjustResult(db, a, delta);
    var db' := Adjust(db, a, delta).value;
    assert AmountsOk(db') by {
      forall name, currency | AmountRow(name, currency)
        ensures (name, currency) in db'.summary.amounts
        ensures db'.summary.amounts[(name, currency)] == db.summary.amounts[(name, currency)] +
                  (if FromBalances(name) then Drift(db, a, delta, name, currency) else 0)
      {
        if FromBalances(name) { PlainDrift(db, a, delta, name, currency); }
      }
      AmountsFollow(db, a, delta, db'.summary);
    }
    assert CountsOk(db') by { CountsFrame(db, db'); }
    assert TrackedOk(db') by {
      assert forall k :: IsTracked(db, k) == IsTracked(db', k) && RebuiltTracked(db, k).owner == RebuiltTracked(db', k).owner;
    }
  }

  /** Counts do not read balances or amounts. */
  lemma CountsFrame(db: DB, db': DB)
    requires CountsOk(db)
    requires db'.summary.counts == db.summary.counts && db'.summary.tracked == db.summary.tracked
    requires db'.budget.grants == db.budget.grants && db'.budget.allocations == db.budget.allocations
    requires db'.usage.rows == db.usage.rows && db'.escrow.settlements == db.escrow.settlements
    ensures CountsOk(db')
  {
    forall key ensures CountOf(db'.summary, key) == RebuiltCount(db', key) {
      assert RebuiltCount(db', key) == RebuiltCount(db, key);
    }
  }

  // Available balances, with their overdraw.

  ghost function TrackedAvailable(s: Summary, a: Account, next: int): map<TrackedKey, Tracked> {
    var key := TrackedKey(a.kind, AllocationSource(a.owner), a.currency);
    if next < 0 then s.tracked[key := Tracked(a.owner, next)] else s.tracked - {key}
  }

  ghost function OverdrawnDelta(before: int, next: int): int {
    BoolCount(next < 0) - BoolCount(before < 0)
  }

  lemma AvailableMetrics(s: Summary, allocations: map<Id, Allocation>, a: Account, before: int, next: int)
    requires a.kind == AllocationAvailable && Eligible(allocations, a)
    requires (Sum(a.kind), a.currency) in s.amounts && (AllocationOverdraw, a.currency) in s.amounts
    requires CountOf(s, AllocationsOverdrawn(a.currency)) + OverdrawnDelta(before, next) >= 0
    requires TrackedKey(a.kind, AllocationSource(a.owner), a.currency) in s.tracked <==> before < 0
    ensures var r := UpdateBalanceMetrics(s, allocations, a, before, next);
            && r.Ok?
            && r.value.amounts == Credited(Credited(s, Sum(a.kind), a.currency, next - before),
                                           AllocationOverdraw, a.currency, Overdraw(next) - Overdraw(before)).amounts
            && r.value.tracked == TrackedAvailable(s, a, next)
            && (forall k :: CountOf(r.value, k) == CountOf(s, k) +
                 (if k == AllocationsOverdrawn(a.currency) then OverdrawnDelta(before, next) else 0))
  {
    CreditedEffect(s, Sum(a.kind), a.currency, next - before);
    var s1 := Credited(s, Sum(a.kind), a.currency, next - before);
    CreditedEffect(s1, AllocationOverdraw, a.currency, Overdraw(next) - Overdraw(before));
    var s2 := Credited(s1, AllocationOverdraw, a.currency, Overdraw(next) - Overdraw(before));
    ChangeCountEffect(s2, AllocationsOverdrawn(a.currency), OverdrawnDelta(before, next));
    var key := TrackedKey(a.kind, AllocationSource(a.owner), a.currency);
    if key !in s.tracked { assert s.tracked - {key} == s.tracked; }
  }

  lemma AvailableAdjustResult(db: DB, a: Account, delta: int)
    requires AmountsOk(db) && TrackedOk(db) && CountsOk(db)
    requires a.kind == AllocationAvailable && Eligible(db.budget.allocations, a)
    ensures Adjust(db, a, delta).Ok?
    ensures var before := Held(db.books.balances, a);
            var next := before + delta;
            var s := Adjust(db, a, delta).value.summary;
            && (Sum(a.kind), a.currency) in db.summary.amounts && (AllocationOverdraw, a.currency) in db.summary.amounts
            && s.amounts == Credited(Credited(db.summary, Sum(a.kind), a.currency, delta),
                                     AllocationOverdraw, a.currency, Overdraw(next) - Overdraw(before)).amounts
            && s.tracked == TrackedAvailable(db.summary, a, next)
            && (forall k :: CountOf(s, k) == CountOf(db.summary, k) +
                 (if k == AllocationsOverdrawn(a.currency) then OverdrawnDelta(before, next) else 0))
  {
    AmountPresent(db, Sum(a.kind), a.currency);
    AmountPresent(db, AllocationOverdraw, a.currency);
    AvailableTracked(db, a);
    OverdrawnCounted(db, a, Held(db.books.balances, a) + delta);
    AvailableReady(db, a, delta);
  }

  lemma AmountPresent(db: DB, name: AmountName, currency: Currency)
    requires AmountsOk(db) && AmountRow(name, currency)
    ensures (name, currency) in db.summary.amounts
  {
  }

  lemma AvailableTracked(db: DB, a: Account)
    requires TrackedOk(db) && a.kind == AllocationAvailable && Eligible(db.budget.allocations, a)
    ensures TrackedKey(a.kind, AllocationSource(a.owner), a.currency) in db.summary.tracked <==> Held(db.books.balances, a) < 0
  {
    assert IsTracked(db, TrackedKey(a.kind, AllocationSource(a.owner), a.currency)) <==> Held(db.books.balances, a) < 0;
  }

  lemma AvailableReady(db: DB, a: Account, delta: int)
    requires a.kind == AllocationAvailable && Eligible(db.budget.allocations, a)
    requires (Sum(a.kind), a.currency) in db.summary.amounts && (AllocationOverdraw, a.currency) in db.summary.amounts
    requires TrackedKey(a.kind, AllocationSource(a.owner), a.currency) in db.summary.tracked <==> Held(db.books.balances, a) < 0
    requires CountOf(db.summary, AllocationsOverdrawn(a.currency)) +
             OverdrawnDelta(Held(db.books.balances, a), Held(db.books.balances, a) + delta) >= 0
    ensures Adjust(db, a, delta).Ok?
    ensures var before := Held(db.books.balances, a);
            var next := before + delta;
            var s := Adjust(db, a, delta).value.summary;
            && s.amounts == Credited(Credited(db.summary, Sum(a.kind), a.currency, delta),
                                     AllocationOverdraw, a.currency, Overdraw(next) - Overdraw(before)).amounts
            && s.tracked == TrackedAvailable(db.summary, a, next)
            && (forall k :: CountOf(s, k) == CountOf(db.summary, k) +
                 (if k == AllocationsOverdrawn(a.currency) then OverdrawnDelta(before, next) else 0))
  {
    hide *;
    var before := Held(db.books.balances, a);
    AvailableMetrics(db.summary, db.budget.allocations, a, before, before + delta);
    AdjustShape(db, a, delta);
    assert (before + delta) - before == delta;
  }

  lemma OverdrawnCounted(db: DB, a: Account, next: int)
    requires TrackedOk(db) && CountsOk(db)
    requires a.kind == AllocationAvailable && Eligible(db.budget.allocations, a)
    ensures CountOf(db.summary, AllocationsOverdrawn(a.currency)) + OverdrawnDelta(Held(db.books.balances, a), next) >= 0
  {
    var count := AllocationsOverdrawn(a.currency);
    RebuiltCountNonNegative(db, count);
    if Held(db.books.balances, a) < 0 {
      var key := TrackedKey(a.kind, AllocationSource(a.owner), a.currency);
      assert IsTracked(db, key);
      AtLeastShare(db.summary.tracked, TrackedCountWeight(count), key);
    }
  }

  /** Totals over metric_balances after one overdrawn row appears, moves or goes. */
  lemma TrackedAvailableTotal(db: DB, a: Account, next: int, w: (TrackedKey, Tracked) -> int)
    ensures var key := TrackedKey(a.kind, AllocationSource(a.owner), a.currency);
            Total(TrackedAvailable(db.summary, a, next), w) ==
            Total(db.summary.tracked, w) - Share(db.summary.tracked, w, key) + (if next < 0 then w(key, Tracked(a.owner, next)) else 0)
  {
    var key := TrackedKey(a.kind, AllocationSource(a.owner), a.currency);
    if next < 0 {
      Updated(db.summary.tracked, w, key, Tracked(a.owner, next));
    } else if key in db.summary.tracked {
      Without(db.summary.tracked, w, key);
    } else {
      assert db.summary.tracked - {key} == db.summary.tracked;
    }
  }

  lemma AvailableDrift(db: DB, a: Account, delta: int, name: AmountName, currency: Currency)
    requires a.kind == AllocationAvailable && Eligible(db.budget.allocations, a) && AmountRow(name, currency) && FromBalances(name)
    ensures var before := Held(db.books.balances, a);
            Drift(db, a, delta, name, currency) ==
            if currency != a.currency then 0
            else if name == Sum(a.kind) then delta
            else if name == AllocationOverdraw then Overdraw(before + delta) - Overdraw(before)
            else 0
  {
  }

  lemma AvailableKeepsAmounts(db: DB, a: Account, delta: int)
    requires SummaryOk(db) && a.kind == AllocationAvailable && Eligible(db.budget.allocations, a)
    requires Adjust(db, a, delta).Ok?
    ensures AmountsOk(Adjust(db, a, delta).value)
  {
    hide Adjust, UpdateBalanceMetrics, TrackedOk, CountsOk;
    AvailableAdjustResult(db, a, delta);
    AdjustShape(db, a, delta);
    var db' := Adjust(db, a, delta).value;
    forall name, currency | AmountRow(name, currency)
      ensures (name, currency) in db'.summary.amounts
      ensures db'.summary.amounts[(name, currency)] == RebuiltAmount(db', name, currency)
    {
      if FromBalances(name) {
        AvailableDrift(db, a, delta, name, currency);
        RebuiltDrift(db, a, delta, name, currency);
        assert RebuiltAmount(db', name, currency) == RebuiltAmount(WithBalance(db, a, delta), name, currency);
      } else if FromTracked(name) {
        TrackedAvailableTotal(db, a, Held(db.books.balances, a) + delta, TrackedWeight(name.kind));
      }
    }
  }

  lemma AvailableKeepsCount(db: DB, a: Account, delta: int, db': DB, count: CountKey)
    requires a.kind == AllocationAvailable
    requires TrackedKey(a.kind, AllocationSource(a.owner), a.currency) in db.summary.tracked <==> Held(db.books.balances, a) < 0
    requires db' == WithBalance(db, a, delta).(summary := db'.summary)
    requires db'.summary.tracked == TrackedAvailable(db.summary, a, Held(db.books.balances, a) + delta)
    ensures RebuiltCount(db', count) == RebuiltCount(db, count) +
              (if count == AllocationsOverdrawn(a.currency) then
                 OverdrawnDelta(Held(db.books.balances, a), Held(db.books.balances, a) + delta)
               else 0)
  {
    hide GrantWeight, AllocationWeight, QuarantineWeight, SettlementCountWeight, TrackedAvailable, Total, Held;
    if count.AllocationsOverdrawn? || count.EscrowUnfunded? {
      var key := TrackedKey(a.kind, AllocationSource(a.owner), a.currency);
      TrackedAvailableTotal(db, a, Held(db.books.balances, a) + delta, TrackedCountWeight(count));
      assert key.kind == AllocationAvailable && !EscrowKind(key.kind);
      if count.AllocationsOverdrawn? && count.currency == a.currency {
        assert count == AllocationsOverdrawn(key.currency);
      } else {
        assert count != AllocationsOverdrawn(key.currency);
      }
    }
  }

  lemma AvailableKeepsCounts(db: DB, a: Account, delta: int)
    requires SummaryOk(db) && a.kind == AllocationAvailable && Eligible(db.budget.allocations, a)
    requires Adjust(db, a, delta).Ok?
    ensures CountsOk(Adjust(db, a, delta).value)
  {
    hide Adjust, UpdateBalanceMetrics, AmountsOk, TrackedOk, RebuiltCount, TrackedAvailable, WithBalance, CountOf;
    AvailableAdjustResult(db, a, delta);
    AdjustShape(db, a, delta);
    AvailableTracked(db, a);
    var db' := Adjust(db, a, delta).value;
    forall count ensures CountOf(db'.summary, count) == RebuiltCount(db', count) {
      AvailableKeepsCount(db, a, delta, db', count);
    }
  }

  lemma AvailableKeepsTracked(db: DB, a: Account, delta: int)
    requires SummaryOk(db) && a.kind == AllocationAvailable && Eligible(db.budget.allocations, a)
    requires Adjust(db, a, delta).Ok?
    ensures TrackedOk(Adjust(db, a, delta).value)
  {
    hide Adjust, UpdateBalanceMetrics, AmountsOk, CountsOk;
    AvailableAdjustResult(db, a, delta);
    AdjustShape(db, a, delta);
    var db' := Adjust(db, a, delta).value;
    var key := TrackedKey(a.kind, AllocationSource(a.owner), a.currency);
    forall k ensures k in db'.summary.tracked <==> IsTracked(db', k)
      ensures k in db'.summary.tracked ==> db'.summary.tracked[k] == RebuiltTracked(db', k)
    {
      if k != key {
        assert IsTracked(db', k) == IsTracked(db, k);
        assert IsTracked(db, k) ==> RebuiltTracked(db', k) == RebuiltTracked(db, k);
      }
    }
  }

  lemma AvailableAdjust(db: DB, a: Account, delta: int)
    requires SummaryOk(db) && a.kind == AllocationAvailable
    ensures Adjust(db, a, delta).Ok? && SummaryOk(Adjust(db, a, delta).value)
  {
    if Eligible(db.budget.allocations, a) {
      AvailableAdjustResult(db, a, delta);
      AvailableKeepsAmounts(db, a, delta);
      AvailableKeepsCounts(db, a, delta);
      AvailableKeepsTracked(db, a, delta);
    } else {
      var db' := Adjust(db, a, delta).value;
      assert AmountsOk(db') by { AmountsFollow(db, a, delta, db.summary); }
      assert CountsOk(db') by { CountsFrame(db, db'); }
      assert TrackedOk(db') by {
        assert forall k :: IsTracked(db, k) == IsTracked(db', k);
      }
    }
  }

  // Escrow balances, tracked once per snapshot of their owner.

  lemma EscrowMetrics(s: Summary, allocations: map<Id, Allocation>, a: Account, before: int, next: int)
    requires EscrowKind(a.kind) && a.currency == Eth && (Sum(a.kind), Eth) in s.amounts
    requires CountOf(s, EscrowUnfunded(a.kind)) + UnfundedDelta(before, next) * |TrackedRows(s, a.kind, a.owner, Eth)| >= 0
    ensures UpdateBalanceMetrics(s, allocations, a, before, next) == UpdateEscrowMetrics(s, a, before, next)
    ensures var r := UpdateEscrowMetrics(s, a, before, next);
            var n := |TrackedRows(s, a.kind, a.owner, Eth)|;
            && r.Ok?
            && r.value.tracked == Retracked(s, a.kind, a.owner, Eth, next)
            && r.value.amounts == Credited(s, Sum(a.kind), Eth, (next - before) * n).amounts
            && (forall k :: CountOf(r.value, k) == CountOf(s, k) +
                 (if k == EscrowUnfunded(a.kind) then UnfundedDelta(before, next) * n else 0))
  {
    var n := |TrackedRows(s, a.kind, a.owner, Eth)|;
    var s1 := s.(tracked := Retracked(s, a.kind, a.owner, Eth, next));
    CreditedEffect(s1, Sum(a.kind), Eth, (next - before) * n);
    var s2 := Credited(s1, Sum(a.kind), Eth, (next - before) * n);
    ChangeCountEffect(s2, EscrowUnfunded(a.kind), UnfundedDelta(before, next) * n);
    assert n * UnfundedDelta(before, next) == UnfundedDelta(before, next) * n;
    if n == 0 {
      assert (next - before) * n == 0 && UnfundedDelta(before, next) * n == 0;
      assert s.amounts[(Sum(a.kind), Eth) := s.amounts[(Sum(a.kind), Eth)]] == s.amounts;
    }
  }

  lemma EscrowAdjustResult(db: DB, a: Account, delta: int)
    requires AmountsOk(db) && TrackedOk(db) && CountsOk(db) && EscrowKind(a.kind) && a.currency == Eth
    ensures Adjust(db, a, delta).Ok?
    ensures var before := Held(db.books.balances, a);
            var s := Adjust(db, a, delta).value.summary;
            var rows := TrackedRows(db.summary, a.kind, a.owner, Eth);
            && s.tracked == Retracked(db.summary, a.kind, a.owner, Eth, before + delta)
            && (Sum(a.kind), Eth) in db.summary.amounts
            && s.amounts == Credited(db.summary, Sum(a.kind), Eth, delta * |rows|).amounts
            && (forall k :: CountOf(s, k) == CountOf(db.summary, k) +
                 (if k == EscrowUnfunded(a.kind) then UnfundedDelta(before, before + delta) * |rows| else 0))
  {
    AmountPresent(db, Sum(a.kind), Eth);
    UnfundedCounted(db, a, Held(db.books.balances, a) + delta);
    EscrowReady(db, a, delta);
  }

  lemma EscrowReady(db: DB, a: Account, delta: int)
    requires EscrowKind(a.kind) && a.currency == Eth && (Sum(a.kind), Eth) in db.summary.amounts
    requires CountOf(db.summary, EscrowUnfunded(a.kind)) +
             UnfundedDelta(Held(db.books.balances, a), Held(db.books.balances, a) + delta) * |TrackedRows(db.summary, a.kind, a.owner, Eth)| >= 0
    ensures Adjust(db, a, delta).Ok?
    ensures var before := Held(db.books.balances, a);
            var s := Adjust(db, a, delta).value.summary;
            var n := |TrackedRows(db.summary, a.kind, a.owner, Eth)|;
            && s.tracked == Retracked(db.summary, a.kind, a.owner, Eth, before + delta)
            && s.amounts == Credited(db.summary, Sum(a.kind), Eth, delta * n).amounts
            && (forall k :: CountOf(s, k) == CountOf(db.summary, k) +
                 (if k == EscrowUnfunded(a.kind) then UnfundedDelta(before, before + delta) * n else 0))
  {
    hide *;
    var before := Held(db.books.balances, a);
    EscrowMetrics(db.summary, db.budget.allocations, a, before, before + delta);
    AdjustShape(db, a, delta);
    assert (before + delta) - before == delta;
  }

  lemma UnfundedCounted(db: DB, a: Account, next: int)
    requires TrackedOk(db) && CountsOk(db) && EscrowKind(a.kind) && a.currency == Eth
    ensures CountOf(db.summary, EscrowUnfunded(a.kind)) +
            UnfundedDelta(Held(db.books.balances, a), next) * |TrackedRows(db.summary, a.kind, a.owner, Eth)| >= 0
  {
    RetrackedCount(db, a, next, EscrowUnfunded(a.kind));
    TrackedCountNonNegative(Retracked(db.summary, a.kind, a.owner, Eth, next), EscrowUnfunded(a.kind));
  }

  ghost function UnfundedDelta(before: int, next: int): int {
    BoolCount(next == 0) - BoolCount(before == 0)
  }

  lemma RetrackedCount(db: DB, a: Account, next: int, key: CountKey)
    requires TrackedOk(db) && EscrowKind(a.kind) && a.currency == Eth
    ensures Total(Retracked(db.summary, a.kind, a.owner, Eth, next), TrackedCountWeight(key)) ==
            Total(db.summary.tracked, TrackedCountWeight(key)) +
            (if key == EscrowUnfunded(a.kind) then UnfundedDelta(Held(db.books.balances, a), next) * |TrackedRows(db.summary, a.kind, a.owner, Eth)| else 0)
  {
    var rows := TrackedRows(db.summary, a.kind, a.owner, Eth);
    var d := if key == EscrowUnfunded(a.kind) then UnfundedDelta(Held(db.books.balances, a), next) else 0;
    forall k | k in rows ensures db.summary.tracked[k].balance == Held(db.books.balances, a) {
      assert db.summary.tracked[k] == RebuiltTracked(db, k);
    }
    Shifted(db.summary.tracked, Retracked(db.summary, a.kind, a.owner, Eth, next), TrackedCountWeight(key), rows, d);
  }

  lemma RetrackedSum(db: DB, a: Account, delta: int, kind: Kind)
    requires TrackedOk(db) && EscrowKind(a.kind) && a.currency == Eth
    ensures Total(Retracked(db.summary, a.kind, a.owner, Eth, Held(db.books.balances, a) + delta), TrackedWeight(kind)) ==
            Total(db.summary.tracked, TrackedWeight(kind)) +
            (if kind == a.kind then delta * |TrackedRows(db.summary, a.kind, a.owner, Eth)| else 0)
  {
    var rows := TrackedRows(db.summary, a.kind, a.owner, Eth);
    forall k | k in rows ensures db.summary.tracked[k].balance == Held(db.books.balances, a) {
      assert db.summary.tracked[k] == RebuiltTracked(db, k);
    }
    Shifted(db.summary.tracked, Retracked(db.summary, a.kind, a.owner, Eth, Held(db.books.balances, a) + delta),
            TrackedWeight(kind), rows, if kind == a.kind then delta else 0);
  }

  lemma EscrowKeepsAmounts(db: DB, a: Account, delta: int)
    requires SummaryOk(db) && EscrowKind(a.kind) && a.currency == Eth && Adjust(db, a, delta).Ok?
    ensures AmountsOk(Adjust(db, a, delta).value)
  {
    hide Adjust, UpdateBalanceMetrics, CountsOk;
    EscrowAdjustResult(db, a, delta);
    AdjustShape(db, a, delta);
    var db' := Adjust(db, a, delta).value;
    forall name, currency | AmountRow(name, currency)
      ensures (name, currency) in db'.summary.amounts
      ensures db'.summary.amounts[(name, currency)] == RebuiltAmount(db', name, currency)
    {
      if FromBalances(name) {
        RebuiltDrift(db, a, delta, name, currency);
        assert RebuiltAmount(db', name, currency) == RebuiltAmount(WithBalance(db, a, delta), name, currency);
      } else if FromTracked(name) {
        RetrackedSum(db, a, delta, name.kind);
      }
    }
  }

  lemma EscrowKeepsCounts(db: DB, a: Account, delta: int)
    requires SummaryOk(db) && EscrowKind(a.kind) && a.currency == Eth && Adjust(db, a, delta).Ok?
    ensures CountsOk(Adjust(db, a, delta).value)
  {
    hide Adjust, UpdateBalanceMetrics, AmountsOk, TrackedOk, RebuiltCount, Retracked, TrackedRows, WithBalance, CountOf;
    EscrowAdjustResult(db, a, delta);
    AdjustShape(db, a, delta);
    var db' := Adjust(db, a, delta).value;
    forall count ensures CountOf(db'.summary, count) == RebuiltCount(db', count) {
      EscrowKeepsCount(db, a, delta, db', count);
    }
  }

  lemma EscrowKeepsCount(db: DB, a: Account, delta: int, db': DB, count: CountKey)
    requires TrackedOk(db) && EscrowKind(a.kind) && a.currency == Eth
    requires db' == WithBalance(db, a, delta).(summary := db'.summary)
    requires db'.summary.tracked == Retracked(db.summary, a.kind, a.owner, Eth, Held(db.books.balances, a) + delta)
    ensures RebuiltCount(db', count) == RebuiltCount(db, count) +
              (if count == EscrowUnfunded(a.kind) then
                 UnfundedDelta(Held(db.books.balances, a), Held(db.books.balances, a) + delta) * |TrackedRows(db.summary, a.kind, a.owner, Eth)|
               else 0)
  {
    hide TrackedOk, Retracked, TrackedRows, GrantWeight, AllocationWeight, QuarantineWeight, SettlementCountWeight, TrackedCountWeight, Held;
    if count.AllocationsOverdrawn? || count.EscrowUnfunded? {
      RetrackedCount(db, a, Held(db.books.balances, a) + delta, count);
    }
  }

  lemma EscrowKeepsTracked(db: DB, a: Account, delta: int)
    requires SummaryOk(db) && EscrowKind(a.kind) && a.currency == Eth && Adjust(db, a, delta).Ok?
    ensures TrackedOk(Adjust(db, a, delta).value)
  {
    hide Adjust, UpdateBalanceMetrics, AmountsOk, CountsOk;
    EscrowAdjustResult(db, a, delta);
    AdjustShape(db, a, delta);
    var db' := Adjust(db, a, delta).value;
    forall k ensures k in db'.summary.tracked <==> IsTracked(db', k)
      ensures k in db'.summary.tracked ==> db'.summary.tracked[k] == RebuiltTracked(db', k)
    {
      assert IsTracked(db', k) == IsTracked(db, k);
      if k in db.summary.tracked { assert db.summary.tracked[k] == RebuiltTracked(db, k); }
    }
  }

  lemma EscrowAdjust(db: DB, a: Account, delta: int)
    requires SummaryOk(db) && EscrowKind(a.kind)
    ensures Adjust(db, a, delta).Ok? && SummaryOk(Adjust(db, a, delta).value)
  {
    if a.currency == Eth {
      EscrowAdjustResult(db, a, delta);
      EscrowKeepsAmounts(db, a, delta);
      EscrowKeepsCounts(db, a, delta);
      EscrowKeepsTracked(db, a, delta);
    } else {
      var db' := Adjust(db, a, delta).value;
      assert AmountsOk(db') by { AmountsFollow(db, a, delta, db.summary); }
      assert CountsOk(db') by { CountsFrame(db, db'); }
      assert TrackedOk(db') by {
        assert forall k :: IsTracked(db, k) == IsTracked(db', k);
      }
    }
  }

  lemma AdjustKeepsSummary(db: DB, a: Account, delta: int)
    requires SummaryOk(db)
    ensures Adjust(db, a, delta).Ok? && SummaryOk(Adjust(db, a, delta).value)
  {
    if a.kind == AllocationAvailable {
      AvailableAdjust(db, a, delta);
    } else if EscrowKind(a.kind) {
      EscrowAdjust(db, a, delta);
    } else {
      PlainAdjust(db, a, delta);
    }
  }

  /** What the rebuild reads. */
  predicate SameSources(db: DB, db': DB) {
    db'.books.balances == db.books.balances && db'.budget.grants == db.budget.grants && db'.budget.allocations == db.budget.allocations &&
    db'.usage.rows == db.usage.rows && db'.escrow.settlements == db.escrow.settlements && db'.escrow.snapshots == db.escrow.snapshots
  }

  lemma SummaryFrame(db: DB, db': DB)
    requires SummaryOk(db) && SameSources(db, db') && db'.summary == db.summary
    ensures SummaryOk(db')
  {
    hide Total, CountOf;
    assert AmountsOk(db') by {
      hide CountsOk, TrackedOk;
      assert forall name, currency :: RebuiltAmount(db', name, currency) == RebuiltAmount(db, name, currency);
    }
    assert CountsOk(db') by { hide AmountsOk, TrackedOk; CountsFrame(db, db'); }
    assert TrackedOk(db') by {
      hide AmountsOk, CountsOk;
      assert forall k :: IsTracked(db, k) == IsTracked(db', k) && RebuiltTracked(db, k) == RebuiltTracked(db', k);
    }
  }

  /**
   * Every posting leaves the summaries equal to their rebuild, and only a negative
   * amount or a used key can make it fail: no summary decrement ever does.
   */
  lemma TransferKeepsSummary(db: DB, key: Key, debit: Kind, debitOwner: Id, credit: Kind, creditOwner: Id, currency: Currency, n: int)
    requires SummaryOk(db)
    ensures var r := Transfer(db, key, debit, debitOwner, credit, creditOwner, currency, n);
            && (r.Ok? <==> n == 0 || (n > 0 && key !in db.books.postings))
            && (r.Ok? ==> SummaryOk(r.value))
  {
    hide Adjust, SummaryOk;
    if n > 0 && key !in db.books.postings {
      var d, c := Account(debit, debitOwner, currency), Account(credit, creditOwner, currency);
      var postings := db.books.postings[key := Posting(d, c, n)];
      var entered := db.(books := db.books.(postings := postings));
      SummaryFrame(db, entered);
      AdjustKeepsSummary(entered, d, -n);
      AdjustKeepsSummary(Adjust(entered, d, -n).value, c, n);
    }
  }
}

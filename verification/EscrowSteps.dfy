/**
 * Applying a settlement or a chain event keeps every account of the escrow ledger:
 * books, summaries, sums over live rows, generation discipline, the agreement of
 * redemptions with their settlements, and attribution.
 */
module EscrowSteps {
  import opened Results
  import opened Totals
  import opened Blocks
  import opened Tables
  import opened Books
  import opened Summaries
  import opened Attribution
  import opened EscrowStore
  import opened EscrowLedger

  // ---- The invariant ----

  predicate Paired(ev: EventRow, st: SettlementRow) {
    st.settled == ev.canonical && st.generation == ev.generation &&
    st.data.block == ev.data.block && st.data.sender == ev.data.sender && st.data.recipient == ev.data.recipient
  }

  predicate AgreeAt(e: Escrow, id: LogId) {
    && (id in e.settlements <==> id in e.events && e.events[id].data.kind == WinningTicketRedeemed)
    && (id in e.settlements ==> Paired(e.events[id], e.settlements[id]))
  }

  /** A redemption event and its settlement have the same status and generation. */
  ghost predicate AgreeOk(e: Escrow) {
    forall id :: AgreeAt(e, id)
  }

  /** The accounts that hold after every single posting of a batch or a rewind. */
  ghost predicate AccountsOk(db: DB) {
    BooksOk(db.books) && SummaryOk(db) && SumsOk(db) && LedgerOk(db)
  }

  /** A snapshot posts its nonzero balances, and nothing else uses its keys. */
  ghost predicate SnapshotKeysOk(db: DB) {
    forall stream, sender, leg :: SnapshotKey(stream, sender, leg) in db.books.postings ==> (stream, sender) in db.escrow.snapshots
  }

  ghost predicate EscrowInv(db: DB) {
    AccountsOk(db) && AgreeOk(db.escrow) && AttributionOk(db) && SnapshotKeysOk(db)
  }

  /** Grants, allocations, usage and their accounts are left alone. */
  ghost predicate BudgetFrame(db: DB, db': DB) {
    && db'.budget == db.budget && db'.usage == db.usage
    && forall a: Account :: !ChainKind(a.kind) ==> Held(db'.books.balances, a) == Held(db.books.balances, a)
  }

  /** The ledger is append-only, and what is added are postings of event and settlement rows. */
  ghost predicate RowKeysAdded(before: map<Key, Posting>, next: map<Key, Posting>) {
    && (forall k :: k in before ==> k in next && next[k] == before[k])
    && forall k :: k in next && k !in before ==> k.RowKey?
  }

  ghost predicate RowsOnly(db: DB, db': DB) {
    && BudgetFrame(db, db') && RowKeysAdded(db.books.postings, db'.books.postings)
    && db'.escrow.snapshots == db.escrow.snapshots && db'.escrow.chains == db.escrow.chains
  }

  lemma RowsOnlyTwice(db0: DB, db1: DB, db2: DB)
    requires RowsOnly(db0, db1) && RowsOnly(db1, db2)
    ensures RowsOnly(db0, db2)
  {
  }

  lemma RowsOnlyKeepsSnapshots(db: DB, db': DB)
    requires SnapshotKeysOk(db) && RowsOnly(db, db')
    ensures SnapshotKeysOk(db')
  {
  }

  // ---- Settlement summaries ----

  function MovedBy(k: (AmountName, Currency), face: int, paid: int, shortfall: int): int {
    if k == (SettlementFaceValue, Eth) then face
    else if k == (SettlementPaid, Eth) then paid
    else if k == (SettlementShortfall, Eth) then shortfall
    else 0
  }

  lemma AmountsMove(s: Summary, face: int, paid: int, shortfall: int)
    requires (SettlementFaceValue, Eth) in s.amounts && (SettlementPaid, Eth) in s.amounts && (SettlementShortfall, Eth) in s.amounts
    ensures var r1 := ChangeAmount(s, SettlementFaceValue, Eth, face);
            && r1.Ok?
            && var r2 := ChangeAmount(r1.value, SettlementPaid, Eth, paid);
            && r2.Ok?
            && var r3 := ChangeAmount(r2.value, SettlementShortfall, Eth, shortfall);
            && r3.Ok? && r3.value.counts == s.counts && r3.value.tracked == s.tracked
            && r3.value.amounts.Keys == s.amounts.Keys
            && forall k :: k in s.amounts ==> r3.value.amounts[k] == s.amounts[k] + MovedBy(k, face, paid, shortfall)
  {
  }

  function Sign(before: Option<bool>, next: bool): int {
    BoolCount(next) - BoolCount(before == Some(true))
  }

  function Times(n: int, sign: int): int {
    if sign == 1 then n else if sign == -1 then -n else 0
  }

  lemma SettlementMetrics(s: Summary, before: Option<bool>, next: bool, tag: MatchTag, face: nat, paid: nat)
    requires before != Some(next)
    requires before.Some? ==> CountOf(s, Settlements(before.value, tag)) >= 1
    requires CountOf(s, Settlements(next, tag)) >= 0
    requires CountOf(s, SettlementsUnderpaid) + Times(BoolCount(Shortfall(face, paid) > 0), Sign(before, next)) >= 0
    requires (SettlementFaceValue, Eth) in s.amounts && (SettlementPaid, Eth) in s.amounts && (SettlementShortfall, Eth) in s.amounts
    ensures var r := UpdateSettlementMetrics(s, before, next, tag, face, paid);
            && r.Ok? && r.value.tracked == s.tracked
            && r.value.amounts.Keys == s.amounts.Keys
            && (forall k :: k in s.amounts ==>
                 r.value.amounts[k] == s.amounts[k] + MovedBy(k, Times(face, Sign(before, next)), Times(paid, Sign(before, next)), Times(Shortfall(face, paid), Sign(before, next))))
            && (forall k :: CountOf(r.value, k) == CountOf(s, k)
                 - (if before.Some? && k == Settlements(before.value, tag) then 1 else 0)
                 + (if k == Settlements(next, tag) then 1 else 0)
                 + (if k == SettlementsUnderpaid then Times(BoolCount(Shortfall(face, paid) > 0), Sign(before, next)) else 0))
  {
    hide CountOf, ChangeCount, ChangeAmount;
    var sign := Sign(before, next);
    assert sign == 0 || sign == 1 || sign == -1;
    assert face * sign == Times(face, sign) && paid * sign == Times(paid, sign);
    assert Shortfall(face, paid) * sign == Times(Shortfall(face, paid), sign);
    assert sign * BoolCount(Shortfall(face, paid) > 0) == Times(BoolCount(Shortfall(face, paid) > 0), sign);
    if before.Some? { ChangeCountEffect(s, Settlements(before.value, tag), -1); }
    var s1 := if before.Some? then ChangeCount(s, Settlements(before.value, tag), -1).value else s;
    ChangeCountEffect(s1, Settlements(next, tag), 1);
    var s2 := ChangeCount(s1, Settlements(next, tag), 1).value;
    AmountsMove(s2, Times(face, sign), Times(paid, sign), Times(Shortfall(face, paid), sign));
    var s3 := ChangeAmount(s2, SettlementFaceValue, Eth, Times(face, sign)).value;
    var s4 := ChangeAmount(s3, SettlementPaid, Eth, Times(paid, sign)).value;
    var s5 := ChangeAmount(s4, SettlementShortfall, Eth, Times(Shortfall(face, paid), sign)).value;
    SameCounts(s2, s5);
    ChangeCountEffect(s5, SettlementsUnderpaid, Times(BoolCount(Shortfall(face, paid) > 0), sign));
  }

  lemma SameCounts(s: Summary, t: Summary)
    requires s.counts == t.counts
    ensures forall k :: CountOf(s, k) == CountOf(t, k)
  {
  }

  /** A settlement row is inserted settled, or changes status and nothing else the summaries read. */
  predicate StatusChange(db: DB, id: LogId, row: SettlementRow) {
    if id in db.escrow.settlements then
      var prior := db.escrow.settlements[id];
      row.data == prior.data && Tag(row.matching) == Tag(prior.matching) && row.settled != prior.settled
    else row.settled
  }

  function StatusBefore(db: DB, id: LogId): Option<bool> {
    if id in db.escrow.settlements then Some(db.escrow.settlements[id].settled) else None
  }

  lemma SettlementTotal(db: DB, id: LogId, row: SettlementRow, key: CountKey)
    requires StatusChange(db, id, row) && (key.Settlements? || key == SettlementsUnderpaid)
    ensures var before := StatusBefore(db, id);
            var tag := Tag(row.matching);
            Total(db.escrow.settlements[id := row], SettlementCountWeight(key)) == Total(db.escrow.settlements, SettlementCountWeight(key))
              - (if before.Some? && key == Settlements(before.value, tag) then 1 else 0)
              + (if key == Settlements(row.settled, tag) then 1 else 0)
              + (if key == SettlementsUnderpaid then Times(BoolCount(Shortfall(row.data.face, row.data.paid) > 0), Sign(before, row.settled)) else 0)
  {
    hide Total;
    Updated(db.escrow.settlements, SettlementCountWeight(key), id, row);
  }

  lemma SettlementAmountTotal(db: DB, id: LogId, row: SettlementRow, name: AmountName)
    requires StatusChange(db, id, row)
    ensures Total(db.escrow.settlements[id := row], SettlementWeight(name)) == Total(db.escrow.settlements, SettlementWeight(name)) +
              Times(SettlementAmount(name, row.data), Sign(StatusBefore(db, id), row.settled))
  {
    hide Total;
    Updated(db.escrow.settlements, SettlementWeight(name), id, row);
  }

  /** Counts a settlement contributes to are at least its contribution, so the decrements cannot fail. */
  lemma SettlementCounted(db: DB, id: LogId, row: SettlementRow)
    requires CountsOk(db) && StatusChange(db, id, row)
    ensures var before := StatusBefore(db, id);
            && (before.Some? ==> CountOf(db.summary, Settlements(before.value, Tag(row.matching))) >= 1)
            && CountOf(db.summary, Settlements(row.settled, Tag(row.matching))) >= 0
            && CountOf(db.summary, SettlementsUnderpaid) +
                 Times(BoolCount(Shortfall(row.data.face, row.data.paid) > 0), Sign(before, row.settled)) >= 0
  {
    hide Total, SettlementCountWeight;
    var before := StatusBefore(db, id);
    RebuiltCountNonNegative(db, Settlements(row.settled, Tag(row.matching)));
    SettlementTotal(db, id, row, SettlementsUnderpaid);
    CountWeightNonNegative(db.escrow.settlements[id := row], SettlementsUnderpaid);
    if before.Some? {
      var key := Settlements(before.value, Tag(row.matching));
      SettlementTotal(db, id, row, key);
      CountWeightNonNegative(db.escrow.settlements[id := row], key);
    }
  }

  lemma CountWeightNonNegative(rows: map<LogId, SettlementRow>, key: CountKey)
    ensures Total(rows, SettlementCountWeight(key)) >= 0
  {
    NonNegative(rows, SettlementCountWeight(key));
  }

  /** updateSettlementMetrics keeps the summaries equal to the rebuild and never fails. */
  lemma SettlementWritten(db: DB, id: LogId, row: SettlementRow)
    requires SummaryOk(db) && StatusChange(db, id, row)
    ensures var r := UpdateSettlementMetrics(db.summary, StatusBefore(db, id), row.settled, Tag(row.matching), row.data.face, row.data.paid);
            r.Ok? && SummaryOk(WithSettlement(db, id, row).(summary := r.value))
  {
    hide UpdateSettlementMetrics, StatusChange, Total, IsTracked, RebuiltTracked, CountOf, Times, Sign;
    AmountPresent(db, SettlementFaceValue, Eth);
    AmountPresent(db, SettlementPaid, Eth);
    AmountPresent(db, SettlementShortfall, Eth);
    SettlementCounted(db, id, row);
    StatusDiffers(db, id, row);
    var before := StatusBefore(db, id);
    SettlementMetrics(db.summary, before, row.settled, Tag(row.matching), row.data.face, row.data.paid);
    var s := UpdateSettlementMetrics(db.summary, before, row.settled, Tag(row.matching), row.data.face, row.data.paid).value;
    var db' := WithSettlement(db, id, row).(summary := s);
    assert AmountsOk(db') by { hide CountsOk, TrackedOk; SettlementAmounts(db, db', id, row); }
    assert CountsOk(db') by { hide AmountsOk, TrackedOk; SettlementCounts(db, db', id, row); }
    assert TrackedOk(db') by { hide AmountsOk, CountsOk; SettlementTracked(db, db'); }
  }

  lemma StatusDiffers(db: DB, id: LogId, row: SettlementRow)
    requires StatusChange(db, id, row)
    ensures StatusBefore(db, id) != Some(row.settled)
  {
  }

  lemma SettlementTracked(db: DB, db': DB)
    requires TrackedOk(db)
    requires db'.books == db.books && db'.budget == db.budget && db'.escrow.snapshots == db.escrow.snapshots && db'.summary.tracked == db.summary.tracked
    ensures TrackedOk(db')
  {
    assert forall k :: IsTracked(db, k) == IsTracked(db', k) && RebuiltTracked(db, k) == RebuiltTracked(db', k);
  }

  lemma SettlementAmounts(db: DB, db': DB, id: LogId, row: SettlementRow)
    requires AmountsOk(db) && StatusChange(db, id, row)
    requires db' == WithSettlement(db, id, row).(summary := db'.summary)
    requires db'.summary.tracked == db.summary.tracked && db'.summary.amounts.Keys == db.summary.amounts.Keys
    requires var sign := Sign(StatusBefore(db, id), row.settled);
             forall k :: k in db.summary.amounts ==>
               db'.summary.amounts[k] == db.summary.amounts[k] + MovedBy(k, Times(row.data.face, sign), Times(row.data.paid, sign), Times(Shortfall(row.data.face, row.data.paid), sign))
    ensures AmountsOk(db')
  {
    hide Total, Times, Sign, StatusChange, StatusBefore, BalanceWeight, TrackedWeight, SettlementWeight;
    forall name, currency | AmountRow(name, currency)
      ensures (name, currency) in db'.summary.amounts && db'.summary.amounts[(name, currency)] == RebuiltAmount(db', name, currency)
    {
      assert (name, currency) in db.summary.amounts;
      if FromSettlements(name) { SettlementAmountTotal(db, id, row, name); }
    }
  }

  lemma SettlementCounts(db: DB, db': DB, id: LogId, row: SettlementRow)
    requires CountsOk(db) && StatusChange(db, id, row)
    requires db' == WithSettlement(db, id, row).(summary := db'.summary)
    requires db'.summary.tracked == db.summary.tracked
    requires var before := StatusBefore(db, id);
             var tag := Tag(row.matching);
             forall k :: CountOf(db'.summary, k) == CountOf(db.summary, k)
               - (if before.Some? && k == Settlements(before.value, tag) then 1 else 0)
               + (if k == Settlements(row.settled, tag) then 1 else 0)
               + (if k == SettlementsUnderpaid then Times(BoolCount(Shortfall(row.data.face, row.data.paid) > 0), Sign(before, row.settled)) else 0)
    ensures CountsOk(db')
  {
    hide CountOf, Total, Times, Sign, StatusChange, SettlementCountWeight, GrantWeight, AllocationWeight, QuarantineWeight, TrackedCountWeight;
    forall key ensures CountOf(db'.summary, key) == RebuiltCount(db', key) {
      if key.Settlements? || key == SettlementsUnderpaid { SettlementTotal(db, id, row, key); }
    }
  }

  // ---- One settlement ----

  /** The row written, its summaries, and its two payments. */
  function EnterSettlement(db: DB, id: LogId, row: SettlementRow): Outcome<DB> {
    var summary :- UpdateSettlementMetrics(db.summary, StatusBefore(db, id), true, Tag(row.matching), row.data.face, row.data.paid);
    PayLegs(WithSettlement(db, id, row).(summary := summary), id, row, false)
  }

  function NextRow(db: DB, s: Settlement): SettlementRow {
    if s.log in db.escrow.settlements then
      db.escrow.settlements[s.log].(settled := true, generation := db.escrow.settlements[s.log].generation + 1)
    else SettlementRow(SettlementDataOf(s), Unmatched, true, 0)
  }

  predicate SplitOk(s: Settlement) {
    s.depositPaid + s.reservePaid == s.paid && s.paid <= s.face
  }

  predicate SameSettlement(db: DB, s: Settlement) {
    s.log in db.escrow.settlements ==> db.escrow.settlements[s.log].data == SettlementDataOf(s)
  }

  predicate AlreadySettled(db: DB, s: Settlement) {
    s.log in db.escrow.settlements && db.escrow.settlements[s.log].settled
  }

  predicate Covered(db: DB, s: Settlement) {
    s.depositPaid == Lesser(s.face, Balance(db, EscrowDeposit, s.sender, Eth)) && s.reservePaid <= Balance(db, EscrowReserve, s.sender, Eth)
  }

  lemma ApplySettlementShape(db: DB, s: Settlement)
    requires SplitOk(s) && SameSettlement(db, s) && !AlreadySettled(db, s)
    requires UpdateSettlementMetrics(db.summary, StatusBefore(db, s.log), true, Tag(NextRow(db, s).matching), s.face, s.paid).Ok?
    ensures !Covered(db, s) ==> ApplySettlement(db, s) in {Err(BalanceMismatch), Err(InsufficientReserve)}
    ensures Covered(db, s) ==>
              var r := EnterSettlement(db, s.log, NextRow(db, s));
              ApplySettlement(db, s) == if r.Err? then Err(r.error) else Rematch(r.value, s.ticket.pm, s.recipient)
  {
    hide UpdateSettlementMetrics, Transfer, Rematch;
  }

  lemma EnterSettlementKeeps(db: DB, id: LogId, row: SettlementRow)
    requires AccountsOk(db) && StatusChange(db, id, row) && GoesLive(RowOf(db.escrow, SettlementRows, id), SettlementRowOf(row))
    ensures var r := EnterSettlement(db, id, row);
            && r.Ok? && AccountsOk(r.value)
            && r.value.escrow == WithSettlement(db, id, row).escrow && RowsOnly(db, r.value)
  {
    hide BooksOk, SummaryOk, SumsOk, LedgerOk, PostLegs, PayLegs, UpdateSettlementMetrics, Gain, RowOf, GoesLive, StatusChange;
    SettlementWritten(db, id, row);
    LiveRow(db, id, row);
    var s := UpdateSettlementMetrics(db.summary, StatusBefore(db, id), true, Tag(row.matching), row.data.face, row.data.paid).value;
    var db1 := WithSettlement(db, id, row).(summary := s);
    FreshRow(db, SettlementRows, id, SettlementRowOf(row), false);
    PayLegsIsLegs(db1, id, row, false);
    PostLegsKeep(db1, SettlementRows, false, id, SettlementRowOf(row));
    PostLegsEffect(db1, SettlementRows, false, id, SettlementRowOf(row));
    var db' := PostLegs(db1, SettlementRows, false, id, SettlementRowOf(row)).value;
    SettlementRowWritten(db.escrow, db'.escrow, id, row);
    LedgerStep(db, db', SettlementRows, id, false, SettlementRowOf(row));
    SumsStep(db, db', SettlementRows, id, false, SettlementRowOf(row));
    GainsAreOnChain(SettlementRowOf(row), false);
    LegsAreOnChain(db.books.postings, db'.books.postings, SettlementRows, false, id, SettlementRowOf(row));
  }

  lemma LiveRow(db: DB, id: LogId, row: SettlementRow)
    requires GoesLive(RowOf(db.escrow, SettlementRows, id), SettlementRowOf(row))
    ensures row.settled
  {
  }

  lemma SettlementRowWritten(e: Escrow, e': Escrow, id: LogId, row: SettlementRow)
    requires e' == e.(settlements := e.settlements[id := row])
    ensures OnlyRow(e, e', SettlementRows, id) && RowOf(e', SettlementRows, id) == Some(SettlementRowOf(row))
  {
  }

  lemma EventRowWritten(e: Escrow, e': Escrow, id: LogId, row: EventRow)
    requires e' == e.(events := e.events[id := row])
    ensures OnlyRow(e, e', EventRows, id) && RowOf(e', EventRows, id) == Some(EventRowOf(row))
  {
  }

  predicate OnChain(r: Row) {
    ChainKind(r.only.debit) && ChainKind(r.only.credit) && ChainKind(r.deposit.debit) && ChainKind(r.deposit.credit) &&
    ChainKind(r.reserve.debit) && ChainKind(r.reserve.credit)
  }

  lemma GainsAreOnChain(r: Row, orphan: bool)
    requires OnChain(r)
    ensures forall a: Account :: !ChainKind(a.kind) ==> Gain(r, orphan, a) == 0
  {
  }

  lemma LegsAreOnChain(before: map<Key, Posting>, next: map<Key, Posting>, table: RowTable, orphan: bool, id: LogId, r: Row)
    requires Legged(before, next, table, orphan, id, r)
    ensures RowKeysAdded(before, next)
  {
  }

  // ---- ApplySettlement ----

  lemma RematchKeepsAccounts(db: DB, pm: Id, orch: Id)
    requires AccountsOk(db)
    ensures var r := Rematch(db, pm, orch);
            && r.Ok? && AccountsOk(r.value) && RowsOnly(db, r.value) && r.value.escrow.events == db.escrow.events
            && r.value.escrow.settlements ==
               Rewritten(db.escrow.settlements, pm, orch, WantedMatch(SessionsFor(db.usage, pm, orch)))
  {
    RematchKeepsSummary(db, pm, orch);
    RematchResult(db, pm, orch);
    hide Rematch, SummaryOk, BooksOk, WantedMatch, SessionsFor, CountsOk, SumsOk, LedgerOk, Rewritten;
    var db' := Rematch(db, pm, orch).value;
    RewrittenAccounts(db, db', pm, orch, WantedMatch(SessionsFor(db.usage, pm, orch)));
  }

  lemma RewrittenAccounts(db: DB, db': DB, pm: Id, orch: Id, wanted: Match)
    requires SumsOk(db) && LedgerOk(db) && db'.books == db.books
    requires db'.escrow == db.escrow.(settlements := Rewritten(db.escrow.settlements, pm, orch, wanted))
    ensures SumsOk(db') && LedgerOk(db')
  {
    assert SumsOk(db') by {
      hide LedgerOk, Rewritten;
      forall kind, owner ensures Replayed(db'.escrow, kind, owner) == Replayed(db.escrow, kind, owner) {
        PartRewritten(db.escrow.settlements, pm, orch, wanted, kind, owner);
      }
    }
    assert LedgerOk(db') by {
      hide SumsOk, KeyOk;
      forall table, id ensures RowOf(db'.escrow, table, id) == RowOf(db.escrow, table, id) { }
    }
  }

  lemma PartRewritten(rows: map<LogId, SettlementRow>, pm: Id, orch: Id, wanted: Match, kind: Kind, owner: Id)
    ensures Total(Rewritten(rows, pm, orch, wanted), SettlementPart(kind, owner)) == Total(rows, SettlementPart(kind, owner))
  {
    Shifted(rows, Rewritten(rows, pm, orch, wanted), SettlementPart(kind, owner), {}, 0);
  }

  /** Exactly when a redemption is accepted. */
  predicate Redeemable(db: DB, s: Settlement) {
    SplitOk(s) && SameSettlement(db, s) && (AlreadySettled(db, s) || Covered(db, s))
  }

  predicate RefusedRedemption(e: Error) {
    e == InvalidSplit || e == IdentityReused || e == BalanceMismatch || e == InsufficientReserve
  }

  /** The settlement rows after a redemption: one row settles, and attribution is brought up to date. */
  function SettledRows(db: DB, s: Settlement): map<LogId, SettlementRow> {
    Rewritten(db.escrow.settlements[s.log := NextRow(db, s)], s.ticket.pm, s.recipient,
              WantedMatch(SessionsFor(db.usage, s.ticket.pm, s.recipient)))
  }

  lemma ApplySettlementKeeps(db: DB, s: Settlement)
    requires AccountsOk(db) && AttributionOk(db)
    ensures var r := ApplySettlement(db, s);
            && (r.Ok? <==> Redeemable(db, s))
            && (r.Err? ==> RefusedRedemption(r.error))
            && (r.Ok? ==> AccountsOk(r.value) && AttributionOk(r.value) && RowsOnly(db, r.value) && r.value.escrow.events == db.escrow.events)
            && (r.Ok? && AlreadySettled(db, s) ==> r.value == db)
            && (r.Ok? && !AlreadySettled(db, s) ==> r.value.escrow.settlements == SettledRows(db, s))
  {
    if SplitOk(s) && SameSettlement(db, s) && !AlreadySettled(db, s) {
      NewSettlementKeeps(db, s);
    }
  }

  lemma NextRowGoesLive(db: DB, s: Settlement)
    requires SameSettlement(db, s) && !AlreadySettled(db, s)
    ensures StatusChange(db, s.log, NextRow(db, s))
    ensures GoesLive(RowOf(db.escrow, SettlementRows, s.log), SettlementRowOf(NextRow(db, s)))
    ensures NextRow(db, s).data == SettlementDataOf(s) && NextRow(db, s).settled
  {
  }

  lemma NewSettlementKeeps(db: DB, s: Settlement)
    requires AccountsOk(db) && AttributionOk(db)
    requires SplitOk(s) && SameSettlement(db, s) && !AlreadySettled(db, s)
    ensures var r := ApplySettlement(db, s);
            && (r.Ok? <==> Covered(db, s))
            && (r.Err? ==> r.error == BalanceMismatch || r.error == InsufficientReserve)
            && (r.Ok? ==> AccountsOk(r.value) && AttributionOk(r.value) && RowsOnly(db, r.value) && r.value.escrow.events == db.escrow.events
                          && r.value.escrow.settlements == SettledRows(db, s))
  {
    hide ApplySettlement, EnterSettlement, Rematch, BooksOk, SummaryOk, SumsOk, LedgerOk, UpdateSettlementMetrics, Covered;
    var row := NextRow(db, s);
    NextRowGoesLive(db, s);
    SettlementWritten(db, s.log, row);
    ApplySettlementShape(db, s);
    if Covered(db, s) {
      EnterSettlementKeeps(db, s.log, row);
      var db1 := EnterSettlement(db, s.log, row).value;
      RematchKeepsAccounts(db1, s.ticket.pm, s.recipient);
      assert AttributionOk(Rematch(db1, s.ticket.pm, s.recipient).value) by { SettledAttribution(db, db1, s); }
      RowsOnlyTwice(db, db1, Rematch(db1, s.ticket.pm, s.recipient).value);
    }
  }

  lemma SettledAttribution(db: DB, db1: DB, s: Settlement)
    requires AttributionOk(db) && SummaryOk(db1) && NextRow(db, s).data == SettlementDataOf(s)
    requires db1.usage == db.usage && db1.escrow.settlements == db.escrow.settlements[s.log := NextRow(db, s)]
    ensures Rematch(db1, s.ticket.pm, s.recipient).Ok? && AttributionOk(Rematch(db1, s.ticket.pm, s.recipient).value)
  {
    hide Rematch, WantedMatch, SessionsFor, AmountsOk, CountsOk, TrackedOk;
    RematchAttributes(db1, s.ticket.pm, s.recipient);
  }
}

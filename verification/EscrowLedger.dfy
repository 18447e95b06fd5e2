/**
 * What the ledger holds for the chain: every row's postings, one per generation and
 * leg, and every escrow and treasury balance as a sum over the live rows.
 */
module EscrowLedger {
  import opened Results
  import opened Totals
  import opened Blocks
  import opened Tables
  import opened Books
  import opened Summaries
  import opened EscrowStore

  // ---- The postings of a row ----

  datatype Move = Move(debit: Kind, credit: Kind, amount: nat)

  const NOTHING := Move(TreasuryCash, TreasuryCash, 0)

  /** An event or settlement row: live while canonical or settled. */
  datatype Row = Row(generation: nat, live: bool, sender: Id, only: Move, deposit: Move, reserve: Move)

  function EventRowOf(row: EventRow): Row {
    var d := row.data;
    match d.kind
    case DepositFunded => Row(row.generation, row.canonical, d.sender, Move(TreasuryCash, EscrowDeposit, d.amount), NOTHING, NOTHING)
    case ReserveFunded => Row(row.generation, row.canonical, d.sender, Move(TreasuryCash, EscrowReserve, d.amount), NOTHING, NOTHING)
    case Withdrawal =>
      Row(row.generation, row.canonical, d.sender, NOTHING,
          Move(EscrowDeposit, TreasuryCash, d.depositAmount), Move(EscrowReserve, TreasuryCash, d.reserveAmount))
    case _ => Row(row.generation, row.canonical, d.sender, NOTHING, NOTHING, NOTHING)
  }

  function SettlementRowOf(row: SettlementRow): Row {
    Row(row.generation, row.settled, row.data.sender, NOTHING,
        Move(EscrowDeposit, TreasurySettledSpend, row.data.depositPaid), Move(EscrowReserve, TreasurySettledSpend, row.data.reservePaid))
  }

  function RowOf(e: Escrow, table: RowTable, id: LogId): Option<Row> {
    match table
    case EventRows => if id in e.events then Some(EventRowOf(e.events[id])) else None
    case SettlementRows => if id in e.settlements then Some(SettlementRowOf(e.settlements[id])) else None
  }

  function MoveOf(r: Row, leg: Leg): Move {
    match leg
    case Only => r.only
    case Deposit => r.deposit
    case Reserve => r.reserve
  }

  /** A reversal posts the opposite way. */
  function Directed(m: Move, orphan: bool): Move {
    if orphan then Move(m.credit, m.debit, m.amount) else m
  }

  function PostingOf(r: Row, leg: Leg, orphan: bool): Posting {
    var m := Directed(MoveOf(r, leg), orphan);
    Posting(Account(m.debit, r.sender, Eth), Account(m.credit, r.sender, Eth), m.amount)
  }

  // ---- Generation discipline ----

  ghost predicate KeyOk(postings: map<Key, Posting>, r: Option<Row>, table: RowTable, id: LogId, orphan: bool, g: nat, leg: Leg) {
    var key := RowKey(table, orphan, id, g, leg);
    if r.None? then key !in postings
    else
      && (key in postings <==>
            MoveOf(r.value, leg).amount > 0 &&
            (g < r.value.generation || (g == r.value.generation && (orphan ==> !r.value.live))))
      && (key in postings ==> postings[key] == PostingOf(r.value, leg, orphan))
  }

  /**
   * Each generation of a row is posted once, and reversed once except the last one of
   * a live row; the ledger holds nothing else under the row's keys.
   */
  ghost predicate LedgerOk(db: DB) {
    forall table, id, orphan, g, leg :: KeyOk(db.books.postings, RowOf(db.escrow, table, id), table, id, orphan, g, leg)
  }

  // ---- Posting all legs of a row ----

  function PostLeg(db: DB, table: RowTable, orphan: bool, id: LogId, r: Row, leg: Leg): Outcome<DB> {
    var m := Directed(MoveOf(r, leg), orphan);
    Transfer(db, RowKey(table, orphan, id, r.generation, leg), m.debit, r.sender, m.credit, r.sender, Eth, m.amount)
  }

  function PostLegs(db: DB, table: RowTable, orphan: bool, id: LogId, r: Row): Outcome<DB> {
    var db1 :- PostLeg(db, table, orphan, id, r, Only);
    var db2 :- PostLeg(db1, table, orphan, id, r, Deposit);
    PostLeg(db2, table, orphan, id, r, Reserve)
  }

  function MoveEffect(m: Move, kind: Kind): int {
    (if m.credit == kind then m.amount else 0) - (if m.debit == kind then m.amount else 0)
  }

  function Effect(r: Row, kind: Kind): int {
    MoveEffect(r.only, kind) + MoveEffect(r.deposit, kind) + MoveEffect(r.reserve, kind)
  }

  function Gain(r: Row, orphan: bool, a: Account): int {
    if a.owner != r.sender || a.currency != Eth then 0 else if orphan then -Effect(r, a.kind) else Effect(r, a.kind)
  }

  function LegGain(r: Row, orphan: bool, leg: Leg, a: Account): int {
    if a.owner != r.sender || a.currency != Eth then 0 else MoveEffect(Directed(MoveOf(r, leg), orphan), a.kind)
  }

  predicate IsLeg(k: Key, table: RowTable, orphan: bool, id: LogId, r: Row) {
    k.RowKey? && k.table == table && k.orphan == orphan && k.id == id && k.generation == r.generation && MoveOf(r, k.leg).amount > 0
  }

  ghost predicate Legged(before: map<Key, Posting>, next: map<Key, Posting>, table: RowTable, orphan: bool, id: LogId, r: Row) {
    forall k :: (k in next <==> k in before || IsLeg(k, table, orphan, id, r)) &&
                (k in next ==> next[k] == if k in before then before[k] else PostingOf(r, k.leg, orphan))
  }

  ghost predicate Fresh(postings: map<Key, Posting>, table: RowTable, orphan: bool, id: LogId, r: Row) {
    forall leg :: MoveOf(r, leg).amount > 0 ==> RowKey(table, orphan, id, r.generation, leg) !in postings
  }

  function WithLeg(postings: map<Key, Posting>, table: RowTable, orphan: bool, id: LogId, r: Row, leg: Leg): map<Key, Posting> {
    if MoveOf(r, leg).amount == 0 then postings
    else postings[RowKey(table, orphan, id, r.generation, leg) := PostingOf(r, leg, orphan)]
  }

  lemma WithLegs(postings: map<Key, Posting>, table: RowTable, orphan: bool, id: LogId, r: Row)
    requires Fresh(postings, table, orphan, id, r)
    ensures var p1 := WithLeg(postings, table, orphan, id, r, Only);
            var p2 := WithLeg(p1, table, orphan, id, r, Deposit);
            Legged(postings, WithLeg(p2, table, orphan, id, r, Reserve), table, orphan, id, r)
  {
    hide PostingOf;
  }

  lemma PostLegEffect(db: DB, table: RowTable, orphan: bool, id: LogId, r: Row, leg: Leg)
    requires PostLeg(db, table, orphan, id, r, leg).Ok?
    ensures var db' := PostLeg(db, table, orphan, id, r, leg).value;
            var key := RowKey(table, orphan, id, r.generation, leg);
            && db'.budget == db.budget && db'.usage == db.usage && db'.escrow == db.escrow
            && (forall a :: Held(db'.books.balances, a) == Held(db.books.balances, a) + LegGain(r, orphan, leg, a))
            && (MoveOf(r, leg).amount > 0 ==> key !in db.books.postings)
            && db'.books.postings == WithLeg(db.books.postings, table, orphan, id, r, leg)
  {
    hide Transfer, Held;
    var m := Directed(MoveOf(r, leg), orphan);
    TransferEffect(db, RowKey(table, orphan, id, r.generation, leg), m.debit, r.sender, m.credit, r.sender, Eth, m.amount);
  }

  lemma GainsAdd(r: Row, orphan: bool, a: Account)
    ensures Gain(r, orphan, a) == LegGain(r, orphan, Only, a) + LegGain(r, orphan, Deposit, a) + LegGain(r, orphan, Reserve, a)
  {
  }

  lemma PostLegsEffect(db: DB, table: RowTable, orphan: bool, id: LogId, r: Row)
    requires PostLegs(db, table, orphan, id, r).Ok?
    ensures var db' := PostLegs(db, table, orphan, id, r).value;
            && db'.budget == db.budget && db'.usage == db.usage && db'.escrow == db.escrow
            && (forall a :: Held(db'.books.balances, a) == Held(db.books.balances, a) + Gain(r, orphan, a))
            && Legged(db.books.postings, db'.books.postings, table, orphan, id, r)
  {
    hide PostLeg, Held, LegGain, Gain, PostingOf;
    var db1 := PostLeg(db, table, orphan, id, r, Only).value;
    var db2 := PostLeg(db1, table, orphan, id, r, Deposit).value;
    PostLegEffect(db, table, orphan, id, r, Only);
    PostLegEffect(db1, table, orphan, id, r, Deposit);
    PostLegEffect(db2, table, orphan, id, r, Reserve);
    assert Fresh(db.books.postings, table, orphan, id, r);
    WithLegs(db.books.postings, table, orphan, id, r);
    hide Legged, WithLeg, Fresh;
    var db' := PostLegs(db, table, orphan, id, r).value;
    forall a ensures Held(db'.books.balances, a) == Held(db.books.balances, a) + Gain(r, orphan, a) {
      GainsAdd(r, orphan, a);
    }
  }

  lemma PostLegKeeps(db: DB, table: RowTable, orphan: bool, id: LogId, r: Row, leg: Leg)
    requires BooksOk(db.books) && SummaryOk(db)
    requires MoveOf(r, leg).amount > 0 ==> RowKey(table, orphan, id, r.generation, leg) !in db.books.postings
    ensures var o := PostLeg(db, table, orphan, id, r, leg);
            o.Ok? && BooksOk(o.value.books) && SummaryOk(o.value)
  {
    hide Transfer, BooksOk, SummaryOk;
    var m := Directed(MoveOf(r, leg), orphan);
    var key := RowKey(table, orphan, id, r.generation, leg);
    TransferKeepsSummary(db, key, m.debit, r.sender, m.credit, r.sender, Eth, m.amount);
    TransferKeepsBooks(db, key, m.debit, r.sender, m.credit, r.sender, Eth, m.amount);
  }

  lemma PostLegsKeep(db: DB, table: RowTable, orphan: bool, id: LogId, r: Row)
    requires BooksOk(db.books) && SummaryOk(db) && Fresh(db.books.postings, table, orphan, id, r)
    ensures var o := PostLegs(db, table, orphan, id, r);
            o.Ok? && BooksOk(o.value.books) && SummaryOk(o.value)
  {
    hide PostLeg, BooksOk, SummaryOk, LegGain, Held, PostingOf;
    PostLegKeeps(db, table, orphan, id, r, Only);
    PostLegEffect(db, table, orphan, id, r, Only);
    var db1 := PostLeg(db, table, orphan, id, r, Only).value;
    PostLegKeeps(db1, table, orphan, id, r, Deposit);
    PostLegEffect(db1, table, orphan, id, r, Deposit);
    var db2 := PostLeg(db1, table, orphan, id, r, Deposit).value;
    PostLegKeeps(db2, table, orphan, id, r, Reserve);
  }

  // ---- The source's postings are the legs of a row ----

  predicate WithdrawsAll(db: DB, d: EventData) {
    d.kind == Withdrawal ==>
      Balance(db, EscrowDeposit, d.sender, Eth) == d.depositAmount && Balance(db, EscrowReserve, d.sender, Eth) == d.reserveAmount
  }

  lemma PostEventIsLegs(db: DB, id: LogId, generation: nat, d: EventData)
    ensures PostEvent(db, id, generation, d) ==
            if WithdrawsAll(db, d) then PostLegs(db, EventRows, false, id, EventRowOf(EventRow(d, true, generation))) else Err(BalanceMismatch)
  {
    hide Adjust, Held;
  }

  lemma UnpostEventIsLegs(db: DB, id: LogId, generation: nat, d: EventData)
    ensures UnpostEvent(db, id, generation, d) == PostLegs(db, EventRows, true, id, EventRowOf(EventRow(d, true, generation)))
  {
    hide Adjust, Held;
  }

  /** The two transfers of a settlement, or of its reversal. */
  function PayLegs(db: DB, id: LogId, row: SettlementRow, orphan: bool): Outcome<DB> {
    var d := row.data;
    if orphan then
      var db1 :- Transfer(db, RowKey(SettlementRows, true, id, row.generation, Deposit), TreasurySettledSpend, d.sender, EscrowDeposit, d.sender, Eth, d.depositPaid);
      Transfer(db1, RowKey(SettlementRows, true, id, row.generation, Reserve), TreasurySettledSpend, d.sender, EscrowReserve, d.sender, Eth, d.reservePaid)
    else
      var db1 :- Transfer(db, RowKey(SettlementRows, false, id, row.generation, Deposit), EscrowDeposit, d.sender, TreasurySettledSpend, d.sender, Eth, d.depositPaid);
      Transfer(db1, RowKey(SettlementRows, false, id, row.generation, Reserve), EscrowReserve, d.sender, TreasurySettledSpend, d.sender, Eth, d.reservePaid)
  }

  lemma PayLegsIsLegs(db: DB, id: LogId, row: SettlementRow, orphan: bool)
    ensures PayLegs(db, id, row, orphan) == PostLegs(db, SettlementRows, orphan, id, SettlementRowOf(row))
  {
    hide Adjust, Held;
  }

  // ---- A row goes live or is orphaned ----

  /** The row is new, or comes back as the next generation of an orphaned row. */
  predicate GoesLive(before: Option<Row>, next: Row) {
    && next.live
    && (before.None? ==> next.generation == 0)
    && (before.Some? ==> !before.value.live && next == before.value.(generation := before.value.generation + 1, live := true))
  }

  predicate GoesOrphan(before: Option<Row>, next: Row) {
    before.Some? && before.value.live && next == before.value.(live := false)
  }

  predicate OnlyRow(e: Escrow, e': Escrow, table: RowTable, id: LogId) {
    && e'.snapshots == e.snapshots
    && match table
       case EventRows => e'.settlements == e.settlements && id in e'.events && e'.events == e.events[id := e'.events[id]]
       case SettlementRows => e'.events == e.events && id in e'.settlements && e'.settlements == e.settlements[id := e'.settlements[id]]
  }

  lemma RowsElsewhere(e: Escrow, e': Escrow, table: RowTable, id: LogId, t: RowTable, i: LogId)
    requires OnlyRow(e, e', table, id) && (t != table || i != id)
    ensures RowOf(e', t, i) == RowOf(e, t, i)
  {
  }

  lemma FreshRow(db: DB, table: RowTable, id: LogId, r: Row, orphan: bool)
    requires LedgerOk(db)
    requires if orphan then RowOf(db.escrow, table, id) == Some(r) && r.live else GoesLive(RowOf(db.escrow, table, id), r)
    ensures Fresh(db.books.postings, table, orphan, id, r)
  {
    forall leg | MoveOf(r, leg).amount > 0 ensures RowKey(table, orphan, id, r.generation, leg) !in db.books.postings {
      assert KeyOk(db.books.postings, RowOf(db.escrow, table, id), table, id, orphan, r.generation, leg);
    }
  }

  lemma {:induction false} LedgerStep(db: DB, db': DB, table: RowTable, id: LogId, orphan: bool, next: Row)
    requires LedgerOk(db) && OnlyRow(db.escrow, db'.escrow, table, id) && RowOf(db'.escrow, table, id) == Some(next)
    requires if orphan then GoesOrphan(RowOf(db.escrow, table, id), next) else GoesLive(RowOf(db.escrow, table, id), next)
    requires Legged(db.books.postings, db'.books.postings, table, orphan, id, next)
    ensures LedgerOk(db')
  {
    hide LedgerOk, RowOf, OnlyRow, PostingOf;
    forall t, i, o, g, leg ensures KeyOk(db'.books.postings, RowOf(db'.escrow, t, i), t, i, o, g, leg) {
      LedgerStepAt(db, db', table, id, orphan, next, t, i, o, g, leg);
    }
    LedgerFrom(db');
  }

  lemma LedgerFrom(db: DB)
    requires forall table, id, orphan, g, leg :: KeyOk(db.books.postings, RowOf(db.escrow, table, id), table, id, orphan, g, leg)
    ensures LedgerOk(db)
  {
  }

  lemma LedgerAt(db: DB, table: RowTable, id: LogId, orphan: bool, g: nat, leg: Leg)
    requires LedgerOk(db)
    ensures KeyOk(db.books.postings, RowOf(db.escrow, table, id), table, id, orphan, g, leg)
  {
  }

  lemma LedgerStepAt(db: DB, db': DB, table: RowTable, id: LogId, orphan: bool, next: Row,
                     t: RowTable, i: LogId, o: bool, g: nat, leg: Leg)
    requires LedgerOk(db) && OnlyRow(db.escrow, db'.escrow, table, id) && RowOf(db'.escrow, table, id) == Some(next)
    requires if orphan then GoesOrphan(RowOf(db.escrow, table, id), next) else GoesLive(RowOf(db.escrow, table, id), next)
    requires Legged(db.books.postings, db'.books.postings, table, orphan, id, next)
    ensures KeyOk(db'.books.postings, RowOf(db'.escrow, t, i), t, i, o, g, leg)
  {
    hide LedgerOk, RowOf, OnlyRow, KeyOk, Legged;
    LedgerAt(db, t, i, o, g, leg);
    if t != table || i != id {
      RowsElsewhere(db.escrow, db'.escrow, table, id, t, i);
      KeyElsewhere(db.books.postings, db'.books.postings, RowOf(db.escrow, t, i), table, id, orphan, next, t, i, o, g, leg);
    } else {
      KeyHere(db.books.postings, db'.books.postings, RowOf(db.escrow, t, i), table, id, orphan, next, o, g, leg);
    }
  }

  lemma KeyElsewhere(before: map<Key, Posting>, after: map<Key, Posting>, r: Option<Row>, table: RowTable, id: LogId, orphan: bool, next: Row,
                     t: RowTable, i: LogId, o: bool, g: nat, leg: Leg)
    requires t != table || i != id
    requires KeyOk(before, r, t, i, o, g, leg) && Legged(before, after, table, orphan, id, next)
    ensures KeyOk(after, r, t, i, o, g, leg)
  {
  }

  lemma KeyHere(before: map<Key, Posting>, after: map<Key, Posting>, r: Option<Row>, table: RowTable, id: LogId, orphan: bool, next: Row,
                o: bool, g: nat, leg: Leg)
    requires if orphan then GoesOrphan(r, next) else GoesLive(r, next)
    requires KeyOk(before, r, table, id, o, g, leg) && Legged(before, after, table, orphan, id, next)
    ensures KeyOk(after, Some(next), table, id, o, g, leg)
  {
    var key := RowKey(table, o, id, g, leg);
    assert key in after <==> key in before || IsLeg(key, table, orphan, id, next);
  }

  // ---- Balances as sums over live rows ----

  predicate ChainKind(kind: Kind) {
    kind == TreasuryCash || kind == TreasurySettledSpend || kind == EscrowDeposit || kind == EscrowReserve
  }

  /** What a row contributes to an account while it is live. */
  function Part(r: Row, kind: Kind, owner: Id): int {
    if r.live && r.sender == owner then Effect(r, kind) else 0
  }

  ghost function EventPart(kind: Kind, owner: Id): (LogId, EventRow) -> int {
    (id: LogId, row: EventRow) => Part(EventRowOf(row), kind, owner)
  }

  ghost function SettlementPart(kind: Kind, owner: Id): (LogId, SettlementRow) -> int {
    (id: LogId, row: SettlementRow) => Part(SettlementRowOf(row), kind, owner)
  }

  function OpeningEffect(row: SnapshotRow, kind: Kind): int {
    match kind
    case TreasuryCash => -(row.deposit as int) - row.reserve
    case EscrowDeposit => row.deposit
    case EscrowReserve => row.reserve
    case _ => 0
  }

  ghost function OpeningPart(kind: Kind, owner: Id): ((Id, Id), SnapshotRow) -> int {
    (k: (Id, Id), row: SnapshotRow) => if k.1 == owner then OpeningEffect(row, kind) else 0
  }

  /** The opening snapshots plus the live rows of one sender. */
  ghost function Replayed(e: Escrow, kind: Kind, owner: Id): int {
    Total(e.snapshots, OpeningPart(kind, owner)) + Total(e.events, EventPart(kind, owner)) + Total(e.settlements, SettlementPart(kind, owner))
  }

  /** Every treasury and escrow balance is the opening state plus the canonical rows. */
  ghost predicate SumsOk(db: DB) {
    forall kind, owner :: ChainKind(kind) ==> Held(db.books.balances, Account(kind, owner, Eth)) == Replayed(db.escrow, kind, owner)
  }

  lemma ReplayedStep(e: Escrow, e': Escrow, table: RowTable, id: LogId, next: Row, kind: Kind, owner: Id)
    requires OnlyRow(e, e', table, id) && RowOf(e', table, id) == Some(next)
    ensures Replayed(e', kind, owner) == Replayed(e, kind, owner) + Part(next, kind, owner)
              - (if RowOf(e, table, id).Some? then Part(RowOf(e, table, id).value, kind, owner) else 0)
  {
    hide Total, Part;
    match table
    case EventRows => Updated(e.events, EventPart(kind, owner), id, e'.events[id]);
    case SettlementRows => Updated(e.settlements, SettlementPart(kind, owner), id, e'.settlements[id]);
  }

  lemma SumsStep(db: DB, db': DB, table: RowTable, id: LogId, orphan: bool, next: Row)
    requires SumsOk(db) && OnlyRow(db.escrow, db'.escrow, table, id) && RowOf(db'.escrow, table, id) == Some(next)
    requires if orphan then GoesOrphan(RowOf(db.escrow, table, id), next) else GoesLive(RowOf(db.escrow, table, id), next)
    requires forall a :: Held(db'.books.balances, a) == Held(db.books.balances, a) + Gain(next, orphan, a)
    ensures SumsOk(db')
  {
    hide Replayed, RowOf, OnlyRow, MoveEffect, Held;
    forall kind, owner | ChainKind(kind)
      ensures Held(db'.books.balances, Account(kind, owner, Eth)) == Replayed(db'.escrow, kind, owner)
    {
      ReplayedStep(db.escrow, db'.escrow, table, id, next, kind, owner);
    }
  }
}

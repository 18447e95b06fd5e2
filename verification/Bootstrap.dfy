/**
 * BootstrapChain and registerEscrowMetrics (internal/store/settlements.go): opening
 * snapshots enter the ledger and the tracked balances with their first posting.
 */
module Bootstrap {
  import opened Results
  import opened Totals
  import opened Blocks
  import opened Tables
  import opened Books
  import opened Summaries
  import opened Attribution
  import opened EscrowStore
  import opened EscrowLedger
  import opened EscrowSteps
  import opened Rewinds

  function SnapshotTracked(stream: Id, sender: Id, kind: Kind): TrackedKey {
    TrackedKey(kind, SnapshotSource(stream, sender), Eth)
  }

  function WithSnapshot(db: DB, stream: Id, sender: Id, row: SnapshotRow): DB {
    db.(escrow := db.escrow.(snapshots := db.escrow.snapshots[(stream, sender) := row]))
  }

  /** The tracked balances once both buckets of a sender are registered. */
  function Registered(db: DB, stream: Id, sender: Id): map<TrackedKey, Tracked> {
    db.summary.tracked[SnapshotTracked(stream, sender, EscrowDeposit) := Tracked(sender, Balance(db, EscrowDeposit, sender, Eth))]
                      [SnapshotTracked(stream, sender, EscrowReserve) := Tracked(sender, Balance(db, EscrowReserve, sender, Eth))]
  }

  function BucketAmount(db: DB, sender: Id, k: (AmountName, Currency)): int {
    if k == (Sum(EscrowDeposit), Eth) then Balance(db, EscrowDeposit, sender, Eth)
    else if k == (Sum(EscrowReserve), Eth) then Balance(db, EscrowReserve, sender, Eth)
    else 0
  }

  function BucketCount(db: DB, sender: Id, k: CountKey): int {
    if k == EscrowUnfunded(EscrowDeposit) then BoolCount(Balance(db, EscrowDeposit, sender, Eth) == 0)
    else if k == EscrowUnfunded(EscrowReserve) then BoolCount(Balance(db, EscrowReserve, sender, Eth) == 0)
    else 0
  }

  lemma RegisterBucketResult(db: DB, stream: Id, sender: Id, kind: Kind)
    requires SnapshotTracked(stream, sender, kind) !in db.summary.tracked
    requires (Sum(kind), Eth) in db.summary.amounts && CountOf(db.summary, EscrowUnfunded(kind)) >= 0
    ensures var r := RegisterBucket(db, stream, sender, kind);
            && r.Ok? && r.value == db.(summary := r.value.summary)
            && r.value.summary.tracked == db.summary.tracked[SnapshotTracked(stream, sender, kind) := Tracked(sender, Balance(db, kind, sender, Eth))]
            && r.value.summary.amounts == Credited(db.summary, Sum(kind), Eth, Balance(db, kind, sender, Eth)).amounts
            && (forall k :: CountOf(r.value.summary, k) == CountOf(db.summary, k) +
                 (if k == EscrowUnfunded(kind) then BoolCount(Balance(db, kind, sender, Eth) == 0) else 0))
  {
    hide ChangeCount, ChangeAmount;
    var balance := Balance(db, kind, sender, Eth);
    var s := db.summary.(tracked := db.summary.tracked[SnapshotTracked(stream, sender, kind) := Tracked(sender, balance)]);
    CreditedEffect(s, Sum(kind), Eth, balance);
    ChangeCountEffect(Credited(s, Sum(kind), Eth, balance), EscrowUnfunded(kind), BoolCount(balance == 0));
  }

  lemma RegisterResult(db: DB, stream: Id, sender: Id)
    requires SnapshotTracked(stream, sender, EscrowDeposit) !in db.summary.tracked && SnapshotTracked(stream, sender, EscrowReserve) !in db.summary.tracked
    requires (Sum(EscrowDeposit), Eth) in db.summary.amounts && (Sum(EscrowReserve), Eth) in db.summary.amounts
    requires CountOf(db.summary, EscrowUnfunded(EscrowDeposit)) >= 0 && CountOf(db.summary, EscrowUnfunded(EscrowReserve)) >= 0
    ensures var r := RegisterEscrowMetrics(db, stream, sender);
            && r.Ok? && r.value == db.(summary := r.value.summary)
            && r.value.summary.tracked == Registered(db, stream, sender)
            && r.value.summary.amounts.Keys == db.summary.amounts.Keys
            && (forall k :: k in db.summary.amounts ==>
                 r.value.summary.amounts[k] == db.summary.amounts[k] + BucketAmount(db, sender, k))
            && (forall k :: CountOf(r.value.summary, k) == CountOf(db.summary, k) + BucketCount(db, sender, k))
  {
    hide RegisterBucket, CountOf, Held, BoolCount;
    RegisterBucketResult(db, stream, sender, EscrowDeposit);
    var db1 := RegisterBucket(db, stream, sender, EscrowDeposit).value;
    assert Balance(db1, EscrowReserve, sender, Eth) == Balance(db, EscrowReserve, sender, Eth);
    RegisterBucketResult(db1, stream, sender, EscrowReserve);
  }

  lemma RegisteredTotal(db: DB, stream: Id, sender: Id, w: (TrackedKey, Tracked) -> int)
    requires SnapshotTracked(stream, sender, EscrowDeposit) !in db.summary.tracked && SnapshotTracked(stream, sender, EscrowReserve) !in db.summary.tracked
    ensures Total(Registered(db, stream, sender), w) == Total(db.summary.tracked, w) +
              w(SnapshotTracked(stream, sender, EscrowDeposit), Tracked(sender, Balance(db, EscrowDeposit, sender, Eth))) +
              w(SnapshotTracked(stream, sender, EscrowReserve), Tracked(sender, Balance(db, EscrowReserve, sender, Eth)))
  {
    hide Total;
    var kd, kr := SnapshotTracked(stream, sender, EscrowDeposit), SnapshotTracked(stream, sender, EscrowReserve);
    Updated(db.summary.tracked, w, kd, Tracked(sender, Balance(db, EscrowDeposit, sender, Eth)));
    Updated(db.summary.tracked[kd := Tracked(sender, Balance(db, EscrowDeposit, sender, Eth))], w, kr,
            Tracked(sender, Balance(db, EscrowReserve, sender, Eth)));
  }

  lemma NotTrackedYet(db: DB, stream: Id, sender: Id)
    requires TrackedOk(db) && (stream, sender) !in db.escrow.snapshots
    ensures SnapshotTracked(stream, sender, EscrowDeposit) !in db.summary.tracked && SnapshotTracked(stream, sender, EscrowReserve) !in db.summary.tracked
  {
    assert !IsTracked(db, SnapshotTracked(stream, sender, EscrowDeposit)) && !IsTracked(db, SnapshotTracked(stream, sender, EscrowReserve));
  }

  /** Registering a snapshot keeps the summaries, whatever its account already holds. */
  lemma RegisterKeeps(db: DB, stream: Id, sender: Id, row: SnapshotRow)
    requires SummaryOk(db) && (stream, sender) !in db.escrow.snapshots
    ensures var db1 := WithSnapshot(db, stream, sender, row);
            var r := RegisterEscrowMetrics(db1, stream, sender);
            r.Ok? && SummaryOk(r.value) && r.value == db1.(summary := r.value.summary)
  {
    hide RegisterEscrowMetrics, CountOf, RebuiltAmount, RebuiltCount, IsTracked, RebuiltTracked;
    var db1 := WithSnapshot(db, stream, sender, row);
    NotTrackedYet(db, stream, sender);
    AmountPresent(db, Sum(EscrowDeposit), Eth);
    AmountPresent(db, Sum(EscrowReserve), Eth);
    RebuiltCountNonNegative(db, EscrowUnfunded(EscrowDeposit));
    RebuiltCountNonNegative(db, EscrowUnfunded(EscrowReserve));
    RegisterResult(db1, stream, sender);
    var db' := RegisterEscrowMetrics(db1, stream, sender).value;
    RegisteredAmounts(db, db', stream, sender, row);
    RegisteredCounts(db, db', stream, sender, row);
    RegisteredTracked(db, db', stream, sender, row);
  }

  lemma RegisteredAmounts(db: DB, db': DB, stream: Id, sender: Id, row: SnapshotRow)
    requires AmountsOk(db) && TrackedOk(db) && (stream, sender) !in db.escrow.snapshots
    requires db' == WithSnapshot(db, stream, sender, row).(summary := db'.summary)
    requires db'.summary.tracked == Registered(db, stream, sender) && db'.summary.amounts.Keys == db.summary.amounts.Keys
    requires forall k :: k in db.summary.amounts ==> db'.summary.amounts[k] == db.summary.amounts[k] + BucketAmount(db, sender, k)
    ensures AmountsOk(db')
  {
    NotTrackedYet(db, stream, sender);
    hide Total, Registered, TrackedOk, BalanceWeight, SettlementWeight, Held;
    forall name, currency | AmountRow(name, currency)
      ensures (name, currency) in db'.summary.amounts && db'.summary.amounts[(name, currency)] == RebuiltAmount(db', name, currency)
    {
      assert (name, currency) in db.summary.amounts;
      if FromTracked(name) { RegisteredTotal(db, stream, sender, TrackedWeight(name.kind)); }
    }
  }

  lemma RegisteredCounts(db: DB, db': DB, stream: Id, sender: Id, row: SnapshotRow)
    requires CountsOk(db) && TrackedOk(db) && (stream, sender) !in db.escrow.snapshots
    requires db' == WithSnapshot(db, stream, sender, row).(summary := db'.summary)
    requires db'.summary.tracked == Registered(db, stream, sender)
    requires forall k :: CountOf(db'.summary, k) == CountOf(db.summary, k) + BucketCount(db, sender, k)
    ensures CountsOk(db')
  {
    NotTrackedYet(db, stream, sender);
    hide CountOf, TrackedOk;
    forall key ensures CountOf(db'.summary, key) == RebuiltCount(db', key) {
      RegisteredCount(db, db', stream, sender, row, key);
    }
  }

  lemma RegisteredCount(db: DB, db': DB, stream: Id, sender: Id, row: SnapshotRow, key: CountKey)
    requires SnapshotTracked(stream, sender, EscrowDeposit) !in db.summary.tracked && SnapshotTracked(stream, sender, EscrowReserve) !in db.summary.tracked
    requires db' == WithSnapshot(db, stream, sender, row).(summary := db'.summary)
    requires db'.summary.tracked == Registered(db, stream, sender)
    ensures RebuiltCount(db', key) == RebuiltCount(db, key) + BucketCount(db, sender, key)
  {
    hide Total, Registered, GrantWeight, AllocationWeight, QuarantineWeight, SettlementCountWeight, Held;
    if key.AllocationsOverdrawn? || key.EscrowUnfunded? {
      RegisteredTotal(db, stream, sender, TrackedCountWeight(key));
      var kd, kr := SnapshotTracked(stream, sender, EscrowDeposit), SnapshotTracked(stream, sender, EscrowReserve);
      var td, tr := Tracked(sender, Balance(db, EscrowDeposit, sender, Eth)), Tracked(sender, Balance(db, EscrowReserve, sender, Eth));
      assert TrackedCountWeight(key)(kd, td) == if key == EscrowUnfunded(EscrowDeposit) then BoolCount(td.balance == 0) else 0;
      assert TrackedCountWeight(key)(kr, tr) == if key == EscrowUnfunded(EscrowReserve) then BoolCount(tr.balance == 0) else 0;
    }
  }

  lemma RegisteredTracked(db: DB, db': DB, stream: Id, sender: Id, row: SnapshotRow)
    requires TrackedOk(db) && (stream, sender) !in db.escrow.snapshots
    requires db' == WithSnapshot(db, stream, sender, row).(summary := db'.summary)
    requires db'.summary.tracked == Registered(db, stream, sender)
    ensures TrackedOk(db')
  {
    var kd, kr := SnapshotTracked(stream, sender, EscrowDeposit), SnapshotTracked(stream, sender, EscrowReserve);
    hide Held;
    forall k ensures k in db'.summary.tracked <==> IsTracked(db', k)
      ensures k in db'.summary.tracked ==> db'.summary.tracked[k] == RebuiltTracked(db', k)
    {
      if k != kd && k != kr {
        assert IsTracked(db', k) == IsTracked(db, k) && RebuiltTracked(db', k) == RebuiltTracked(db, k);
      }
    }
  }

  // ---- One opening ----

  lemma OpenShape(db: DB, stream: Id, anchor: Block, o: Opening)
    requires (stream, o.sender) !in db.escrow.snapshots
    ensures var row := SnapshotRow(anchor.number, anchor.hash, o.deposit, o.reserve);
            var r := RegisterEscrowMetrics(WithSnapshot(db, stream, o.sender, row), stream, o.sender);
            Open(db, stream, anchor, o) == if r.Err? then Err(r.error) else PostOpening(r.value, stream, o)
  {
    hide RegisterEscrowMetrics, Transfer;
  }

  function PostOpening(db: DB, stream: Id, o: Opening): Outcome<DB> {
    var db1 :- Transfer(db, SnapshotKey(stream, o.sender, Deposit), TreasuryCash, o.sender, EscrowDeposit, o.sender, Eth, o.deposit);
    Transfer(db1, SnapshotKey(stream, o.sender, Reserve), TreasuryCash, o.sender, EscrowReserve, o.sender, Eth, o.reserve)
  }

  lemma PostOpeningKeeps(db: DB, stream: Id, o: Opening)
    requires BooksOk(db.books) && SummaryOk(db)
    requires SnapshotKey(stream, o.sender, Deposit) !in db.books.postings && SnapshotKey(stream, o.sender, Reserve) !in db.books.postings
    ensures var r := PostOpening(db, stream, o);
            r.Ok? && BooksOk(r.value.books) && SummaryOk(r.value)
  {
    hide Transfer, BooksOk, SummaryOk, Held, Moved;
    var kd, kr := SnapshotKey(stream, o.sender, Deposit), SnapshotKey(stream, o.sender, Reserve);
    TransferKeepsSummary(db, kd, TreasuryCash, o.sender, EscrowDeposit, o.sender, Eth, o.deposit);
    TransferKeepsBooks(db, kd, TreasuryCash, o.sender, EscrowDeposit, o.sender, Eth, o.deposit);
    TransferEffect(db, kd, TreasuryCash, o.sender, EscrowDeposit, o.sender, Eth, o.deposit);
    var db1 := Transfer(db, kd, TreasuryCash, o.sender, EscrowDeposit, o.sender, Eth, o.deposit).value;
    TransferKeepsSummary(db1, kr, TreasuryCash, o.sender, EscrowReserve, o.sender, Eth, o.reserve);
    TransferKeepsBooks(db1, kr, TreasuryCash, o.sender, EscrowReserve, o.sender, Eth, o.reserve);
  }

  predicate OpeningKey(k: Key, stream: Id, o: Opening) {
    k == SnapshotKey(stream, o.sender, Deposit) || k == SnapshotKey(stream, o.sender, Reserve)
  }

  ghost predicate OpeningPosted(before: map<Key, Posting>, next: map<Key, Posting>, stream: Id, o: Opening) {
    && (forall k :: k in before ==> k in next && next[k] == before[k])
    && forall k :: k in next && k !in before ==> OpeningKey(k, stream, o)
  }

  lemma PostOpeningEffect(db: DB, stream: Id, o: Opening)
    requires PostOpening(db, stream, o).Ok?
    ensures var db' := PostOpening(db, stream, o).value;
            && db'.budget == db.budget && db'.usage == db.usage && db'.escrow == db.escrow
            && OpeningPosted(db.books.postings, db'.books.postings, stream, o)
            && (forall a :: Held(db'.books.balances, a) == Held(db.books.balances, a) +
                 (if a.owner == o.sender && a.currency == Eth then OpeningEffect(SnapshotRow(0, NoHash, o.deposit, o.reserve), a.kind) else 0))
  {
    hide Transfer, Held;
    var kd, kr := SnapshotKey(stream, o.sender, Deposit), SnapshotKey(stream, o.sender, Reserve);
    TransferEffect(db, kd, TreasuryCash, o.sender, EscrowDeposit, o.sender, Eth, o.deposit);
    var db1 := Transfer(db, kd, TreasuryCash, o.sender, EscrowDeposit, o.sender, Eth, o.deposit).value;
    TransferEffect(db1, kr, TreasuryCash, o.sender, EscrowReserve, o.sender, Eth, o.reserve);
  }

  /** A bootstrap leaves budget and usage alone, and adds only snapshot keys to the ledger. */
  ghost predicate OpeningWrite(db: DB, db': DB) {
    && BudgetFrame(db, db')
    && (forall k :: k in db.books.postings ==> k in db'.books.postings && db'.books.postings[k] == db.books.postings[k])
    && (forall k :: k in db'.books.postings && k !in db.books.postings ==> k.SnapshotKey?)
    && db'.escrow.events == db.escrow.events && db'.escrow.settlements == db.escrow.settlements
  }

  lemma OpenKeeps(db: DB, stream: Id, anchor: Block, o: Opening)
    requires EscrowInv(db)
    ensures var r := Open(db, stream, anchor, o);
            && (r.Ok? <==> (stream, o.sender) !in db.escrow.snapshots)
            && (r.Err? ==> r.error == UniqueViolation)
            && (r.Ok? ==> EscrowInv(r.value) && OpeningWrite(db, r.value))
            && (r.Ok? ==> r.value.escrow.chains == db.escrow.chains &&
                          r.value.escrow.snapshots ==
                            db.escrow.snapshots[(stream, o.sender) := SnapshotRow(anchor.number, anchor.hash, o.deposit, o.reserve)])
  {
    if (stream, o.sender) !in db.escrow.snapshots {
      hide SummaryOk, BooksOk, SumsOk, LedgerOk, RegisterEscrowMetrics, PostOpening, Open, AgreeOk, AttributionOk, Held,
           OpeningPosted, OpeningEffect, SnapshotKeysOk, OpeningWrite;
      var row := SnapshotRow(anchor.number, anchor.hash, o.deposit, o.reserve);
      OpenShape(db, stream, anchor, o);
      RegisterKeeps(db, stream, o.sender, row);
      var db2 := RegisterEscrowMetrics(WithSnapshot(db, stream, o.sender, row), stream, o.sender).value;
      OpeningKeysFresh(db, stream, o);
      PostOpeningKeeps(db2, stream, o);
      PostOpeningEffect(db2, stream, o);
      var db' := PostOpening(db2, stream, o).value;
      OpenedSums(db, db', stream, o, row);
      OpenedLedger(db, db', stream, o);
      OpenedAgree(db.escrow, db'.escrow);
      OpenedRest(db, db', stream, o);
    }
  }

  lemma OpeningKeysFresh(db: DB, stream: Id, o: Opening)
    requires SnapshotKeysOk(db) && (stream, o.sender) !in db.escrow.snapshots
    ensures SnapshotKey(stream, o.sender, Deposit) !in db.books.postings && SnapshotKey(stream, o.sender, Reserve) !in db.books.postings
  {
  }

  lemma OpenedRest(db: DB, db': DB, stream: Id, o: Opening)
    requires SnapshotKeysOk(db) && AttributionOk(db)
    requires db'.budget == db.budget && db'.usage == db.usage
    requires db'.escrow.events == db.escrow.events && db'.escrow.settlements == db.escrow.settlements
    requires (stream, o.sender) in db'.escrow.snapshots && forall k :: k in db.escrow.snapshots ==> k in db'.escrow.snapshots
    requires OpeningPosted(db.books.postings, db'.books.postings, stream, o)
    requires forall a :: Held(db'.books.balances, a) == Held(db.books.balances, a) +
               (if a.owner == o.sender && a.currency == Eth then OpeningEffect(SnapshotRow(0, NoHash, o.deposit, o.reserve), a.kind) else 0)
    ensures SnapshotKeysOk(db') && AttributionOk(db') && OpeningWrite(db, db')
  {
    hide WantedMatch, SessionsFor, Held;
  }

  lemma OpenedAgree(e: Escrow, e': Escrow)
    requires AgreeOk(e) && e'.events == e.events && e'.settlements == e.settlements
    ensures AgreeOk(e')
  {
    forall id ensures AgreeAt(e', id) { assert AgreeAt(e, id); }
  }

  lemma OpenedSums(db: DB, db': DB, stream: Id, o: Opening, row: SnapshotRow)
    requires SumsOk(db) && (stream, o.sender) !in db.escrow.snapshots && row.deposit == o.deposit && row.reserve == o.reserve
    requires db'.escrow == WithSnapshot(db, stream, o.sender, row).escrow
    requires forall a :: Held(db'.books.balances, a) == Held(db.books.balances, a) +
               (if a.owner == o.sender && a.currency == Eth then OpeningEffect(SnapshotRow(0, NoHash, o.deposit, o.reserve), a.kind) else 0)
    ensures SumsOk(db')
  {
    hide Total, Held, EventPart, SettlementPart;
    forall kind, owner | ChainKind(kind)
      ensures Held(db'.books.balances, Account(kind, owner, Eth)) == Replayed(db'.escrow, kind, owner)
    {
      Updated(db.escrow.snapshots, OpeningPart(kind, owner), (stream, o.sender), row);
      assert OpeningEffect(row, kind) == OpeningEffect(SnapshotRow(0, NoHash, o.deposit, o.reserve), kind);
    }
  }

  lemma OpenedLedger(db: DB, db': DB, stream: Id, o: Opening)
    requires LedgerOk(db) && OpeningPosted(db.books.postings, db'.books.postings, stream, o)
    requires db'.escrow.events == db.escrow.events && db'.escrow.settlements == db.escrow.settlements
    ensures LedgerOk(db')
  {
    forall table, id, orphan, g, leg ensures KeyOk(db'.books.postings, RowOf(db'.escrow, table, id), table, id, orphan, g, leg) {
      assert KeyOk(db.books.postings, RowOf(db.escrow, table, id), table, id, orphan, g, leg);
      assert RowOf(db'.escrow, table, id) == RowOf(db.escrow, table, id);
    }
  }

  // ---- All openings ----

  /** No sender of the list twice, and none already opened on this stream. */
  predicate Openable(db: DB, stream: Id, snapshots: seq<Opening>) {
    && (forall i :: 0 <= i < |snapshots| ==> (stream, snapshots[i].sender) !in db.escrow.snapshots)
    && forall i, j :: 0 <= i < j < |snapshots| ==> snapshots[i].sender != snapshots[j].sender
  }

  lemma OpenableFront(db: DB, stream: Id, snapshots: seq<Opening>)
    requires snapshots != []
    ensures var front, last := snapshots[..|snapshots| - 1], snapshots[|snapshots| - 1];
            Openable(db, stream, snapshots) <==>
            Openable(db, stream, front) && (stream, last.sender) !in db.escrow.snapshots && !(exists o :: o in front && o.sender == last.sender)
  {
  }

  lemma {:induction false} OpenAllKeep(db: DB, stream: Id, anchor: Block, snapshots: seq<Opening>)
    requires EscrowInv(db)
    ensures var r := OpenAll(db, stream, anchor, snapshots);
            && (r.Ok? <==> Openable(db, stream, snapshots))
            && (r.Err? ==> r.error == UniqueViolation)
            && (r.Ok? ==> EscrowInv(r.value) && OpeningWrite(db, r.value) && r.value.escrow.chains == db.escrow.chains)
            && (r.Ok? ==> forall k :: k in r.value.escrow.snapshots <==>
                  k in db.escrow.snapshots || (k.0 == stream && exists o :: o in snapshots && o.sender == k.1))
            && (r.Ok? ==> forall k :: k in r.value.escrow.snapshots ==>
                  if k in db.escrow.snapshots then r.value.escrow.snapshots[k] == db.escrow.snapshots[k]
                  else k.0 == stream && r.value.escrow.snapshots[k].anchor == anchor.number)
  {
    hide EscrowInv, Open;
    if snapshots != [] {
      var front, last := snapshots[..|snapshots| - 1], snapshots[|snapshots| - 1];
      OpenableFront(db, stream, snapshots);
      OpenAllKeep(db, stream, anchor, front);
      assert forall o :: o in snapshots <==> o in front || o == last;
      if OpenAll(db, stream, anchor, front).Ok? {
        hide Openable, OpenAll;
        OpenKeeps(OpenAll(db, stream, anchor, front).value, stream, anchor, last);
      }
    }
  }

  predicate AnchorOk(db: DB, stream: Id, anchor: Block) {
    if anchor.number >= 0 then anchor.hash != NoHash && anchor.number !in ChainOf(db, stream).blocks
    else anchor.number == -1 && anchor.hash == NoHash
  }

  lemma OpeningThrough(db: DB, db1: DB, db2: DB, db': DB)
    requires OpeningWrite(db1, db2) && db1 == db.(escrow := db.escrow.(chains := db1.escrow.chains))
    requires db' == db2.(escrow := db2.escrow.(chains := db'.escrow.chains))
    ensures OpeningWrite(db, db')
  {
  }

  /** The stream now starts at the anchor, with snapshots taken there. */
  ghost predicate OpenedAt(db: DB, db': DB, stream: Id, anchor: Block) {
    && ChainOf(db', stream) ==
         Chain(if anchor.number >= 0 then ChainOf(db, stream).blocks[anchor.number := anchor.hash] else ChainOf(db, stream).blocks,
               Some(Checkpoint(anchor.number + 1, anchor.hash)))
    && (exists k :: k in db'.escrow.snapshots && k.0 == stream)
    && (forall k :: k in db.escrow.snapshots ==> k in db'.escrow.snapshots)
    && forall k :: k in db'.escrow.snapshots ==>
         if k in db.escrow.snapshots then db'.escrow.snapshots[k] == db.escrow.snapshots[k]
         else k.0 == stream && db'.escrow.snapshots[k].anchor == anchor.number
  }

  /** Bootstrapping succeeds exactly on a valid anchor and new, distinct senders, and keeps the escrow invariant. */
  lemma BootstrapKeeps(db: DB, stream: Id, anchor: Block, snapshots: seq<Opening>)
    requires EscrowInv(db)
    ensures var r := BootstrapChain(db, stream, anchor, snapshots);
            && (r.Ok? <==> snapshots != [] && AnchorOk(db, stream, anchor) && Openable(db, stream, snapshots))
            && (r.Err? ==> r.error in {EmptySnapshot, InvalidAnchor, UniqueViolation})
            && (r.Ok? ==> EscrowInv(r.value) && OpeningWrite(db, r.value))
            && (r.Ok? ==> OpenedAt(db, r.value, stream, anchor))
  {
    hide EscrowInv, OpenAll, OpeningWrite;
    if snapshots != [] && AnchorOk(db, stream, anchor) {
      var c := ChainOf(db, stream);
      var db1 := if anchor.number >= 0 then WithChain(db, stream, c.(blocks := c.blocks[anchor.number := anchor.hash])) else db;
      if anchor.number >= 0 { ChainFrame(db, stream, db1.escrow.chains[stream]); }
      OpenAllKeep(db1, stream, anchor, snapshots);
      if Openable(db, stream, snapshots) {
        var db2 := OpenAll(db1, stream, anchor, snapshots).value;
        assert snapshots[0] in snapshots;
        assert (stream, snapshots[0].sender) in db2.escrow.snapshots;
        hide Openable;
        OpeningThrough(db, db1, db2, SetCheckpoint(db2, stream, anchor.number + 1, anchor.hash));
        ChainFrame(db2, stream, ChainOf(db2, stream).(checkpoint := Some(Checkpoint(anchor.number + 1, anchor.hash))));
      }
    }
  }
}

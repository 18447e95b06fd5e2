/**
 * Batches of chain events and reorg rewinds (internal/store/settlements.go): both keep
 * the escrow invariant, and a rewind fails only at the opening snapshot.
 */
module Reorgs {
  import opened Results
  import opened Blocks
  import opened Tables
  import opened Books
  import opened Summaries
  import opened EscrowStore
  import opened EscrowLedger
  import opened EscrowSteps

  // ---- One event ----

  /** What decoding guarantees: a settlement has its event's identity, block and parties. */
  predicate Decoded(e: Event) {
    e.settlement.Some? ==>
      var s := e.settlement.value;
      s.log == e.log && s.block == e.block && s.sender == e.sender && s.recipient == e.recipient
  }

  predicate SameEvent(db: DB, e: Event) {
    e.log in db.escrow.events ==> db.escrow.events[e.log].data == EventDataOf(e)
  }

  predicate AlreadyCanonical(db: DB, e: Event) {
    e.log in db.escrow.events && db.escrow.events[e.log].canonical
  }

  /** Exactly when an event is accepted. */
  predicate Applicable(db: DB, e: Event) {
    && SameEvent(db, e)
    && if e.kind == WinningTicketRedeemed then e.settlement.Some? && Redeemable(db, e.settlement.value)
       else AlreadyCanonical(db, e) || WithdrawsAll(db, EventDataOf(e))
  }

  predicate RefusedEvent(e: Error) {
    RefusedRedemption(e) || e == MissingSettlement
  }

  function NextEvent(db: DB, e: Event): EventRow {
    if e.log in db.escrow.events then
      var row := db.escrow.events[e.log];
      if row.canonical then row else row.(canonical := true, generation := row.generation + 1)
    else EventRow(EventDataOf(e), true, 0)
  }

  lemma NextEventGoesLive(db: DB, e: Event)
    requires SameEvent(db, e) && !AlreadyCanonical(db, e)
    ensures GoesLive(RowOf(db.escrow, EventRows, e.log), EventRowOf(NextEvent(db, e)))
    ensures NextEvent(db, e).data == EventDataOf(e) && NextEvent(db, e).canonical
  {
  }

  /** A row written live with its postings. */
  lemma EnterEventKeeps(db: DB, id: LogId, row: EventRow)
    requires AccountsOk(db) && GoesLive(RowOf(db.escrow, EventRows, id), EventRowOf(row))
    ensures var r := PostLegs(WithEvent(db, id, row), EventRows, false, id, EventRowOf(row));
            && r.Ok? && AccountsOk(r.value) && r.value.escrow == WithEvent(db, id, row).escrow && RowsOnly(db, r.value)
  {
    hide BooksOk, SummaryOk, SumsOk, LedgerOk, PostLegs, Gain, RowOf, GoesLive;
    var db1 := WithEvent(db, id, row);
    SummaryFrame(db, db1);
    FreshRow(db, EventRows, id, EventRowOf(row), false);
    PostLegsKeep(db1, EventRows, false, id, EventRowOf(row));
    PostLegsEffect(db1, EventRows, false, id, EventRowOf(row));
    var db' := PostLegs(db1, EventRows, false, id, EventRowOf(row)).value;
    EventRowWritten(db.escrow, db'.escrow, id, row);
    LedgerStep(db, db', EventRows, id, false, EventRowOf(row));
    SumsStep(db, db', EventRows, id, false, EventRowOf(row));
    GainsAreOnChain(EventRowOf(row), false);
    LegsAreOnChain(db.books.postings, db'.books.postings, EventRows, false, id, EventRowOf(row));
  }

  /** Redemptions and payment legs of the contract post nothing themselves. */
  lemma NoLegs(db: DB, id: LogId, row: EventRow, orphan: bool)
    requires !(row.data.kind in {DepositFunded, ReserveFunded, Withdrawal})
    ensures PostLegs(db, EventRows, orphan, id, EventRowOf(row)) == Ok(db)
  {
    hide Adjust;
  }

  lemma PlainEventKeeps(db: DB, e: Event)
    requires EscrowInv(db) && SameEvent(db, e) && !AlreadyCanonical(db, e) && e.kind != WinningTicketRedeemed
    ensures var r := ApplyEvent(db, e);
            && (r.Ok? <==> WithdrawsAll(db, EventDataOf(e)))
            && (r.Err? ==> r.error == BalanceMismatch)
            && (r.Ok? ==> EscrowInv(r.value) && RowsOnly(db, r.value) && r.value.escrow == WithEvent(db, e.log, NextEvent(db, e)).escrow)
  {
    hide PostEvent, PostLegs, BooksOk, SummaryOk, SumsOk, LedgerOk, RowOf, GoesLive;
    var row := NextEvent(db, e);
    NextEventGoesLive(db, e);
    var db1 := WithEvent(db, e.log, row);
    PostEventIsLegs(db1, e.log, row.generation, EventDataOf(e));
    EnterEventKeeps(db, e.log, row);
    var r := ApplyEvent(db, e);
    if r.Ok? {
      RowsOnlyKeepsSnapshots(db, r.value);
      PlainAgree(db.escrow, r.value.escrow, e.log, row);
    }
  }

  lemma PlainAgree(before: Escrow, next: Escrow, id: LogId, row: EventRow)
    requires AgreeOk(before) && next == before.(events := before.events[id := row])
    requires row.data.kind != WinningTicketRedeemed && (id in before.events ==> before.events[id].data.kind == row.data.kind)
    ensures AgreeOk(next)
  {
    forall i ensures AgreeAt(next, i) { assert AgreeAt(before, i); }
  }

  lemma NewRedemptionKeeps(db: DB, e: Event)
    requires EscrowInv(db) && Decoded(e) && SameEvent(db, e) && !AlreadyCanonical(db, e)
    requires e.kind == WinningTicketRedeemed && e.settlement.Some?
    ensures var r := ApplyEvent(db, e);
            && (r.Ok? <==> Redeemable(db, e.settlement.value))
            && (r.Err? ==> RefusedRedemption(r.error))
            && (r.Ok? ==> EscrowInv(r.value) && RowsOnly(db, r.value) && r.value.escrow.events == db.escrow.events[e.log := NextEvent(db, e)]
                          && !AlreadySettled(db, e.settlement.value) && r.value.escrow.settlements == SettledRows(db, e.settlement.value))
  {
    hide PostLegs, BooksOk, SummaryOk, SumsOk, LedgerOk, RowOf, GoesLive, ApplySettlement, Redeemable;
    var row := NextEvent(db, e);
    var s := e.settlement.value;
    NextEventGoesLive(db, e);
    EnterEventKeeps(db, e.log, row);
    var db1 := WithEvent(db, e.log, row);
    NoLegs(db1, e.log, row, false);
    ApplySettlementKeeps(db1, s);
    SameRedeemable(db, db1, s);
    var r := ApplyEvent(db, e);
    if r.Ok? {
      assert RowsOnly(db, db1);
      RowsOnlyTwice(db, db1, r.value);
      RowsOnlyKeepsSnapshots(db, r.value);
      NotYetSettled(db, e);
      RedemptionAgree(db, r.value, e);
    }
  }

  lemma SameRedeemable(db: DB, db1: DB, s: Settlement)
    requires db1.escrow.settlements == db.escrow.settlements && db1.books == db.books && db1.usage == db.usage
    ensures Redeemable(db1, s) == Redeemable(db, s) && AlreadySettled(db1, s) == AlreadySettled(db, s)
    ensures NextRow(db1, s) == NextRow(db, s) && SettledRows(db1, s) == SettledRows(db, s)
    ensures Redeemable(db, s) ==> SameSettlement(db, s)
  {
  }

  lemma NotYetSettled(db: DB, e: Event)
    requires AgreeOk(db.escrow) && SameEvent(db, e) && !AlreadyCanonical(db, e) && e.kind == WinningTicketRedeemed
    requires e.settlement.Some? && e.settlement.value.log == e.log
    ensures !AlreadySettled(db, e.settlement.value)
    ensures NextRow(db, e.settlement.value).generation == NextEvent(db, e).generation
  {
    assert AgreeAt(db.escrow, e.log);
  }

  lemma RedemptionAgree(db: DB, db': DB, e: Event)
    requires AgreeOk(db.escrow) && Decoded(e) && SameEvent(db, e) && !AlreadyCanonical(db, e)
    requires e.kind == WinningTicketRedeemed && e.settlement.Some?
    requires SameSettlement(db, e.settlement.value)
    requires db'.escrow.events == db.escrow.events[e.log := NextEvent(db, e)]
    requires db'.escrow.settlements == SettledRows(db, e.settlement.value)
    ensures AgreeOk(db'.escrow)
  {
    forall id ensures AgreeAt(db'.escrow, id) {
      assert AgreeAt(db.escrow, id) && AgreeAt(db.escrow, e.log);
    }
  }

  lemma RepeatedRedemption(db: DB, e: Event)
    requires EscrowInv(db) && Decoded(e) && SameEvent(db, e) && AlreadyCanonical(db, e)
    requires e.kind == WinningTicketRedeemed && e.settlement.Some?
    ensures var r := ApplyEvent(db, e);
            && (r.Ok? <==> Redeemable(db, e.settlement.value))
            && (r.Err? ==> RefusedRedemption(r.error))
            && (r.Ok? ==> r.value == db)
  {
    hide AccountsOk, Redeemable, ApplySettlement;
    ApplySettlementKeeps(db, e.settlement.value);
    assert AgreeAt(db.escrow, e.log);
  }

  /**
   * Applying an event keeps the escrow invariant; it fails only for the reasons the
   * event itself gives, never on a summary decrement or a used ledger key.
   */
  lemma ApplyEventKeeps(db: DB, e: Event)
    requires EscrowInv(db) && Decoded(e)
    ensures var r := ApplyEvent(db, e);
            && (r.Ok? <==> Applicable(db, e))
            && (r.Err? ==> RefusedEvent(r.error))
            && (r.Ok? ==> EscrowInv(r.value) && RowsOnly(db, r.value) && r.value.escrow.events == db.escrow.events[e.log := NextEvent(db, e)])
            && (r.Ok? && AlreadyCanonical(db, e) ==> r.value == db)
            && (r.Ok? && !AlreadyCanonical(db, e) ==>
                  r.value.escrow.settlements == if e.kind == WinningTicketRedeemed then SettledRows(db, e.settlement.value) else db.escrow.settlements)
  {
    hide EscrowInv, Redeemable, WithdrawsAll, RowsOnly, PostEvent, ApplySettlement, SettledRows;
    if SameEvent(db, e) {
      if AlreadyCanonical(db, e) {
        assert db.escrow.events[e.log := NextEvent(db, e)] == db.escrow.events;
        RowsOnlySelf(db);
        if e.kind == WinningTicketRedeemed && e.settlement.Some? { RepeatedRedemption(db, e); }
      } else if e.kind != WinningTicketRedeemed {
        PlainEventKeeps(db, e);
      } else if e.settlement.Some? {
        NewRedemptionKeeps(db, e);
      }
    }
  }

  lemma RowsOnlySelf(db: DB)
    ensures RowsOnly(db, db)
  {
  }
}

/**
 * Rewind and ApplyChain (internal/store/settlements.go) keep the escrow invariant: a
 * rewind cancels exactly the rows it orphans, and cannot fail past its anchor check.
 */
module Rewinds {
  import opened Results
  import opened Blocks
  import opened Tables
  import opened Books
  import opened Summaries
  import opened Attribution
  import opened EscrowStore
  import opened EscrowLedger
  import opened EscrowSteps
  import opened Reorgs

  // ---- Reversing one row ----

  lemma LiveIsNotPosted(r: Row, live: bool)
    ensures forall before, next, table, orphan, id :: Legged(before, next, table, orphan, id, r) ==> Legged(before, next, table, orphan, id, r.(live := live))
    ensures forall orphan, a :: Gain(r, orphan, a) == Gain(r.(live := live), orphan, a)
  {
    forall before, next, table, orphan, id | Legged(before, next, table, orphan, id, r)
      ensures Legged(before, next, table, orphan, id, r.(live := live))
    {
      assert forall k :: IsLeg(k, table, orphan, id, r) == IsLeg(k, table, orphan, id, r.(live := live));
      assert forall leg :: PostingOf(r, leg, orphan) == PostingOf(r.(live := live), leg, orphan);
    }
  }

  lemma ReverseSettlementShape(db: DB, id: LogId)
    requires id in db.escrow.settlements
    ensures var row := db.escrow.settlements[id];
            var r := PostLegs(db, SettlementRows, true, id, SettlementRowOf(row));
            ReverseSettlement(db, id) ==
              if r.Err? then Err(r.error) else
                var s := UpdateSettlementMetrics(r.value.summary, Some(true), false, Tag(row.matching), row.data.face, row.data.paid);
                if s.Err? then Err(s.error) else Ok(WithSettlement(r.value, id, row.(settled := false)).(summary := s.value))
  {
    hide UpdateSettlementMetrics, Transfer, PostLegs;
    PayLegsIsLegs(db, id, db.escrow.settlements[id], true);
  }

  lemma ReverseSettlementKeeps(db: DB, id: LogId)
    requires AccountsOk(db) && id in db.escrow.settlements && db.escrow.settlements[id].settled
    ensures var r := ReverseSettlement(db, id);
            && r.Ok? && AccountsOk(r.value) && RowsOnly(db, r.value)
            && r.value.escrow == WithSettlement(db, id, db.escrow.settlements[id].(settled := false)).escrow
  {
    hide BooksOk, SummaryOk, SumsOk, LedgerOk, PostLegs, ReverseSettlement, UpdateSettlementMetrics, Gain, Legged, Fresh;
    var row := db.escrow.settlements[id];
    var r, next := SettlementRowOf(row), row.(settled := false);
    ReverseSettlementShape(db, id);
    FreshRow(db, SettlementRows, id, r, true);
    PostLegsKeep(db, SettlementRows, true, id, r);
    PostLegsEffect(db, SettlementRows, true, id, r);
    var db2 := PostLegs(db, SettlementRows, true, id, r).value;
    SettlementWritten(db2, id, next);
    var db' := ReverseSettlement(db, id).value;
    SettlementRowWritten(db.escrow, db'.escrow, id, next);
    LiveIsNotPosted(r, false);
    LedgerStep(db, db', SettlementRows, id, true, SettlementRowOf(next));
    SumsStep(db, db', SettlementRows, id, true, SettlementRowOf(next));
    GainsAreOnChain(SettlementRowOf(next), true);
    LegsAreOnChain(db.books.postings, db'.books.postings, SettlementRows, true, id, SettlementRowOf(next));
  }

  lemma ReverseEventKeeps(db: DB, id: LogId)
    requires AccountsOk(db) && id in db.escrow.events && db.escrow.events[id].canonical
    ensures var r := ReverseEvent(db, id);
            && r.Ok? && AccountsOk(r.value) && RowsOnly(db, r.value)
            && r.value.escrow == WithEvent(db, id, db.escrow.events[id].(canonical := false)).escrow
  {
    hide BooksOk, SummaryOk, SumsOk, LedgerOk, PostLegs, UnpostEvent, Gain, Legged, Fresh, EventRowOf;
    var row := db.escrow.events[id];
    var r, next := EventRowOf(row), row.(canonical := false);
    OrphanRow(row);
    UnpostEventIsLegs(db, id, row.generation, row.data);
    FreshRow(db, EventRows, id, r, true);
    PostLegsKeep(db, EventRows, true, id, r);
    PostLegsEffect(db, EventRows, true, id, r);
    var db2 := PostLegs(db, EventRows, true, id, r).value;
    var db' := ReverseEvent(db, id).value;
    SummaryFrame(db2, db');
    EventRowWritten(db.escrow, db'.escrow, id, next);
    LiveIsNotPosted(r, false);
    LedgerStep(db, db', EventRows, id, true, EventRowOf(next));
    SumsStep(db, db', EventRows, id, true, EventRowOf(next));
    GainsAreOnChain(EventRowOf(next), true);
    LegsAreOnChain(db.books.postings, db'.books.postings, EventRows, true, id, EventRowOf(next));
  }

  lemma OrphanRow(row: EventRow)
    ensures row.canonical ==> EventRowOf(EventRow(row.data, true, row.generation)) == EventRowOf(row)
    ensures EventRowOf(row).live == row.canonical && OnChain(EventRowOf(row.(canonical := false)))
    ensures EventRowOf(row.(canonical := false)) == EventRowOf(row).(live := false)
  {
  }

  // ---- Reversing the listed rows ----

  function SettlementsReversed(rows: map<LogId, SettlementRow>, ids: seq<LogId>): map<LogId, SettlementRow> {
    map id | id in rows :: if id in ids then rows[id].(settled := false) else rows[id]
  }

  function EventsReversed(rows: map<LogId, EventRow>, ids: seq<LogId>): map<LogId, EventRow> {
    map id | id in rows :: if id in ids then rows[id].(canonical := false) else rows[id]
  }

  lemma Front(ids: seq<LogId>)
    requires ids != [] && NoRepeats(ids)
    ensures NoRepeats(ids[..|ids| - 1]) && ids[|ids| - 1] !in ids[..|ids| - 1]
    ensures forall id :: id in ids <==> id in ids[..|ids| - 1] || id == ids[|ids| - 1]
  {
  }

  lemma {:induction false} ReverseSettlementsKeep(db: DB, ids: seq<LogId>)
    requires AccountsOk(db) && NoRepeats(ids)
    requires forall id :: id in ids ==> id in db.escrow.settlements && db.escrow.settlements[id].settled
    ensures var r := ReverseSettlements(db, ids);
            && r.Ok? && AccountsOk(r.value) && RowsOnly(db, r.value)
            && r.value.escrow == db.escrow.(settlements := SettlementsReversed(db.escrow.settlements, ids))
  {
    hide AccountsOk, RowsOnly, ReverseSettlement;
    if ids == [] {
      RowsOnlySelf(db);
      assert SettlementsReversed(db.escrow.settlements, ids) == db.escrow.settlements;
    } else {
      var front, last := ids[..|ids| - 1], ids[|ids| - 1];
      Front(ids);
      ReverseSettlementsKeep(db, front);
      var db1 := ReverseSettlements(db, front).value;
      ReverseSettlementKeeps(db1, last);
      RowsOnlyTwice(db, db1, ReverseSettlement(db1, last).value);
      assert SettlementsReversed(db.escrow.settlements, ids) ==
             SettlementsReversed(db.escrow.settlements, front)[last := db1.escrow.settlements[last].(settled := false)];
    }
  }

  lemma {:induction false} ReverseEventsKeep(db: DB, ids: seq<LogId>)
    requires AccountsOk(db) && NoRepeats(ids)
    requires forall id :: id in ids ==> id in db.escrow.events && db.escrow.events[id].canonical
    ensures var r := ReverseEvents(db, ids);
            && r.Ok? && AccountsOk(r.value) && RowsOnly(db, r.value)
            && r.value.escrow == db.escrow.(events := EventsReversed(db.escrow.events, ids))
  {
    hide AccountsOk, RowsOnly, ReverseEvent;
    if ids == [] {
      RowsOnlySelf(db);
      assert EventsReversed(db.escrow.events, ids) == db.escrow.events;
    } else {
      var front, last := ids[..|ids| - 1], ids[|ids| - 1];
      Front(ids);
      ReverseEventsKeep(db, front);
      var db1 := ReverseEvents(db, front).value;
      ReverseEventKeeps(db1, last);
      RowsOnlyTwice(db, db1, ReverseEvent(db1, last).value);
      assert EventsReversed(db.escrow.events, ids) ==
             EventsReversed(db.escrow.events, front)[last := db1.escrow.events[last].(canonical := false)];
    }
  }

  // ---- Rewind ----

  function OrphanedAfter(rows: map<LogId, EventRow>, after: int): map<LogId, EventRow> {
    map id | id in rows :: if rows[id].data.block > after then rows[id].(canonical := false) else rows[id]
  }

  function UnsettledAfter(rows: map<LogId, SettlementRow>, after: int): map<LogId, SettlementRow> {
    map id | id in rows :: if rows[id].data.block > after then rows[id].(settled := false) else rows[id]
  }

  /** The rows after a rewind: those above the ancestor are orphaned, whatever the order of reversal. */
  function RewoundRows(e: Escrow, after: int): Escrow {
    e.(events := OrphanedAfter(e.events, after), settlements := UnsettledAfter(e.settlements, after))
  }

  lemma ListedRows(db: DB, settlements: seq<LogId>, events: seq<LogId>, after: int)
    requires ListsSettlements(db, settlements, after) && ListsEvents(db, events, after)
    ensures EventsReversed(db.escrow.events, events) == OrphanedAfter(db.escrow.events, after)
    ensures SettlementsReversed(db.escrow.settlements, settlements) == UnsettledAfter(db.escrow.settlements, after)
  {
    forall id | id in db.escrow.events
      ensures EventsReversed(db.escrow.events, events)[id] == OrphanedAfter(db.escrow.events, after)[id]
    {
      assert id in events <==> id in Orphaned(db, after);
    }
    forall id | id in db.escrow.settlements
      ensures SettlementsReversed(db.escrow.settlements, settlements)[id] == UnsettledAfter(db.escrow.settlements, after)[id]
    {
      assert id in settlements <==> id in Unsettled(db, after);
    }
  }

  lemma RewoundAgree(e: Escrow, after: int)
    requires AgreeOk(e)
    ensures AgreeOk(RewoundRows(e, after))
  {
    forall id ensures AgreeAt(RewoundRows(e, after), id) { assert AgreeAt(e, id); }
  }

  lemma RewoundAttribution(db: DB, db': DB, after: int)
    requires AttributionOk(db) && db'.usage == db.usage && db'.escrow.settlements == UnsettledAfter(db.escrow.settlements, after)
    ensures AttributionOk(db')
  {
    hide WantedMatch, SessionsFor;
  }

  /** The invariant does not read blocks and checkpoints. */
  lemma ChainFrame(db: DB, stream: Id, c: Chain)
    requires EscrowInv(db)
    ensures EscrowInv(WithChain(db, stream, c))
  {
    hide SummaryOk, BooksOk, KeyOk, Replayed, WantedMatch, SessionsFor;
    var db' := WithChain(db, stream, c);
    SummaryFrame(db, db');
    assert LedgerOk(db') by {
      hide SumsOk;
      forall table, id ensures RowOf(db'.escrow, table, id) == RowOf(db.escrow, table, id) { }
    }
    assert SumsOk(db') by {
      hide LedgerOk;
      forall kind, owner ensures Replayed(db'.escrow, kind, owner) == Replayed(db.escrow, kind, owner) { ReplayedFrame(db.escrow, db'.escrow, kind, owner); }
    }
    assert AgreeOk(db'.escrow) by {
      hide LedgerOk, SumsOk;
      forall id ensures AgreeAt(db'.escrow, id) { assert AgreeAt(db.escrow, id); }
    }
  }

  lemma ReplayedFrame(e: Escrow, e': Escrow, kind: Kind, owner: Id)
    requires e'.snapshots == e.snapshots && e'.events == e.events && e'.settlements == e.settlements
    ensures Replayed(e', kind, owner) == Replayed(e, kind, owner)
  {
  }

  /** Only budget-side facts and the append-only ledger survive a whole chain write. */
  ghost predicate ChainWrite(db: DB, db': DB) {
    BudgetFrame(db, db') && RowKeysAdded(db.books.postings, db'.books.postings) && db'.escrow.snapshots == db.escrow.snapshots
  }

  /**
   * A rewind succeeds exactly when the ancestor is not below every opening anchor of the
   * stream. It orphans every row above the ancestor and nothing else, and keeps the whole
   * invariant: balances are again the opening state plus the canonical rows.
   */
  lemma RewindKeeps(db: DB, stream: Id, ancestor: Block, settlements: seq<LogId>, events: seq<LogId>)
    requires EscrowInv(db)
    requires ListsSettlements(db, settlements, ancestor.number) && ListsEvents(db, events, ancestor.number)
    ensures var r := Rewind(db, stream, ancestor, settlements, events);
            && (r.Ok? <==> HasSnapshot(db, stream) && !BeforeAnchors(db, stream, ancestor.number))
            && (r.Err? ==> r.error == NoRows || r.error == SnapshotReorg)
            && (r.Ok? ==> EscrowInv(r.value) && ChainWrite(db, r.value))
            && (r.Ok? ==> r.value.escrow == RewoundRows(db.escrow, ancestor.number).(chains := r.value.escrow.chains))
            && (r.Ok? ==> r.value.escrow.chains == Truncated(db, stream, ancestor).escrow.chains)
  {
    if HasSnapshot(db, stream) && !BeforeAnchors(db, stream, ancestor.number) {
      hide AccountsOk, RowsOnly, ReverseSettlements, ReverseEvents, AttributionOk, AgreeOk, SnapshotKeysOk, OrphanedAfter, UnsettledAfter,
           EventsReversed, SettlementsReversed;
      ListedSettled(db, settlements, events, ancestor.number);
      ReverseSettlementsKeep(db, settlements);
      var db1 := ReverseSettlements(db, settlements).value;
      ReverseEventsKeep(db1, events);
      var db2 := ReverseEvents(db1, events).value;
      RowsOnlyTwice(db, db1, db2);
      ListedRows(db, settlements, events, ancestor.number);
      assert db2.escrow == RewoundRows(db.escrow, ancestor.number);
      RewoundAgree(db.escrow, ancestor.number);
      RowsOnlyKeepsSnapshots(db, db2);
      RowsOnlyFrame(db, db2);
      RewoundAttribution(db, db2, ancestor.number);
      ChainFrame(db2, stream, Truncated(db2, stream, ancestor).escrow.chains[stream]);
      ChainWriteFrame(db, db2, stream, Truncated(db2, stream, ancestor).escrow.chains[stream]);
    }
  }

  lemma RowsOnlyFrame(db: DB, db': DB)
    requires RowsOnly(db, db')
    ensures db'.usage == db.usage && ChainWrite(db, db') && db'.escrow.chains == db.escrow.chains
  {
  }

  lemma ChainWriteFrame(db: DB, db': DB, stream: Id, c: Chain)
    requires ChainWrite(db, db')
    ensures ChainWrite(db, WithChain(db', stream, c))
  {
  }

  lemma ListedSettled(db: DB, settlements: seq<LogId>, events: seq<LogId>, after: int)
    requires ListsSettlements(db, settlements, after) && ListsEvents(db, events, after)
    ensures NoRepeats(settlements) && NoRepeats(events)
    ensures forall id :: id in settlements ==> id in db.escrow.settlements && db.escrow.settlements[id].settled
    ensures forall id :: id in events ==> id in db.escrow.events && db.escrow.events[id].canonical
  {
    forall id | id in settlements ensures id in Unsettled(db, after) { }
    forall id | id in events ensures id in Orphaned(db, after) { }
  }

  // ---- ApplyChain ----

  lemma {:induction false} ApplyEventsKeep(db: DB, events: seq<Event>)
    requires EscrowInv(db) && forall e :: e in events ==> Decoded(e)
    ensures var r := ApplyEvents(db, events);
            && (r.Err? ==> RefusedEvent(r.error))
            && (r.Ok? ==> EscrowInv(r.value) && RowsOnly(db, r.value))
  {
    hide EscrowInv, RowsOnly, ApplyEvent, Applicable;
    if events == [] {
      RowsOnlySelf(db);
    } else {
      var front, last := events[..|events| - 1], events[|events| - 1];
      ApplyEventsKeep(db, front);
      if ApplyEvents(db, front).Ok? {
        var db1 := ApplyEvents(db, front).value;
        assert last in events;
        ApplyEventKeeps(db1, last);
        if ApplyEvent(db1, last).Ok? { RowsOnlyTwice(db, db1, ApplyEvent(db1, last).value); }
      }
    }
  }

  /** A batch keeps the escrow invariant, and fails only on what its events say. */
  lemma ApplyChainKeeps(db: DB, stream: Id, blocks: seq<Block>, events: seq<Event>, lookback: int)
    requires EscrowInv(db) && forall e :: e in events ==> Decoded(e)
    ensures var r := ApplyChain(db, stream, blocks, events, lookback);
            && (r.Err? ==> RefusedEvent(r.error) || r.error == EmptyBatch)
            && (r.Ok? ==> EscrowInv(r.value) && ChainWrite(db, r.value))
  {
    hide EscrowInv, ApplyEvents, RowsOnly, ChainWrite, PutBlocks;
    if blocks != [] {
      var c := Chain(PutBlocks(ChainOf(db, stream).blocks, blocks), ChainOf(db, stream).checkpoint);
      var db1 := WithChain(db, stream, c);
      ChainFrame(db, stream, c);
      ApplyEventsKeep(db1, events);
      if ApplyEvents(db1, events).Ok? {
        var db2 := ApplyEvents(db1, events).value;
        var db' := ApplyChain(db, stream, blocks, events, lookback).value;
        ChainFrame(db2, stream, db'.escrow.chains[stream]);
        RowsOnlyFrame(db1, db2);
        ChainWriteStart(db, db1, db2, stream, c);
        ChainWriteFrame(db, db2, stream, db'.escrow.chains[stream]);
      }
    }
  }

  lemma ChainWriteStart(db: DB, db1: DB, db2: DB, stream: Id, c: Chain)
    requires db1 == WithChain(db, stream, c) && ChainWrite(db1, db2)
    ensures ChainWrite(db, db2)
  {
  }
}

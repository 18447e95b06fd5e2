/**
 * What the chain writes leave (internal/store/settlements.go): when an event is accepted,
 * the rows that tell it, the blocks that are kept, and the rows a rewind orphans.
 */
module ChainEffects {
  import opened Results
  import opened Blocks
  import opened Tables
  import opened Books
  import opened Attribution
  import opened EscrowStore
  import opened EscrowSteps
  import opened EscrowLedger
  import opened Reorgs
  import opened Rewinds

  // ---- Rows ----

  /** The row says what the event says. */
  predicate Tells(row: EventRow, e: Event) {
    var d := row.data;
    d.kind == e.kind && d.sender == e.sender && d.recipient == e.recipient && d.amount == e.amount &&
    d.depositAmount == e.depositAmount && d.reserveAmount == e.reserveAmount && d.block == e.block
  }

  predicate TellsPayment(row: SettlementRow, s: Settlement) {
    var d := row.data;
    d.block == s.block && d.sender == s.sender && d.recipient == s.recipient && d.face == s.face && d.paid == s.paid &&
    d.depositPaid == s.depositPaid && d.reservePaid == s.reservePaid && d.ticket == s.ticket
  }

  /** A redemption splits into deposit and reserve, takes the deposit as far as it goes, and the reserve covers its share. */
  predicate Payable(db: DB, s: Settlement) {
    var deposit := Held(db.books.balances, Account(EscrowDeposit, s.sender, Eth));
    var reserve := Held(db.books.balances, Account(EscrowReserve, s.sender, Eth));
    s.depositPaid == (if s.face <= deposit then s.face else deposit) && s.reservePaid <= reserve
  }

  /** A withdrawal takes exactly what is there. */
  predicate Withdrawable(db: DB, e: Event) {
    && Held(db.books.balances, Account(EscrowDeposit, e.sender, Eth)) == e.depositAmount
    && Held(db.books.balances, Account(EscrowReserve, e.sender, Eth)) == e.reserveAmount
  }

  /** No row contradicts the event, and the balances bear it out if it is new or orphaned. */
  predicate BorneOut(db: DB, e: Event) {
    && (e.log in db.escrow.events ==> Tells(db.escrow.events[e.log], e))
    && if e.kind == WinningTicketRedeemed then
         e.settlement.Some? &&
         var s := e.settlement.value;
         && s.paid == s.depositPaid + s.reservePaid && s.paid <= s.face
         && (s.log in db.escrow.settlements ==> TellsPayment(db.escrow.settlements[s.log], s))
         && ((s.log in db.escrow.settlements && db.escrow.settlements[s.log].settled) || Payable(db, s))
       else (e.log in db.escrow.events && db.escrow.events[e.log].canonical) || (e.kind == Withdrawal ==> Withdrawable(db, e))
  }

  lemma AcceptedIff(db: DB, e: Event)
    requires EscrowInv(db) && Decoded(e)
    ensures ApplyEvent(db, e).Ok? <==> BorneOut(db, e)
  {
    hide *;
    ApplyEventKeeps(db, e);
    ApplicableMeans(db, e);
  }

  lemma ApplicableMeans(db: DB, e: Event)
    ensures Applicable(db, e) <==> BorneOut(db, e)
  {
    hide Held;
  }

  /** The row of an applied event: live, and telling it. */
  predicate Stored(e: Escrow, ev: Event) {
    && ev.log in e.events && e.events[ev.log].canonical && Tells(e.events[ev.log], ev)
    && (ev.kind == WinningTicketRedeemed && ev.settlement.Some? ==>
          ev.log in e.settlements && e.settlements[ev.log].settled && TellsPayment(e.settlements[ev.log], ev.settlement.value))
  }

  function LogsOf(events: seq<Event>): set<LogId> {
    set e | e in events :: e.log
  }

  /** Rows of other logs are as they were, but for the attribution of settlements. */
  ghost predicate RowsKept(e: Escrow, e': Escrow, logs: set<LogId>) {
    && (forall id :: id !in logs && (id in e.events || id in e'.events) ==>
          id in e.events && id in e'.events && e'.events[id] == e.events[id])
    && forall id :: id !in logs && (id in e.settlements || id in e'.settlements) ==>
         id in e.settlements && id in e'.settlements && e'.settlements[id] == e.settlements[id].(matching := e'.settlements[id].matching)
  }

  /** Live rows stay live and keep what they say. */
  ghost predicate LiveKept(e: Escrow, e': Escrow) {
    && (forall id :: id in e.events && e.events[id].canonical ==> id in e'.events && e'.events[id] == e.events[id])
    && forall id :: id in e.settlements && e.settlements[id].settled ==>
         id in e'.settlements && e'.settlements[id] == e.settlements[id].(matching := e'.settlements[id].matching)
  }

  lemma EventStored(db: DB, e: Event)
    requires EscrowInv(db) && Decoded(e) && ApplyEvent(db, e).Ok?
    ensures var db' := ApplyEvent(db, e).value;
            && EscrowInv(db') && Stored(db'.escrow, e) && RowsKept(db.escrow, db'.escrow, {e.log}) && LiveKept(db.escrow, db'.escrow)
            && db'.escrow.snapshots == db.escrow.snapshots && db'.escrow.chains == db.escrow.chains
  {
    hide *;
    ApplyEventKeeps(db, e);
    AcceptedIff(db, e);
    var db' := ApplyEvent(db, e).value;
    OnlyRows(db, db');
    if AlreadyCanonical(db, e) {
      CanonicalStored(db, e);
    } else {
      NewlyStored(db, db', e);
    }
  }

  lemma OnlyRows(db: DB, db': DB)
    requires RowsOnly(db, db')
    ensures db'.escrow.snapshots == db.escrow.snapshots && db'.escrow.chains == db.escrow.chains
  {
    hide Held;
  }

  lemma CanonicalStored(db: DB, e: Event)
    requires EscrowInv(db) && Applicable(db, e) && AlreadyCanonical(db, e) && Decoded(e)
    ensures Stored(db.escrow, e) && RowsKept(db.escrow, db.escrow, {e.log}) && LiveKept(db.escrow, db.escrow)
  {
    AgreeIn(db, e.log);
    hide EscrowInv, Covered, SplitOk;
  }

  lemma AgreeIn(db: DB, id: LogId)
    requires EscrowInv(db)
    ensures AgreeAt(db.escrow, id)
  {
    hide AccountsOk, SnapshotKeysOk, AttributionOk, AgreeAt;
  }

  lemma NewlyStored(db: DB, db': DB, e: Event)
    requires Decoded(e) && Applicable(db, e) && !AlreadyCanonical(db, e) && EscrowInv(db)
    requires db'.escrow.events == db.escrow.events[e.log := NextEvent(db, e)]
    requires db'.escrow.settlements == if e.kind == WinningTicketRedeemed then SettledRows(db, e.settlement.value) else db.escrow.settlements
    ensures Stored(db'.escrow, e) && RowsKept(db.escrow, db'.escrow, {e.log}) && LiveKept(db.escrow, db'.escrow)
  {
    hide *;
    AgreeIn(db, e.log);
    NewEventRow(db, e);
    if e.kind == WinningTicketRedeemed { NewSettlementRow(db, e); }
    RowsAssembled(db.escrow, db'.escrow, e);
  }

  lemma NewEventRow(db: DB, e: Event)
    requires Applicable(db, e) && !AlreadyCanonical(db, e)
    ensures NextEvent(db, e).canonical && Tells(NextEvent(db, e), e)
    ensures e.log in db.escrow.events ==> !db.escrow.events[e.log].canonical
  {
    hide Redeemable, WithdrawsAll;
  }

  /** The settlement of a new redemption goes live, and other settlements at most change their match. */
  lemma NewSettlementRow(db: DB, e: Event)
    requires Decoded(e) && Applicable(db, e) && !AlreadyCanonical(db, e) && e.kind == WinningTicketRedeemed && AgreeAt(db.escrow, e.log)
    ensures e.settlement.Some? && var rows := SettledRows(db, e.settlement.value);
            && e.log in rows && rows[e.log].settled && TellsPayment(rows[e.log], e.settlement.value)
            && rows.Keys == db.escrow.settlements.Keys + {e.log}
            && (e.log in db.escrow.settlements ==> !db.escrow.settlements[e.log].settled)
            && forall id :: id in db.escrow.settlements && id != e.log ==> rows[id] == db.escrow.settlements[id].(matching := rows[id].matching)
  {
    hide WantedMatch, SessionsFor, WithdrawsAll, Concerns, Covered, SplitOk;
  }

  lemma RowsAssembled(e: Escrow, e': Escrow, ev: Event)
    requires ev.log in e'.events && e'.events == e.events[ev.log := e'.events[ev.log]] && e'.events[ev.log].canonical && Tells(e'.events[ev.log], ev)
    requires ev.log in e.events ==> !e.events[ev.log].canonical
    requires if ev.kind == WinningTicketRedeemed then
               && ev.settlement.Some? && ev.log in e'.settlements && e'.settlements[ev.log].settled && TellsPayment(e'.settlements[ev.log], ev.settlement.value)
               && e'.settlements.Keys == e.settlements.Keys + {ev.log} && (ev.log in e.settlements ==> !e.settlements[ev.log].settled)
               && forall id :: id in e.settlements && id != ev.log ==> e'.settlements[id] == e.settlements[id].(matching := e'.settlements[id].matching)
             else e'.settlements == e.settlements
    ensures Stored(e', ev) && RowsKept(e, e', {ev.log}) && LiveKept(e, e')
  {
    hide Tells, TellsPayment;
  }

  lemma {:induction false} EventsStored(db: DB, events: seq<Event>)
    requires EscrowInv(db) && (forall e :: e in events ==> Decoded(e)) && ApplyEvents(db, events).Ok?
    ensures var db' := ApplyEvents(db, events).value;
            && EscrowInv(db') && (forall e :: e in events ==> Stored(db'.escrow, e)) && RowsKept(db.escrow, db'.escrow, LogsOf(events))
            && db'.escrow.snapshots == db.escrow.snapshots && db'.escrow.chains == db.escrow.chains
  {
    hide EscrowInv, ApplyEvent, Decoded, Stored, RowsKept, LiveKept;
    if events == [] {
      NothingKept(db.escrow);
    } else {
      var front, last := events[..|events| - 1], events[|events| - 1];
      EventsStored(db, front);
      var db1 := ApplyEvents(db, front).value;
      EventStored(db1, last);
      var db' := ApplyEvents(db, events).value;
      forall e | e in front ensures Stored(db'.escrow, e) { StoredStays(db1.escrow, db'.escrow, e); }
      KeptTwice(db.escrow, db1.escrow, db'.escrow, front, last);
      assert events == front + [last];
    }
  }

  lemma NothingKept(e: Escrow)
    ensures RowsKept(e, e, LogsOf([]))
  {
  }

  lemma StoredStays(e: Escrow, e': Escrow, ev: Event)
    requires Stored(e, ev) && LiveKept(e, e')
    ensures Stored(e', ev)
  {
  }

  lemma KeptTwice(e0: Escrow, e1: Escrow, e2: Escrow, front: seq<Event>, last: Event)
    requires RowsKept(e0, e1, LogsOf(front)) && RowsKept(e1, e2, {last.log})
    ensures RowsKept(e0, e2, LogsOf(front + [last]))
  {
    assert LogsOf(front + [last]) == LogsOf(front) + {last.log} by { LogsMore(front, last); }
    hide LogsOf;
  }

  lemma LogsMore(front: seq<Event>, last: Event)
    ensures LogsOf(front + [last]) == LogsOf(front) + {last.log}
  {
    assert forall ev :: ev in front + [last] <==> ev in front || ev == last;
    assert last in front + [last];
    forall id | id in LogsOf(front) ensures id in LogsOf(front + [last]) {
      var ev :| ev in front && ev.log == id;
      assert ev in front + [last];
    }
  }

  // ---- Blocks ----

  /** The batch's last word on a number, or else the block that was stored under it. */
  predicate StoredBlock(before: map<int, Hash>, batch: seq<Block>, n: int, hash: Hash) {
    || (exists i :: 0 <= i < |batch| && batch[i] == Block(n, hash) && forall j :: i < j < |batch| ==> batch[j].number != n)
    || ((forall i :: 0 <= i < |batch| ==> batch[i].number != n) && n in before && before[n] == hash)
  }

  predicate Numbered(batch: seq<Block>, n: int) {
    exists i :: 0 <= i < |batch| && batch[i].number == n
  }

  lemma {:induction false} NumbersPut(before: map<int, Hash>, batch: seq<Block>, n: int)
    ensures n in PutBlocks(before, batch) <==> n in before || Numbered(batch, n)
  {
    if batch != [] {
      var front, last := batch[..|batch| - 1], batch[|batch| - 1];
      NumbersPut(before, front, n);
      hide PutBlocks;
      PutLast(before, batch);
      assert batch == front + [last];
      assert batch[|front|] == last && forall i :: 0 <= i < |front| ==> batch[i] == front[i];
    }
  }

  lemma {:induction false} BlocksPut(before: map<int, Hash>, batch: seq<Block>, n: int)
    requires n in PutBlocks(before, batch)
    ensures StoredBlock(before, batch, n, PutBlocks(before, batch)[n])
  {
    if batch != [] {
      var front, last := batch[..|batch| - 1], batch[|batch| - 1];
      if last.number != n { BlocksPut(before, front, n); }
      PutLast(before, batch);
      hide PutBlocks, StoredBlock;
      BlockAdded(before, front, last, n, PutBlocks(before, batch)[n]);
      assert batch == front + [last];
    }
  }

  lemma PutLast(before: map<int, Hash>, batch: seq<Block>)
    requires batch != []
    ensures PutBlocks(before, batch) == PutBlocks(before, batch[..|batch| - 1])[batch[|batch| - 1].number := batch[|batch| - 1].hash]
  {
  }

  lemma BlockAdded(before: map<int, Hash>, front: seq<Block>, last: Block, n: int, hash: Hash)
    ensures StoredBlock(before, front + [last], n, hash) <==>
            if last.number == n then last.hash == hash else StoredBlock(before, front, n, hash)
  {
    var all := front + [last];
    assert all[|front|] == last && forall i :: 0 <= i < |front| ==> all[i] == front[i];
    if last.number == n {
      if last.hash == hash { assert all[|front|] == Block(n, hash); }
    } else if StoredBlock(before, front, n, hash) {
      if i :| 0 <= i < |front| && front[i] == Block(n, hash) && forall j :: i < j < |front| ==> front[j].number != n {
        assert all[i] == Block(n, hash);
      }
    }
  }

  /** The stream's blocks within the lookback of the batch's last one, and the checkpoint past it. */
  ghost predicate ChainMoved(e: Escrow, e': Escrow, stream: Id, batch: seq<Block>, lookback: int)
    requires batch != []
  {
    var last := batch[|batch| - 1];
    && stream in e'.chains && e'.chains == e.chains[stream := e'.chains[stream]]
    && e'.chains[stream].checkpoint == Some(Checkpoint(last.number + 1, last.hash))
    && var before := if stream in e.chains then e.chains[stream].blocks else map[];
    && (forall n :: n in e'.chains[stream].blocks <==> last.number - lookback <= n && (n in before || Numbered(batch, n)))
    && forall n :: n in e'.chains[stream].blocks ==> StoredBlock(before, batch, n, e'.chains[stream].blocks[n])
  }

  /**
   * A batch leaves every event it applied in a live row that tells it, touches no other
   * row but to attribute it, keeps the blocks within the lookback of its last one and
   * moves the checkpoint past that.
   */
  lemma BatchLeaves(db: DB, stream: Id, blocks: seq<Block>, events: seq<Event>, lookback: int)
    requires EscrowInv(db) && (forall e :: e in events ==> Decoded(e)) && ApplyChain(db, stream, blocks, events, lookback).Ok?
    ensures var e' := ApplyChain(db, stream, blocks, events, lookback).value.escrow;
            && blocks != [] && ChainMoved(db.escrow, e', stream, blocks, lookback) && e'.snapshots == db.escrow.snapshots
            && (forall e :: e in events ==> Stored(e', e)) && RowsKept(db.escrow, e', LogsOf(events))
  {
    hide *;
    var c := Chain(PutBlocks(ChainOf(db, stream).blocks, blocks), ChainOf(db, stream).checkpoint);
    ChainFrame(db, stream, c);
    var db1 := WithChain(db, stream, c);
    BatchShape(db, stream, blocks, events, lookback);
    EventsStored(db1, events);
    var e' := ApplyChain(db, stream, blocks, events, lookback).value.escrow;
    forall e | e in events ensures Stored(e', e) { SameStored(ApplyEvents(db1, events).value.escrow, e', e); }
    SameRows(db.escrow, db1.escrow, ApplyEvents(db1, events).value.escrow, e', events);
    MovedTo(db, e', stream, blocks, lookback);
  }

  lemma MovedTo(db: DB, e': Escrow, stream: Id, batch: seq<Block>, lookback: int)
    requires batch != []
    requires var last := batch[|batch| - 1];
             e'.chains == db.escrow.chains[stream := Chain(Recent(PutBlocks(ChainOf(db, stream).blocks, batch), last.number - lookback),
                                                           Some(Checkpoint(last.number + 1, last.hash)))]
    ensures ChainMoved(db.escrow, e', stream, batch, lookback)
  {
    hide PutBlocks, Recent, StoredBlock, Numbered;
    var last := batch[|batch| - 1];
    var before := ChainOf(db, stream).blocks;
    var put := PutBlocks(before, batch);
    var blocks := e'.chains[stream].blocks;
    forall n ensures n in blocks <==> last.number - lookback <= n && (n in before || Numbered(batch, n)) {
      NumbersPut(before, batch, n);
      RecentMeans(put, last.number - lookback, n);
    }
    forall n | n in blocks ensures StoredBlock(before, batch, n, blocks[n]) {
      RecentMeans(put, last.number - lookback, n);
      BlocksPut(before, batch, n);
    }
  }

  lemma BatchShape(db: DB, stream: Id, blocks: seq<Block>, events: seq<Event>, lookback: int)
    requires ApplyChain(db, stream, blocks, events, lookback).Ok?
    ensures blocks != []
    ensures var last := blocks[|blocks| - 1];
            var put := PutBlocks(ChainOf(db, stream).blocks, blocks);
            var db1 := WithChain(db, stream, Chain(put, ChainOf(db, stream).checkpoint));
            var r := ApplyEvents(db1, events);
            && r.Ok? && db1.escrow == db.escrow.(chains := db.escrow.chains[stream := Chain(put, ChainOf(db, stream).checkpoint)])
            && (r.value.escrow.chains == db1.escrow.chains ==>
                  ApplyChain(db, stream, blocks, events, lookback).value.escrow ==
                  r.value.escrow.(chains := db.escrow.chains[stream :=
                    Chain(Recent(put, last.number - lookback), Some(Checkpoint(last.number + 1, last.hash)))]))
  {
    hide ApplyEvents, PutBlocks;
    var last := blocks[|blocks| - 1];
    var put := PutBlocks(ChainOf(db, stream).blocks, blocks);
    var db1 := WithChain(db, stream, Chain(put, ChainOf(db, stream).checkpoint));
    var db2 := ApplyEvents(db1, events).value;
    if db2.escrow.chains == db1.escrow.chains {
      assert ChainOf(db2, stream).blocks == put;
      var kept := map n | n in ChainOf(db2, stream).blocks && n >= last.number - lookback :: ChainOf(db2, stream).blocks[n];
      assert kept == Recent(put, last.number - lookback);
      assert ApplyChain(db, stream, blocks, events, lookback).value == WithChain(db2, stream, Chain(kept, Some(Checkpoint(last.number + 1, last.hash))));
    }
  }

  /** The blocks from a number on. */
  function Recent(blocks: map<int, Hash>, from: int): map<int, Hash> {
    map n | n in blocks && from <= n :: blocks[n]
  }

  lemma RecentMeans(blocks: map<int, Hash>, from: int, n: int)
    ensures n in Recent(blocks, from) <==> from <= n && n in blocks
    ensures n in Recent(blocks, from) ==> Recent(blocks, from)[n] == blocks[n]
  {
  }

  lemma SameStored(e: Escrow, e': Escrow, ev: Event)
    requires Stored(e, ev) && e'.events == e.events && e'.settlements == e.settlements
    ensures Stored(e', ev)
  {
  }

  lemma SameRows(e: Escrow, e1: Escrow, e2: Escrow, e': Escrow, events: seq<Event>)
    requires e1.events == e.events && e1.settlements == e.settlements && e'.events == e2.events && e'.settlements == e2.settlements
    requires RowsKept(e1, e2, LogsOf(events))
    ensures RowsKept(e, e', LogsOf(events))
  {
  }

  // ---- Rewind ----

  /**
   * A rewind needs an opening snapshot of the stream at or below the ancestor. It orphans
   * the live rows above the ancestor and touches no other row, keeps the blocks up to the
   * ancestor and puts the checkpoint right after it.
   */
  lemma RewindLeaves(db: DB, stream: Id, ancestor: Block, settlements: seq<LogId>, events: seq<LogId>)
    requires EscrowInv(db) && ListsSettlements(db, settlements, ancestor.number) && ListsEvents(db, events, ancestor.number)
    ensures var r := Rewind(db, stream, ancestor, settlements, events);
            && (r.Ok? <==> exists k :: k in db.escrow.snapshots && k.0 == stream && db.escrow.snapshots[k].anchor <= ancestor.number)
            && (r.Ok? ==> RewoundTo(db.escrow, r.value.escrow, stream, ancestor))
  {
    hide EscrowInv, ListsSettlements, ListsEvents, Rewind, ChainWrite;
    RewindKeeps(db, stream, ancestor, settlements, events);
  }

  ghost predicate RewoundTo(e: Escrow, e': Escrow, stream: Id, ancestor: Block) {
    && e'.snapshots == e.snapshots && e'.events.Keys == e.events.Keys && e'.settlements.Keys == e.settlements.Keys
    && (forall id :: id in e.events ==>
          e'.events[id] == e.events[id].(canonical := e.events[id].canonical && e.events[id].data.block <= ancestor.number))
    && (forall id :: id in e.settlements ==>
          e'.settlements[id] == e.settlements[id].(settled := e.settlements[id].settled && e.settlements[id].data.block <= ancestor.number))
    && stream in e'.chains && e'.chains == e.chains[stream := e'.chains[stream]]
    && e'.chains[stream].checkpoint == Some(Checkpoint(ancestor.number + 1, ancestor.hash))
    && var before := if stream in e.chains then e.chains[stream].blocks else map[];
    && e'.chains[stream].blocks == map n | n in before && n <= ancestor.number :: before[n]
  }
}

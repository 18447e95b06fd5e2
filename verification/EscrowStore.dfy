/**
 * The escrow ledger (internal/store/settlements.go): opening snapshots, canonical
 * chain events, settlements, and their reversal when a reorg orphans blocks.
 */
module EscrowStore {
  import opened Results
  import opened Blocks
  import opened Tables
  import opened Books
  import opened Summaries
  import opened Attribution

  // ---- Rows ----

  function WithEvent(db: DB, id: LogId, row: EventRow): DB {
    db.(escrow := db.escrow.(events := db.escrow.events[id := row]))
  }

  function WithSettlement(db: DB, id: LogId, row: SettlementRow): DB {
    db.(escrow := db.escrow.(settlements := db.escrow.settlements[id := row]))
  }

  function WithChain(db: DB, stream: Id, c: Chain): DB {
    db.(escrow := db.escrow.(chains := db.escrow.chains[stream := c]))
  }

  function ChainOf(db: DB, stream: Id): Chain {
    if stream in db.escrow.chains then db.escrow.chains[stream] else Chain(map[], None)
  }

  function EventDataOf(e: Event): EventData {
    EventData(e.kind, e.sender, e.recipient, e.amount, e.depositAmount, e.reserveAmount, e.block)
  }

  function SettlementDataOf(s: Settlement): SettlementData {
    SettlementData(s.block, s.sender, s.recipient, s.face, s.paid, s.depositPaid, s.reservePaid, s.ticket)
  }

  // ---- Opening snapshots ----

  datatype Opening = Opening(sender: Id, deposit: nat, reserve: nat)

  function RegisterBucket(db: DB, stream: Id, sender: Id, kind: Kind): Outcome<DB> {
    var balance := Balance(db, kind, sender, Eth);
    var key := TrackedKey(kind, SnapshotSource(stream, sender), Eth);
    if key in db.summary.tracked then Err(UniqueViolation) else
      var s1 :- ChangeAmount(db.summary.(tracked := db.summary.tracked[key := Tracked(sender, balance)]), Sum(kind), Eth, balance);
      var s2 :- ChangeCount(s1, EscrowUnfunded(kind), BoolCount(balance == 0));
      Ok(db.(summary := s2))
  }

  function RegisterEscrowMetrics(db: DB, stream: Id, sender: Id): Outcome<DB> {
    var db1 :- RegisterBucket(db, stream, sender, EscrowDeposit);
    RegisterBucket(db1, stream, sender, EscrowReserve)
  }

  function Open(db: DB, stream: Id, anchor: Block, o: Opening): Outcome<DB> {
    if (stream, o.sender) in db.escrow.snapshots then Err(UniqueViolation) else
      var row := SnapshotRow(anchor.number, anchor.hash, o.deposit, o.reserve);
      var db1 := db.(escrow := db.escrow.(snapshots := db.escrow.snapshots[(stream, o.sender) := row]));
      var db2 :- RegisterEscrowMetrics(db1, stream, o.sender);
      var db3 :- Transfer(db2, SnapshotKey(stream, o.sender, Deposit), TreasuryCash, o.sender, EscrowDeposit, o.sender, Eth, o.deposit);
      Transfer(db3, SnapshotKey(stream, o.sender, Reserve), TreasuryCash, o.sender, EscrowReserve, o.sender, Eth, o.reserve)
  }

  function OpenAll(db: DB, stream: Id, anchor: Block, snapshots: seq<Opening>): Outcome<DB> {
    if snapshots == [] then Ok(db) else
      var db1 :- OpenAll(db, stream, anchor, snapshots[..|snapshots| - 1]);
      Open(db1, stream, anchor, snapshots[|snapshots| - 1])
  }

  function SetCheckpoint(db: DB, stream: Id, next: int, hash: Hash): DB {
    WithChain(db, stream, ChainOf(db, stream).(checkpoint := Some(Checkpoint(next, hash))))
  }

  function BootstrapChain(db: DB, stream: Id, anchor: Block, snapshots: seq<Opening>): Outcome<DB> {
    if snapshots == [] then Err(EmptySnapshot)
    else if anchor.number >= 0 && anchor.hash == NoHash then Err(InvalidAnchor)
    else if anchor.number >= 0 && anchor.number in ChainOf(db, stream).blocks then Err(UniqueViolation)
    else if anchor.number < 0 && (anchor.number != -1 || anchor.hash != NoHash) then Err(InvalidAnchor)
    else
      var c := ChainOf(db, stream);
      var db1 := if anchor.number >= 0 then WithChain(db, stream, c.(blocks := c.blocks[anchor.number := anchor.hash])) else db;
      var db2 :- OpenAll(db1, stream, anchor, snapshots);
      Ok(SetCheckpoint(db2, stream, anchor.number + 1, anchor.hash))
  }

  // ---- Settlements ----

  /** updateSettlementMetrics: `before` is None for a row just inserted. */
  function UpdateSettlementMetrics(s: Summary, before: Option<bool>, next: bool, tag: MatchTag, face: nat, paid: nat): Outcome<Summary> {
    if before == Some(next) then Ok(s) else
      var s1 :- if before.Some? then ChangeCount(s, Settlements(before.value, tag), -1) else Ok(s);
      var s2 :- ChangeCount(s1, Settlements(next, tag), 1);
      var sign := BoolCount(next) - BoolCount(before == Some(true));
      var s3 :- ChangeAmount(s2, SettlementFaceValue, Eth, face * sign);
      var s4 :- ChangeAmount(s3, SettlementPaid, Eth, paid * sign);
      var s5 :- ChangeAmount(s4, SettlementShortfall, Eth, Shortfall(face, paid) * sign);
      ChangeCount(s5, SettlementsUnderpaid, sign * BoolCount(Shortfall(face, paid) > 0))
  }

  function Lesser(a: int, b: int): int { if a < b then a else b }

  /** The payment checks, the two transfers, and attribution. */
  function PaySettlement(db: DB, s: Settlement, generation: nat): Outcome<DB> {
    if s.depositPaid != Lesser(s.face, Balance(db, EscrowDeposit, s.sender, Eth)) then Err(BalanceMismatch)
    else if Balance(db, EscrowReserve, s.sender, Eth) < s.reservePaid then Err(InsufficientReserve)
    else
      var db1 :- Transfer(db, RowKey(SettlementRows, false, s.log, generation, Deposit),
                          EscrowDeposit, s.sender, TreasurySettledSpend, s.sender, Eth, s.depositPaid);
      var db2 :- Transfer(db1, RowKey(SettlementRows, false, s.log, generation, Reserve),
                          EscrowReserve, s.sender, TreasurySettledSpend, s.sender, Eth, s.reservePaid);
      Rematch(db2, s.ticket.pm, s.recipient)
  }

  function ApplySettlement(db: DB, s: Settlement): Outcome<DB> {
    var d := SettlementDataOf(s);
    if s.depositPaid + s.reservePaid != s.paid || s.paid > s.face then Err(InvalidSplit)
    else if s.log in db.escrow.settlements && db.escrow.settlements[s.log].data != d then Err(IdentityReused)
    else if s.log in db.escrow.settlements && db.escrow.settlements[s.log].settled then Ok(db)
    else
      var stored := s.log in db.escrow.settlements;
      var generation := if stored then db.escrow.settlements[s.log].generation + 1 else 0;
      var matching := if stored then db.escrow.settlements[s.log].matching else Unmatched;
      var summary :- UpdateSettlementMetrics(db.summary, if stored then Some(false) else None, true, Tag(matching), s.face, s.paid);
      var db1 := WithSettlement(db, s.log, SettlementRow(d, matching, true, generation)).(summary := summary);
      PaySettlement(db1, s, generation)
  }

  // ---- Chain events ----

  /** What a canonical event posts, redemptions aside. */
  function PostEvent(db: DB, id: LogId, generation: nat, d: EventData): Outcome<DB> {
    match d.kind
    case DepositFunded =>
      Transfer(db, RowKey(EventRows, false, id, generation, Only), TreasuryCash, d.sender, EscrowDeposit, d.sender, Eth, d.amount)
    case ReserveFunded =>
      Transfer(db, RowKey(EventRows, false, id, generation, Only), TreasuryCash, d.sender, EscrowReserve, d.sender, Eth, d.amount)
    case Withdrawal =>
      if Balance(db, EscrowDeposit, d.sender, Eth) != d.depositAmount then Err(BalanceMismatch)
      else if Balance(db, EscrowReserve, d.sender, Eth) != d.reserveAmount then Err(BalanceMismatch)
      else
        var db1 :- Transfer(db, RowKey(EventRows, false, id, generation, Deposit), EscrowDeposit, d.sender, TreasuryCash, d.sender, Eth, d.depositAmount);
        Transfer(db1, RowKey(EventRows, false, id, generation, Reserve), EscrowReserve, d.sender, TreasuryCash, d.sender, Eth, d.reserveAmount)
    case _ => Ok(db)
  }

  function Settle(db: DB, e: Event): Outcome<DB> {
    if e.settlement.None? then Err(MissingSettlement) else ApplySettlement(db, e.settlement.value)
  }

  function ApplyEvent(db: DB, e: Event): Outcome<DB> {
    var stored := e.log in db.escrow.events;
    if stored && db.escrow.events[e.log].data != EventDataOf(e) then Err(IdentityReused)
    else if stored && db.escrow.events[e.log].canonical then
      if e.kind == WinningTicketRedeemed then Settle(db, e) else Ok(db)
    else
      var generation := if stored then db.escrow.events[e.log].generation + 1 else 0;
      var db1 := WithEvent(db, e.log, EventRow(EventDataOf(e), true, generation));
      if e.kind == WinningTicketRedeemed then Settle(db1, e) else PostEvent(db1, e.log, generation, EventDataOf(e))
  }

  function ApplyEvents(db: DB, events: seq<Event>): Outcome<DB> {
    if events == [] then Ok(db) else
      var db1 :- ApplyEvents(db, events[..|events| - 1]);
      ApplyEvent(db1, events[|events| - 1])
  }

  function PutBlocks(blocks: map<int, Hash>, batch: seq<Block>): map<int, Hash> {
    if batch == [] then blocks
    else PutBlocks(blocks, batch[..|batch| - 1])[batch[|batch| - 1].number := batch[|batch| - 1].hash]
  }

  function ApplyChain(db: DB, stream: Id, blocks: seq<Block>, events: seq<Event>, lookback: int): Outcome<DB> {
    if blocks == [] then Err(EmptyBatch) else
      var c := ChainOf(db, stream);
      var db1 := WithChain(db, stream, c.(blocks := PutBlocks(c.blocks, blocks)));
      var db2 :- ApplyEvents(db1, events);
      var last := blocks[|blocks| - 1];
      var kept := map n | n in ChainOf(db2, stream).blocks && n >= last.number - lookback :: ChainOf(db2, stream).blocks[n];
      Ok(WithChain(db2, stream, Chain(kept, Some(Checkpoint(last.number + 1, last.hash)))))
  }

  // ---- Rewind ----

  function ReverseSettlement(db: DB, id: LogId): Outcome<DB>
    requires id in db.escrow.settlements
  {
    var row := db.escrow.settlements[id];
    var db1 :- Transfer(db, RowKey(SettlementRows, true, id, row.generation, Deposit),
                        TreasurySettledSpend, row.data.sender, EscrowDeposit, row.data.sender, Eth, row.data.depositPaid);
    var db2 :- Transfer(db1, RowKey(SettlementRows, true, id, row.generation, Reserve),
                        TreasurySettledSpend, row.data.sender, EscrowReserve, row.data.sender, Eth, row.data.reservePaid);
    var s :- UpdateSettlementMetrics(db2.summary, Some(true), false, Tag(row.matching), row.data.face, row.data.paid);
    Ok(WithSettlement(db2, id, row.(settled := false)).(summary := s))
  }

  function UnpostEvent(db: DB, id: LogId, generation: nat, d: EventData): Outcome<DB> {
    match d.kind
    case DepositFunded =>
      Transfer(db, RowKey(EventRows, true, id, generation, Only), EscrowDeposit, d.sender, TreasuryCash, d.sender, Eth, d.amount)
    case ReserveFunded =>
      Transfer(db, RowKey(EventRows, true, id, generation, Only), EscrowReserve, d.sender, TreasuryCash, d.sender, Eth, d.amount)
    case Withdrawal =>
      var db1 :- Transfer(db, RowKey(EventRows, true, id, generation, Deposit), TreasuryCash, d.sender, EscrowDeposit, d.sender, Eth, d.depositAmount);
      Transfer(db1, RowKey(EventRows, true, id, generation, Reserve), TreasuryCash, d.sender, EscrowReserve, d.sender, Eth, d.reserveAmount)
    case _ => Ok(db)
  }

  function ReverseEvent(db: DB, id: LogId): Outcome<DB>
    requires id in db.escrow.events
  {
    var row := db.escrow.events[id];
    var db1 :- UnpostEvent(db, id, row.generation, row.data);
    Ok(WithEvent(db1, id, row.(canonical := false)))
  }

  /** Reverses the listed settlements that exist; a listing names existing rows only. */
  function ReverseSettlements(db: DB, ids: seq<LogId>): Outcome<DB> {
    if ids == [] then Ok(db) else
      var db1 :- ReverseSettlements(db, ids[..|ids| - 1]);
      if ids[|ids| - 1] in db1.escrow.settlements then ReverseSettlement(db1, ids[|ids| - 1]) else Err(NoRows)
  }

  function ReverseEvents(db: DB, ids: seq<LogId>): Outcome<DB> {
    if ids == [] then Ok(db) else
      var db1 :- ReverseEvents(db, ids[..|ids| - 1]);
      if ids[|ids| - 1] in db1.escrow.events then ReverseEvent(db1, ids[|ids| - 1]) else Err(NoRows)
  }

  function Orphaned(db: DB, after: int): set<LogId> {
    set id | id in db.escrow.events && db.escrow.events[id].canonical && db.escrow.events[id].data.block > after
  }

  function Unsettled(db: DB, after: int): set<LogId> {
    set id | id in db.escrow.settlements && db.escrow.settlements[id].settled && db.escrow.settlements[id].data.block > after
  }

  predicate NoRepeats(ids: seq<LogId>) {
    forall i, j :: 0 <= i < j < |ids| ==> ids[i] != ids[j]
  }

  /** What the settlement query of Rewind returns: each row once, in descending (block, log) order. */
  ghost predicate ListsSettlements(db: DB, ids: seq<LogId>, after: int) {
    && NoRepeats(ids)
    && (forall id :: id in ids <==> id in Unsettled(db, after))
    && forall i, j :: 0 <= i < j < |ids| && ids[i] in db.escrow.settlements && ids[j] in db.escrow.settlements ==>
         db.escrow.settlements[ids[i]].data.block > db.escrow.settlements[ids[j]].data.block ||
         (db.escrow.settlements[ids[i]].data.block == db.escrow.settlements[ids[j]].data.block && ids[i].logIndex >= ids[j].logIndex)
  }

  /** What the event query of Rewind returns. */
  ghost predicate ListsEvents(db: DB, ids: seq<LogId>, after: int) {
    && NoRepeats(ids)
    && (forall id :: id in ids <==> id in Orphaned(db, after))
    && forall i, j :: 0 <= i < j < |ids| && ids[i] in db.escrow.events && ids[j] in db.escrow.events ==>
         db.escrow.events[ids[i]].data.block > db.escrow.events[ids[j]].data.block ||
         (db.escrow.events[ids[i]].data.block == db.escrow.events[ids[j]].data.block && ids[i].logIndex >= ids[j].logIndex)
  }

  predicate HasSnapshot(db: DB, stream: Id) {
    exists k :: k in db.escrow.snapshots && k.0 == stream
  }

  /** The ancestor lies before every opening anchor of the stream. */
  predicate BeforeAnchors(db: DB, stream: Id, number: int) {
    forall k :: k in db.escrow.snapshots && k.0 == stream ==> number < db.escrow.snapshots[k].anchor
  }

  function Truncated(db: DB, stream: Id, ancestor: Block): DB {
    var c := ChainOf(db, stream);
    var kept := map n | n in c.blocks && n <= ancestor.number :: c.blocks[n];
    WithChain(db, stream, Chain(kept, Some(Checkpoint(ancestor.number + 1, ancestor.hash))))
  }

  /** All settlements first, then all events. */
  function ReverseRows(db: DB, settlements: seq<LogId>, events: seq<LogId>): Outcome<DB> {
    var db1 :- ReverseSettlements(db, settlements);
    ReverseEvents(db1, events)
  }

  /** Rewind, given the listings its two queries return. */
  function Rewind(db: DB, stream: Id, ancestor: Block, settlements: seq<LogId>, events: seq<LogId>): Outcome<DB> {
    if !HasSnapshot(db, stream) then Err(NoRows)
    else if BeforeAnchors(db, stream, ancestor.number) then Err(SnapshotReorg)
    else
      var db1 :- ReverseRows(db, settlements, events);
      Ok(Truncated(db1, stream, ancestor))
  }
}

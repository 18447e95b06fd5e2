/**
 * Usage ingestion (internal/store/ingest.go): an audit row, the financial postings and
 * the next offset of one Kafka record commit together.
 */
module Ingestion {
  import opened Results
  import opened Blocks
  import opened Tables
  import opened Books
  import opened Attribution
  import opened Management

  const MAX_INT32: int := 0x7FFF_FFFF
  const MAX_INT64: int := 0x7FFF_FFFF_FFFF_FFFF

  // ---- Addresses and hashes ----

  function LowerChar(c: char): char {
    if 'A' <= c <= 'Z' then c - 'A' + 'a' else c
  }

  function Lower(s: string): string {
    seq(|s|, i requires 0 <= i < |s| => LowerChar(s[i]))
  }

  predicate Hexadecimal(s: string) {
    forall i :: 0 <= i < |s| ==> '0' <= s[i] <= '9' || 'a' <= s[i] <= 'f'
  }

  predicate Hex(s: string, length: nat) {
    |s| == length && |s| >= 2 && s[0] == '0' && s[1] == 'x' && Hexadecimal(Lower(s[2..]))
  }

  function Address(s: string): Option<string> {
    if Hex(s, 42) then Some(Lower(s)) else None
  }

  predicate ValidHash(s: string) {
    Hex(s, 66)
  }

  // ---- What a record is ----

  predicate Known(u: Usage, id: Id) {
    exists p :: p in u.rows && u.rows[p].eventId == Some(id)
  }

  /** The recorded payload under this id has the same bytes. */
  predicate Repeats(u: Usage, id: Id, raw: Payload) {
    exists p :: p in u.rows && u.rows[p].eventId == Some(id) && u.rows[p].raw == raw
  }

  predicate Bound(b: Budget, t: SignedTicket)
    requires t.authId in b.sessions
  {
    var s := b.sessions[t.authId];
    t.sessionId == s.stateId && t.app == s.app && t.pipeline == s.paymentType && Address(t.orchestrator) == Some(s.orchestrator)
  }

  predicate WellFormed(t: SignedTicket) {
    t.feeWei.Some? && !t.feeUsd.Unparsable? && 1 <= t.tickets <= 100 && t.requestId != "" && ValidHash(t.pm) &&
    t.ended > 0 && t.started >= 0
  }

  /** Why a ticket event is quarantined, or NoReason. */
  function TicketFault(b: Budget, t: SignedTicket): Reason {
    if t.authId !in b.sessions || b.sessions[t.authId].allocation !in b.allocations then UnknownSession
    else if !Bound(b, t) then SessionBinding
    else if !WellFormed(t) then InvalidTicket
    else if b.allocations[b.sessions[t.authId].allocation].currency == Usd && t.feeUsd == Absent then MissingUsdFee
    else NoReason
  }

  datatype Verdict = Verdict(status: UsageStatus, reason: Reason, eventId: Option<Id>)

  function Judge(db: DB, raw: Payload): Verdict {
    if raw.Malformed? then Verdict(Quarantined, BadEnvelope, None)
    else if Known(db.usage, raw.id) then
      if Repeats(db.usage, raw.id, raw) then Verdict(Duplicate, NoReason, None) else Verdict(Quarantined, ConflictingId, None)
    else
      match raw
      case OtherType(_, id) => Verdict(Ignored, NoReason, Some(id))
      case BadTicket(_, id) => Verdict(Quarantined, TicketData, Some(id))
      case TicketEvent(_, id, t) =>
        var fault := TicketFault(db.budget, t);
        if fault == NoReason then Verdict(Applied, NoReason, Some(id)) else Verdict(Quarantined, fault, Some(id))
  }

  /** The fee in the currency of the allocation it is charged to. */
  function Fee(row: UsageRow, currency: Currency): (n: int)
    ensures n >= 0
  {
    var fee := if currency == Usd then row.feeUsd else row.feeWei;
    if fee.Some? then fee.value else 0
  }

  function RowFor(db: DB, raw: Payload): UsageRow {
    var v := Judge(db, raw);
    var session := if v.status == Applied then Some(raw.ticket.authId) else None;
    var wei := if raw.TicketEvent? then raw.ticket.feeWei else None;
    var usd := if raw.TicketEvent? && raw.ticket.feeUsd.UsdUnits? then Some(raw.ticket.feeUsd.units) else None;
    UsageRow(v.eventId, raw, session, wei, usd, v.status, v.reason)
  }

  // ---- Charging ----

  function WithUsageRow(db: DB, pos: Position, row: UsageRow): DB {
    db.(usage := db.usage.(rows := db.usage.rows[pos := row]))
  }

  function WithAuthorization(db: DB, pos: Position, a: Authorization): DB {
    db.(usage := db.usage.(authorizations := db.usage.authorizations[pos := a]))
  }

  /** An active allocation with nothing left becomes exhausted. */
  function Exhaust(db: DB, id: Id): Outcome<DB>
    requires id in db.budget.allocations
  {
    var a := db.budget.allocations[id];
    if Balance(db, AllocationAvailable, id, a.currency) <= 0 && a.status == Active then
      var s :- ChangeInventory(db.summary, Some(Allocations(a.currency, Active)), Allocations(a.currency, Exhausted));
      Ok(WithAllocation(db, id, a.(status := Exhausted)).(summary := s))
    else Ok(db)
  }

  function Charge(db: DB, eventId: Id, allocation: Id, n: int): Outcome<DB>
    requires allocation in db.budget.allocations
  {
    var currency := db.budget.allocations[allocation].currency;
    var db1 :- Transfer(db, UsageKey(eventId), AllocationAvailable, allocation, AllocationSpent, allocation, currency, n);
    if allocation in db1.budget.allocations then Exhaust(db1, allocation) else Err(NoRows)
  }

  // ---- One record ----

  function NextOf(u: Usage, p: Partition): int {
    if p in u.next then u.next[p] else 0
  }

  function SetNext(db: DB, p: Partition, next: int): DB {
    db.(usage := db.usage.(next := db.usage.next[p := next]))
  }

  predicate ValidPosition(pos: Position) {
    0 <= pos.partition.number <= MAX_INT32 && 0 <= pos.offset < MAX_INT64
  }

  /** The authorization, charge and attribution of an applied row. */
  function ApplyRow(db: DB, pos: Position, row: UsageRow): Outcome<DB>
    requires row.raw.TicketEvent?
  {
    var t := row.raw.ticket;
    if t.authId !in db.budget.sessions || db.budget.sessions[t.authId].allocation !in db.budget.allocations then Err(NoRows) else
      var allocation := db.budget.sessions[t.authId].allocation;
      var auth := Authorization(t.authId, Lower(t.pm), Lower(t.orchestrator));
      var db1 :- Charge(WithAuthorization(db, pos, auth), row.raw.id, allocation, Fee(row, db.budget.allocations[allocation].currency));
      Rematch(db1, auth.pm, auth.orchestrator)
  }

  function Ingest(db: DB, pos: Position, raw: Payload): Outcome<DB> {
    if !ValidPosition(pos) then Err(InvalidPosition)
    else if pos.offset < NextOf(db.usage, pos.partition) then Ok(db)
    else if pos.offset > NextOf(db.usage, pos.partition) then Err(OffsetGap)
    else if pos in db.usage.rows then Err(UniqueViolation)
    else
      var row := RowFor(db, raw);
      var db1 := WithUsageRow(db, pos, row);
      var s :- if row.status == Quarantined then ChangeCount(db1.summary, Quarantines(row.reason), 1) else Ok(db1.summary);
      var db2 := db1.(summary := s);
      var db3 :- if row.status == Applied then ApplyRow(db2, pos, row) else Ok(db2);
      Ok(SetNext(db3, pos.partition, pos.offset + 1))
  }
}

/**
 * What one usage record does (internal/store/ingest.go:82-190), told from its payload:
 * how it is judged, what its row says, and what it charges to whom.
 */
module Charges {
  import opened Results
  import opened Blocks
  import opened Tables
  import opened Books
  import opened Ingestion
  import opened IngestSteps
  import opened Invariant
  import opened IngestKeeps
  import opened ManagementKeeps
  import opened Decisions

  // ---- The judgement ----

  predicate Recorded(u: Usage, id: Id) {
    exists p :: p in u.rows && u.rows[p].eventId == Some(id)
  }

  predicate RecordedAlike(u: Usage, raw: Payload)
    requires !raw.Malformed?
  {
    exists p :: p in u.rows && u.rows[p].eventId == Some(raw.id) && u.rows[p].raw == raw
  }

  /** The ticket is for the signer state, app, pipeline and orchestrator its session was made for. */
  predicate FitsSession(s: Session, t: SignedTicket) {
    t.sessionId == s.stateId && t.app == s.app && t.pipeline == s.paymentType && Names(t.orchestrator, s.orchestrator)
  }

  /** 0x and sixty-four hexadecimal digits. */
  predicate HashText(s: string) {
    |s| == 66 && s[0] == '0' && s[1] == 'x' && forall i :: 2 <= i < 66 ==> HexDigit(s[i])
  }

  /** Both fees parse, there are one to a hundred tickets, and request, hash and times are there. */
  predicate SoundTicket(t: SignedTicket) {
    && t.feeWei != None && t.feeUsd != Unparsable && 1 <= t.tickets <= 100
    && t.requestId != "" && HashText(t.pm) && 0 < t.ended && 0 <= t.started
  }

  /** The first fault of a ticket in the source's order, or none. */
  predicate TicketJudged(b: Budget, t: SignedTicket, status: UsageStatus, reason: Reason) {
    if t.authId !in b.sessions then status == Quarantined && reason == UnknownSession
    else
      var s := b.sessions[t.authId];
      if !FitsSession(s, t) then status == Quarantined && reason == SessionBinding
      else if !SoundTicket(t) then status == Quarantined && reason == InvalidTicket
      else if s.allocation in b.allocations && b.allocations[s.allocation].currency == Usd && t.feeUsd == Absent then
        status == Quarantined && reason == MissingUsdFee
      else status == Applied && reason == NoReason
  }

  /** What a record is recorded as: a repeat keeps no event id. */
  predicate Judged(db: DB, raw: Payload, row: UsageRow) {
    if raw.Malformed? then row.status == Quarantined && row.reason == BadEnvelope && row.eventId == None
    else if Recorded(db.usage, raw.id) then
      row.eventId == None &&
      (if RecordedAlike(db.usage, raw) then row.status == Duplicate && row.reason == NoReason
       else row.status == Quarantined && row.reason == ConflictingId)
    else
      row.eventId == Some(raw.id) &&
      match raw
      case OtherType(_, _) => row.status == Ignored && row.reason == NoReason
      case BadTicket(_, _) => row.status == Quarantined && row.reason == TicketData
      case TicketEvent(_, _, t) => TicketJudged(db.budget, t, row.status, row.reason)
  }

  lemma HashTextMeans(s: string)
    ensures ValidHash(s) <==> HashText(s)
  {
    if |s| == 66 {
      var low := Lower(s[2..]);
      assert forall i :: 2 <= i < 66 ==> low[i - 2] == LowerChar(s[i]);
      if Hexadecimal(low) {
        forall i | 2 <= i < 66 ensures HexDigit(s[i]) { assert '0' <= low[i - 2] <= '9' || 'a' <= low[i - 2] <= 'f'; }
      }
    }
  }

  lemma FaultMeans(b: Budget, t: SignedTicket)
    requires SessionsOk(b)
    ensures TicketJudged(b, t, if TicketFault(b, t) == NoReason then Applied else Quarantined, TicketFault(b, t))
  {
    HashTextMeans(t.pm);
    if t.authId in b.sessions { AddressNames(t.orchestrator, b.sessions[t.authId].orchestrator); }
    hide ValidHash, HashText, Address, Names;
    if t.authId in b.sessions { assert b.apiKeys[b.sessions[t.authId].apiKey].allocation in b.allocations; }
  }

  lemma RowJudged(db: DB, raw: Payload)
    requires SessionsOk(db.budget)
    ensures Judged(db, raw, RowFor(db, raw)) && RowFor(db, raw).raw == raw
    ensures RowFor(db, raw).status == Applied ==> raw.TicketEvent? && RowFor(db, raw).session == Some(raw.ticket.authId)
  {
    if raw.TicketEvent? { FaultMeans(db.budget, raw.ticket); }
    hide SessionsOk, TicketFault, TicketJudged;
  }

  /** The next record of a partition leaves one row, judged by its payload, and moves the checkpoint past it. */
  lemma RecordJudged(db: DB, pos: Position, raw: Payload)
    requires Inv(db) && Ingest(db, pos, raw).Ok? && pos.offset == NextOf(db.usage, pos.partition)
    ensures var u' := Ingest(db, pos, raw).value.usage;
            && pos !in db.usage.rows && pos in u'.rows && u'.rows == db.usage.rows[pos := u'.rows[pos]]
            && u'.next == db.usage.next[pos.partition := pos.offset + 1]
            && u'.rows[pos].raw == raw && Judged(db, raw, u'.rows[pos])
  {
    hide *;
    IngestKeepsInv(db, pos, raw);
    InvConjuncts(db);
    NewPosition(db, pos);
    RowJudged(db, raw);
    RowLeft(db, Ingest(db, pos, raw).value, pos, RowFor(db, raw));
  }

  /** A record is accepted exactly at a 32-bit partition and a 64-bit offset up to the first one not yet read; one already read changes nothing. */
  lemma PositionAccepted(db: DB, pos: Position, raw: Payload)
    requires Inv(db)
    ensures var next := if pos.partition in db.usage.next then db.usage.next[pos.partition] else 0;
            && (Ingest(db, pos, raw).Ok? <==>
                  0 <= pos.partition.number <= 2_147_483_647 && 0 <= pos.offset < 9_223_372_036_854_775_807 && pos.offset <= next)
            && (Ingest(db, pos, raw).Ok? && pos.offset < next ==> Ingest(db, pos, raw).value == db)
  {
    IngestKeepsInv(db, pos, raw);
    hide Inv, Ingest, RowFor, ChargeRecorded, Audited;
  }

  lemma NewPosition(db: DB, pos: Position)
    requires UsageOk(db) && pos.offset == NextOf(db.usage, pos.partition)
    ensures pos !in db.usage.rows
  {
    hide IdsOk, RowsOk, ChargesOk, SpentOk, NextOf;
  }

  lemma RowLeft(db: DB, db': DB, pos: Position, row: UsageRow)
    requires ChargeRecorded(db, db', pos, row) || Audited(db, db', pos, row)
    ensures db'.usage.rows == db.usage.rows[pos := row] && db'.usage.next == db.usage.next[pos.partition := pos.offset + 1]
  {
    hide Held, RowFee, ChargePosting, OnlyMatches, Spent;
  }

  // ---- The charge ----

  /**
   * An applied ticket is charged what it states in the currency of its session's
   * allocation, from available to spent, and authorizes its session under the ticket
   * session and orchestrator in small letters. An active allocation left with nothing is
   * exhausted. No other balance, allocation or authorization changes.
   */
  ghost predicate ChargedAs(db: DB, db': DB, pos: Position, id: Id, t: SignedTicket) {
    && t.authId in db.budget.sessions && db.budget.sessions[t.authId].allocation in db.budget.allocations
    && var alloc := db.budget.sessions[t.authId].allocation;
    && var a := db.budget.allocations[alloc];
    && var available := Account(AllocationAvailable, alloc, a.currency);
    && t.feeWei.Some? && (a.currency == Usd ==> t.feeUsd.UsdUnits?)
    && var n := if a.currency == Usd then t.feeUsd.units else t.feeWei.value;
    && (forall c :: Held(db'.books.balances, c) == Held(db.books.balances, c)
          - (if c == available then n else 0) + (if c == Account(AllocationSpent, alloc, a.currency) then n else 0))
    && (n > 0 ==>
          UsageKey(id) !in db.books.postings &&
          db'.books.postings == db.books.postings[UsageKey(id) := Posting(available, Account(AllocationSpent, alloc, a.currency), n)])
    && (n == 0 ==> db'.books.postings == db.books.postings)
    && db'.budget == db.budget.(allocations := db.budget.allocations[alloc :=
          a.(status := if a.status == Active && Held(db.books.balances, available) - n <= 0 then Exhausted else a.status)])
    && pos in db'.usage.authorizations && db'.usage.authorizations == db.usage.authorizations[pos := db'.usage.authorizations[pos]]
    && Authorizes(db'.usage.authorizations[pos], t)
  }

  predicate Authorizes(auth: Authorization, t: SignedTicket) {
    && auth.session == t.authId && |auth.pm| == |t.pm| && |auth.orchestrator| == |t.orchestrator|
    && (forall i :: 0 <= i < |t.pm| ==> Lowers(t.pm[i], auth.pm[i]))
    && forall i :: 0 <= i < |t.orchestrator| ==> Lowers(t.orchestrator[i], auth.orchestrator[i])
  }

  lemma AuthorizationLowers(t: SignedTicket)
    ensures Authorizes(AuthorizationFor(t), t)
  {
  }

  lemma FeesStated(db: DB, raw: Payload)
    requires raw.TicketEvent? && RowFor(db, raw).status == Applied
    ensures AppliedRow(db.budget, RowFor(db, raw)) && raw.ticket.feeWei.Some?
    ensures db.budget.allocations[db.budget.sessions[raw.ticket.authId].allocation].currency == Usd ==> raw.ticket.feeUsd.UsdUnits?
  {
    RowForMeaning(db, raw);
    JudgeMeaning(db, raw);
    hide RowFor, Judge, Bound, ValidHash;
  }

  lemma ChargeTold(db: DB, db': DB, pos: Position, row: UsageRow)
    requires ChargeRecorded(db, db', pos, row) && AppliedRow(db.budget, row)
    requires var t := row.raw.ticket;
             t.feeWei.Some? && (db.budget.allocations[db.budget.sessions[t.authId].allocation].currency == Usd ==> t.feeUsd.UsdUnits?)
    requires UsageKey(row.raw.id) !in db.books.postings
    ensures ChargedAs(db, db', pos, row.raw.id, row.raw.ticket)
  {
    AuthorizationLowers(row.raw.ticket);
    hide OnlyMatches, Held, AuthorizationFor, Authorizes;
  }

  /** What any accepted next record does to the books, the budget and the authorizations. */
  lemma RecordCharged(db: DB, pos: Position, raw: Payload)
    requires Inv(db) && Ingest(db, pos, raw).Ok? && pos.offset == NextOf(db.usage, pos.partition)
    ensures var db' := Ingest(db, pos, raw).value;
            && pos in db'.usage.rows
            && if db'.usage.rows[pos].status == Applied then raw.TicketEvent? && ChargedAs(db, db', pos, raw.id, raw.ticket)
               else db'.books == db.books && db'.budget == db.budget && db'.usage.authorizations == db.usage.authorizations
  {
    hide *;
    RecordJudged(db, pos, raw);
    IngestKeepsInv(db, pos, raw);
    InvConjuncts(db);
    RowJudged(db, raw);
    var row := RowFor(db, raw);
    var db' := Ingest(db, pos, raw).value;
    RowLeft(db, db', pos, row);
    if row.status == Applied {
      FeesStated(db, raw);
      NewEventId(db, raw);
      ChargeTold(db, db', pos, row);
    } else {
      AuditTold(db, db', pos, row);
    }
  }

  lemma NewEventId(db: DB, raw: Payload)
    requires UsageOk(db) && raw.TicketEvent? && RowFor(db, raw).status == Applied
    ensures UsageKey(raw.id) !in db.books.postings
  {
    RowForMeaning(db, raw);
    JudgeMeaning(db, raw);
    hide RowFor, Judge, OffsetsOk, IdsOk, RowsOk, SpentOk, Known, ChargesOk;
    NotYetCharged(db, raw.id);
  }

  lemma AuditTold(db: DB, db': DB, pos: Position, row: UsageRow)
    requires Audited(db, db', pos, row)
    ensures db'.books == db.books && db'.budget == db.budget && db'.usage.authorizations == db.usage.authorizations
  {
  }
}

/**
 * Partitions are read concurrently (internal/kafka/listener.go:119-123), so their records
 * reach Ingest in any interleaving. Where equal event ids carry equal payloads, every
 * interleaving ends with the same ledger, budget, attribution and number of rows of each
 * status.
 */
module Confluence {
  import opened Results
  import opened Totals
  import opened Blocks
  import opened Tables
  import opened Books
  import opened Summaries
  import opened Attribution
  import opened EscrowSteps
  import opened Management
  import opened Ingestion
  import opened IngestSteps
  import opened Invariant
  import opened IngestKeeps
  import opened ManagementKeeps

  // ---- What a schedule delivers ----

  type Logs = map<Partition, seq<Payload>>

  function NextIn(next: map<Partition, int>, p: Partition): int {
    if p in next then next[p] else 0
  }

  /** The partition's next record, when its log starts at the checkpoint `base`. */
  function NextRecord(logs: Logs, base: map<Partition, int>, next: map<Partition, int>, p: Partition): Option<Payload> {
    var k := NextIn(next, p) - NextIn(base, p);
    if p in logs && 0 <= k < |logs[p]| then Some(logs[p][k]) else None
  }

  /** One delivery: the next record of a partition is ingested; a failure is rolled back. */
  function Deliver(db: DB, base: map<Partition, int>, logs: Logs, p: Partition): DB {
    var raw := NextRecord(logs, base, db.usage.next, p);
    if raw.None? then db else
      var r := Ingest(db, Position(p, NextOf(db.usage, p)), raw.value);
      if r.Ok? then r.value else db
  }

  /** An interleaving of the logs is the sequence of partitions whose turn it is. */
  function DeliverAll(db: DB, base: map<Partition, int>, logs: Logs, turns: seq<Partition>): DB {
    if turns == [] then db else Deliver(DeliverAll(db, base, logs, turns[..|turns| - 1]), base, logs, turns[|turns| - 1])
  }

  predicate SameEvent(raw: Payload, other: Payload) {
    !raw.Malformed? && !other.Malformed? && raw.id == other.id ==> raw == other
  }

  /** An event id determines its payload's bytes. */
  ghost predicate OnePayloadPerId(logs: Logs) {
    forall p, i, q, j :: p in logs && 0 <= i < |logs[p]| && q in logs && 0 <= j < |logs[q]| ==> SameEvent(logs[p][i], logs[q][j])
  }

  ghost function StatusPart(status: UsageStatus, reason: Option<Reason>): (Position, UsageRow) -> int {
    (pos: Position, row: UsageRow) => if row.status == status && (reason.None? || row.reason == reason.value) then 1 else 0
  }

  /** The rows of a status, of one reason or of any. */
  ghost function RowCount(u: Usage, status: UsageStatus, reason: Option<Reason>): int {
    Total(u.rows, StatusPart(status, reason))
  }

  // ---- What matters of a state ----

  type Tally = imap<(UsageStatus, Option<Reason>), int>

  /** Everything the next records depend on, without the positions of the rows. */
  datatype Digest = Digest(
    postings: map<Key, Posting>, held: imap<Account, int>, budget: Budget,
    seen: map<Id, Payload>, tally: Tally, signed: set<Authorization>, next: map<Partition, int>)

  ghost predicate SeenOk(u: Usage, seen: map<Id, Payload>) {
    && (forall id :: id in seen <==> Known(u, id))
    && forall p :: p in u.rows && u.rows[p].eventId.Some? && u.rows[p].eventId.value in seen ==> seen[u.rows[p].eventId.value] == u.rows[p].raw
  }

  ghost predicate HeldOk(balances: map<Account, int>, held: imap<Account, int>) {
    forall a :: a in held && held[a] == Held(balances, a)
  }

  ghost predicate TallyOk(u: Usage, tally: Tally) {
    forall k :: k in tally && tally[k] == RowCount(u, k.0, k.1)
  }

  ghost predicate SignedOk(u: Usage, signed: set<Authorization>) {
    forall a :: a in signed <==> exists p :: p in u.authorizations && u.authorizations[p] == a
  }

  ghost predicate Digests(db: DB, d: Digest) {
    && d.postings == db.books.postings && d.budget == db.budget && d.next == db.usage.next
    && HeldOk(db.books.balances, d.held) && SeenOk(db.usage, d.seen) && TallyOk(db.usage, d.tally) && SignedOk(db.usage, d.signed)
  }

  // ---- A record on digests ----

  function Judged(b: Budget, seen: map<Id, Payload>, raw: Payload): Verdict {
    if raw.Malformed? then Verdict(Quarantined, BadEnvelope, None)
    else if raw.id in seen then
      if seen[raw.id] == raw then Verdict(Duplicate, NoReason, None) else Verdict(Quarantined, ConflictingId, None)
    else
      match raw
      case OtherType(_, id) => Verdict(Ignored, NoReason, Some(id))
      case BadTicket(_, id) => Verdict(Quarantined, TicketData, Some(id))
      case TicketEvent(_, id, t) =>
        var fault := TicketFault(b, t);
        if fault == NoReason then Verdict(Applied, NoReason, Some(id)) else Verdict(Quarantined, fault, Some(id))
  }

  function RowOfVerdict(v: Verdict, raw: Payload): UsageRow {
    var session := if v.status == Applied && raw.TicketEvent? then Some(raw.ticket.authId) else None;
    var wei := if raw.TicketEvent? then raw.ticket.feeWei else None;
    var usd := if raw.TicketEvent? && raw.ticket.feeUsd.UsdUnits? then Some(raw.ticket.feeUsd.units) else None;
    UsageRow(v.eventId, raw, session, wei, usd, v.status, v.reason)
  }

  function RowFrom(b: Budget, seen: map<Id, Payload>, raw: Payload): UsageRow {
    RowOfVerdict(Judged(b, seen, raw), raw)
  }

  lemma RowFromIs(db: DB, seen: map<Id, Payload>, raw: Payload)
    requires SeenOk(db.usage, seen)
    ensures RowFor(db, raw) == RowFrom(db.budget, seen, raw)
  {
    hide TicketFault;
    if !raw.Malformed? && raw.id in seen {
      assert Known(db.usage, raw.id);
      var p :| p in db.usage.rows && db.usage.rows[p].eventId == Some(raw.id);
      assert seen[raw.id] == db.usage.rows[p].raw;
      if Repeats(db.usage, raw.id, raw) {
        var q :| q in db.usage.rows && db.usage.rows[q].eventId == Some(raw.id) && db.usage.rows[q].raw == raw;
        assert seen[raw.id] == db.usage.rows[q].raw;
      }
    }
  }

  ghost function HeldIn(held: imap<Account, int>, a: Account): int {
    if a in held then held[a] else 0
  }

  ghost function MovedAll(held: imap<Account, int>, d: Account, c: Account, n: int): imap<Account, int> {
    imap a: Account | a in held :: Moved(held[a], a, d, c, n)
  }

  ghost function Bumped(tally: Tally, status: UsageStatus, reason: Reason): Tally {
    imap k: (UsageStatus, Option<Reason>) | k in tally ::
      tally[k] + if k.0 == status && (k.1.None? || k.1.value == reason) then 1 else 0
  }

  /** The allocation after a charge that leaves `left` available. */
  function Left(a: Allocation, left: int): Allocation {
    if left <= 0 && a.status == Active then a.(status := Exhausted) else a
  }

  ghost function Charge1(d: Digest, row: UsageRow): Digest
    requires AppliedRow(d.budget, row)
  {
    var id := AllocationOf(d.budget, row.raw.ticket);
    var n := RowFee(d.budget, row);
    var p := ChargePosting(d.budget, row);
    d.(postings := if n == 0 then d.postings else d.postings[UsageKey(row.raw.id) := p],
       held := MovedAll(d.held, p.debit, p.credit, n),
       budget := d.budget.(allocations := d.budget.allocations[id := Left(d.budget.allocations[id], HeldIn(d.held, p.debit) - n)]),
       signed := d.signed + {AuthorizationFor(row.raw.ticket)})
  }

  ghost function Enter(d: Digest, p: Partition, row: UsageRow): Digest {
    var d1 := d.(seen := if row.eventId.Some? then d.seen[row.eventId.value := row.raw] else d.seen,
                 tally := Bumped(d.tally, row.status, row.reason),
                 next := d.next[p := NextIn(d.next, p) + 1]);
    if row.status == Applied && AppliedRow(d1.budget, row) then Charge1(d1, row) else d1
  }

  ghost function Absorb(d: Digest, base: map<Partition, int>, logs: Logs, p: Partition): Digest {
    var raw := NextRecord(logs, base, d.next, p);
    if raw.None? || !ValidPosition(Position(p, NextIn(d.next, p))) then d
    else Enter(d, p, RowFrom(d.budget, d.seen, raw.value))
  }

  ghost function AbsorbAll(d: Digest, base: map<Partition, int>, logs: Logs, turns: seq<Partition>): Digest {
    if turns == [] then d else Absorb(AbsorbAll(d, base, logs, turns[..|turns| - 1]), base, logs, turns[|turns| - 1])
  }

  // ---- Ingest does on the database what Absorb does on its digest ----

  lemma SeenStep(u: Usage, u': Usage, seen: map<Id, Payload>, pos: Position, row: UsageRow)
    requires SeenOk(u, seen) && pos !in u.rows && u'.rows == u.rows[pos := row]
    requires row.eventId.Some? ==> !Known(u, row.eventId.value)
    ensures SeenOk(u', if row.eventId.Some? then seen[row.eventId.value := row.raw] else seen)
  {
    var seen' := if row.eventId.Some? then seen[row.eventId.value := row.raw] else seen;
    forall id ensures id in seen' <==> Known(u', id) {
      if id in seen {
        assert Known(u, id);
        var p :| p in u.rows && u.rows[p].eventId == Some(id);
        assert p in u'.rows && u'.rows[p].eventId == Some(id);
      }
      if row.eventId == Some(id) { assert pos in u'.rows && u'.rows[pos].eventId == Some(id); }
      if Known(u', id) {
        var p :| p in u'.rows && u'.rows[p].eventId == Some(id);
        if p != pos { assert p in u.rows && u.rows[p].eventId == Some(id); }
      }
    }
    forall p | p in u'.rows && u'.rows[p].eventId.Some? && u'.rows[p].eventId.value in seen'
      ensures seen'[u'.rows[p].eventId.value] == u'.rows[p].raw
    {
      if p != pos {
        assert p in u.rows && u.rows[p].eventId == Some(u.rows[p].eventId.value);
        assert Known(u, u.rows[p].eventId.value);
      }
    }
  }

  lemma TallyStep(u: Usage, u': Usage, tally: Tally, pos: Position, row: UsageRow)
    requires TallyOk(u, tally) && pos !in u.rows && u'.rows == u.rows[pos := row]
    ensures TallyOk(u', Bumped(tally, row.status, row.reason))
  {
    hide Total;
    forall k: (UsageStatus, Option<Reason>)
      ensures k in Bumped(tally, row.status, row.reason) && Bumped(tally, row.status, row.reason)[k] == RowCount(u', k.0, k.1)
    {
      assert k in tally && tally[k] == RowCount(u, k.0, k.1);
      Updated(u.rows, StatusPart(k.0, k.1), pos, row);
    }
  }

  lemma SignedStep(u: Usage, u': Usage, signed: set<Authorization>, pos: Position, a: Authorization)
    requires SignedOk(u, signed) && pos !in u.authorizations && u'.authorizations == u.authorizations[pos := a]
    ensures SignedOk(u', signed + {a})
  {
    forall x | x in signed + {a} ensures exists p :: p in u'.authorizations && u'.authorizations[p] == x {
      if x == a {
        assert pos in u'.authorizations && u'.authorizations[pos] == x;
      } else {
        var p :| p in u.authorizations && u.authorizations[p] == x;
        assert p in u'.authorizations && u'.authorizations[p] == x;
      }
    }
    forall p | p in u'.authorizations ensures u'.authorizations[p] in signed + {a} {
      if p != pos { assert p in u.authorizations && u.authorizations[p] == u'.authorizations[p]; }
    }
  }

  lemma AuditedDigest(db: DB, db': DB, d: Digest, pos: Position, row: UsageRow)
    requires Digests(db, d) && Audited(db, db', pos, row) && pos !in db.usage.rows && row.status != Applied
    requires pos.offset == NextOf(db.usage, pos.partition) && (row.eventId.Some? ==> !Known(db.usage, row.eventId.value))
    ensures Digests(db', Enter(d, pos.partition, row))
  {
    SeenStep(db.usage, db'.usage, d.seen, pos, row);
    TallyStep(db.usage, db'.usage, d.tally, pos, row);
    hide SeenOk, TallyOk, HeldOk, Known, Bumped;
    assert SignedOk(db'.usage, d.signed);
  }

  lemma HeldStep(balances: map<Account, int>, balances': map<Account, int>, held: imap<Account, int>, d: Account, c: Account, n: int)
    requires HeldOk(balances, held) && forall a :: Held(balances', a) == Moved(Held(balances, a), a, d, c, n)
    ensures HeldOk(balances', MovedAll(held, d, c, n))
  {
    hide Held;
  }

  lemma EnterFields(d: Digest, p: Partition, row: UsageRow)
    requires row.status == Applied && AppliedRow(d.budget, row)
    ensures var e := Enter(d, p, row);
            var id := AllocationOf(d.budget, row.raw.ticket);
            var n := RowFee(d.budget, row);
            var x := ChargePosting(d.budget, row);
            && e.postings == (if n == 0 then d.postings else d.postings[UsageKey(row.raw.id) := x])
            && e.held == MovedAll(d.held, x.debit, x.credit, n)
            && e.budget == d.budget.(allocations := d.budget.allocations[id := Left(d.budget.allocations[id], HeldIn(d.held, x.debit) - n)])
            && e.seen == (if row.eventId.Some? then d.seen[row.eventId.value := row.raw] else d.seen)
            && e.tally == Bumped(d.tally, row.status, row.reason)
            && e.signed == d.signed + {AuthorizationFor(row.raw.ticket)}
            && e.next == d.next[p := NextIn(d.next, p) + 1]
  {
    hide MovedAll, HeldIn, Bumped, NextIn, RowFee, Left;
  }

  lemma DigestParts(db: DB, d: Digest)
    requires Digests(db, d)
    ensures d.postings == db.books.postings && d.budget == db.budget && d.next == db.usage.next
    ensures HeldOk(db.books.balances, d.held) && SeenOk(db.usage, d.seen) && TallyOk(db.usage, d.tally) && SignedOk(db.usage, d.signed)
  {
    hide HeldOk, SeenOk, TallyOk, SignedOk;
  }

  lemma PartsDigest(db: DB, d: Digest)
    requires d.postings == db.books.postings && d.budget == db.budget && d.next == db.usage.next
    requires HeldOk(db.books.balances, d.held) && SeenOk(db.usage, d.seen) && TallyOk(db.usage, d.tally) && SignedOk(db.usage, d.signed)
    ensures Digests(db, d)
  {
    hide HeldOk, SeenOk, TallyOk, SignedOk;
  }

  lemma RecordedParts(db: DB, db': DB, pos: Position, row: UsageRow)
    requires ChargeRecorded(db, db', pos, row)
    ensures AppliedRow(db.budget, row) && row.raw.TicketEvent?
    ensures var id := AllocationOf(db.budget, row.raw.ticket);
            var n := RowFee(db.budget, row);
            var x := ChargePosting(db.budget, row);
            && db'.usage.rows == db.usage.rows[pos := row] && db'.usage.authorizations == db.usage.authorizations[pos := AuthorizationFor(row.raw.ticket)]
            && db'.usage.next == db.usage.next[pos.partition := pos.offset + 1]
            && id in db.budget.allocations && db'.budget == db.budget.(allocations := db.budget.allocations[id := Spent(db, id, n)])
            && db'.books.postings == (if n == 0 then db.books.postings else db.books.postings[UsageKey(row.raw.id) := x])
            && forall a :: Held(db'.books.balances, a) == Moved(Held(db.books.balances, a), a, x.debit, x.credit, n)
  {
    hide OnlyMatches, Held, RowFee, Spent, ChargePosting;
  }

  lemma ChargedDigest(db: DB, db': DB, d: Digest, pos: Position, row: UsageRow)
    requires Digests(db, d) && ChargeRecorded(db, db', pos, row) && pos !in db.usage.rows && pos !in db.usage.authorizations
    requires row.status == Applied && pos.offset == NextOf(db.usage, pos.partition)
    requires row.eventId.Some? ==> !Known(db.usage, row.eventId.value)
    ensures Digests(db', Enter(d, pos.partition, row))
  {
    hide *;
    DigestParts(db, d);
    DigestNext(db, d, pos.partition);
    RecordedParts(db, db', pos, row);
    EnterFields(d, pos.partition, row);
    var p := ChargePosting(db.budget, row);
    SeenStep(db.usage, db'.usage, d.seen, pos, row);
    TallyStep(db.usage, db'.usage, d.tally, pos, row);
    SignedStep(db.usage, db'.usage, d.signed, pos, AuthorizationFor(row.raw.ticket));
    HeldStep(db.books.balances, db'.books.balances, d.held, p.debit, p.credit, RowFee(db.budget, row));
    SameLeft(db, d, row);
    PartsDigest(db', Enter(d, pos.partition, row));
  }

  lemma SameLeft(db: DB, d: Digest, row: UsageRow)
    requires HeldOk(db.books.balances, d.held) && AppliedRow(db.budget, row)
    ensures var id := AllocationOf(db.budget, row.raw.ticket);
            var n := RowFee(db.budget, row);
            Spent(db, id, n) == Left(db.budget.allocations[id], HeldIn(d.held, ChargePosting(db.budget, row).debit) - n)
  {
    hide Held, Fee;
  }

  lemma DeliverDigest(db: DB, d: Digest, base: map<Partition, int>, logs: Logs, p: Partition)
    requires Inv(db) && Digests(db, d)
    ensures var db' := Deliver(db, base, logs, p);
            Inv(db') && Digests(db', Absorb(d, base, logs, p)) && OnlyMatches(db.escrow, db'.escrow)
  {
    hide *;
    MatchesSelf(db.escrow);
    DigestNext(db, d, p);
    DeliverShape(db, base, logs, p);
    AbsorbShape(d, base, logs, p);
    var raw := NextRecord(logs, base, db.usage.next, p);
    var pos := Position(p, NextOf(db.usage, p));
    if raw.Some? {
      if ValidPosition(pos) {
        DeliverRow(db, d, pos, raw.value);
      } else {
        BadPosition(db, pos, raw.value);
      }
    }
  }

  lemma DeliverShape(db: DB, base: map<Partition, int>, logs: Logs, p: Partition)
    ensures var raw := NextRecord(logs, base, db.usage.next, p);
            if raw.None? then Deliver(db, base, logs, p) == db else
              var r := Ingest(db, Position(p, NextOf(db.usage, p)), raw.value);
              Deliver(db, base, logs, p) == if r.Ok? then r.value else db
  {
    hide Ingest;
  }

  lemma AbsorbShape(d: Digest, base: map<Partition, int>, logs: Logs, p: Partition)
    ensures var raw := NextRecord(logs, base, d.next, p);
            Absorb(d, base, logs, p) ==
              if raw.None? || !ValidPosition(Position(p, NextIn(d.next, p))) then d else Enter(d, p, RowFrom(d.budget, d.seen, raw.value))
  {
    hide Enter, RowFrom;
  }

  lemma BadPosition(db: DB, pos: Position, raw: Payload)
    requires !ValidPosition(pos)
    ensures Ingest(db, pos, raw) == Err(InvalidPosition)
  {
  }

  lemma DigestNext(db: DB, d: Digest, p: Partition)
    requires Digests(db, d)
    ensures d.next == db.usage.next && d.budget == db.budget && NextIn(d.next, p) == NextOf(db.usage, p)
  {
    hide HeldOk, SeenOk, TallyOk, SignedOk;
  }

  lemma DeliverRow(db: DB, d: Digest, pos: Position, raw: Payload)
    requires Inv(db) && Digests(db, d) && ValidPosition(pos) && pos.offset == NextOf(db.usage, pos.partition)
    ensures var r := Ingest(db, pos, raw);
            r.Ok? && Inv(r.value) && Digests(r.value, Enter(d, pos.partition, RowFrom(d.budget, d.seen, raw))) && OnlyMatches(db.escrow, r.value.escrow)
  {
    IngestKeepsInv(db, pos, raw);
    InvConjuncts(db);
    RowForMeaning(db, raw);
    JudgeMeaning(db, raw);
    hide Inv, Ingest, RowFor, RowFrom, Judge, Known, ChargeRecorded, Audited, EscrowInv, BudgetOk, BooksOk, SummaryOk, SessionsOk, Enter, ValidPosition, NextOf,
         OnlyMatches, OffsetsOk, IdsOk, RowsOk, ChargesOk, SpentOk, UsageOk, TallyOk, HeldOk, SignedOk, SeenOk;
    RowFromIs(db, d.seen, raw);
    FreshPosition(db, pos);
    var row := RowFor(db, raw);
    var db' := Ingest(db, pos, raw).value;
    if row.status == Applied {
      ChargedDigest(db, db', d, pos, row);
      ChargedMatches(db, db', pos, row);
    } else {
      AuditedDigest(db, db', d, pos, row);
      AuditedMatches(db, db', pos, row);
    }
  }

  lemma FreshPosition(db: DB, pos: Position)
    requires UsageOk(db) && pos.offset == NextOf(db.usage, pos.partition)
    ensures pos !in db.usage.rows && pos !in db.usage.authorizations
  {
  }

  lemma ChargedMatches(db: DB, db': DB, pos: Position, row: UsageRow)
    requires ChargeRecorded(db, db', pos, row)
    ensures OnlyMatches(db.escrow, db'.escrow)
  {
    hide OnlyMatches, Held;
  }

  lemma AuditedMatches(db: DB, db': DB, pos: Position, row: UsageRow)
    requires Audited(db, db', pos, row)
    ensures OnlyMatches(db.escrow, db'.escrow)
  {
  }

  lemma {:induction false} DeliverAllDigest(db: DB, d: Digest, base: map<Partition, int>, logs: Logs, turns: seq<Partition>)
    requires Inv(db) && Digests(db, d)
    ensures var db' := DeliverAll(db, base, logs, turns);
            Inv(db') && Digests(db', AbsorbAll(d, base, logs, turns)) && OnlyMatches(db.escrow, db'.escrow)
  {
    hide Inv, Digests, Deliver, Absorb, OnlyMatches;
    if turns == [] {
      MatchesSelf(db.escrow);
    } else {
      var front, last := turns[..|turns| - 1], turns[|turns| - 1];
      DeliverAllDigest(db, d, base, logs, front);
      DeliverDigest(DeliverAll(db, base, logs, front), AbsorbAll(d, base, logs, front), base, logs, last);
      MatchesTwice(db.escrow, DeliverAll(db, base, logs, front).escrow, DeliverAll(db, base, logs, turns).escrow);
    }
  }

  lemma MatchesSelf(e: Escrow)
    ensures OnlyMatches(e, e)
  {
  }

  lemma MatchesTwice(e0: Escrow, e1: Escrow, e2: Escrow)
    requires OnlyMatches(e0, e1) && OnlyMatches(e1, e2)
    ensures OnlyMatches(e0, e2)
  {
  }

  // ---- Two turns commute ----

  /** Charges change the status of allocations and nothing else of the budget. */
  predicate OnlyStatus(b: Budget, b': Budget) {
    && b' == b.(allocations := b'.allocations) && b'.allocations.Keys == b.allocations.Keys
    && forall a :: a in b.allocations ==> b'.allocations[a] == b.allocations[a].(status := b'.allocations[a].status)
  }

  lemma EnterKeepsBudget(d: Digest, p: Partition, row: UsageRow)
    ensures OnlyStatus(d.budget, Enter(d, p, row).budget)
  {
    hide ChargePosting, MovedAll, Bumped, RowFee;
  }

  lemma SameFault(b: Budget, b': Budget, t: SignedTicket)
    requires OnlyStatus(b, b')
    ensures TicketFault(b', t) == TicketFault(b, t)
  {
    hide WellFormed, Address;
  }

  lemma SameApplied(b: Budget, b': Budget, row: UsageRow)
    requires OnlyStatus(b, b')
    ensures AppliedRow(b', row) == AppliedRow(b, row) && RowFee(b', row) == RowFee(b, row)
    ensures AppliedRow(b, row) ==> ChargePosting(b', row) == ChargePosting(b, row) && AllocationOf(b', row.raw.ticket) == AllocationOf(b, row.raw.ticket)
  {
    hide Fee;
  }

  lemma SameRowFrom(b: Budget, b': Budget, seen: map<Id, Payload>, seen': map<Id, Payload>, raw: Payload)
    requires OnlyStatus(b, b')
    requires !raw.Malformed? ==> (raw.id in seen <==> raw.id in seen') && (raw.id in seen ==> seen[raw.id] == seen'[raw.id])
    ensures RowFrom(b', seen', raw) == RowFrom(b, seen, raw)
  {
    hide TicketFault, OnlyStatus;
    if raw.TicketEvent? { SameFault(b, b', raw.ticket); }
  }

  /** Rows that record different ids, or none. */
  predicate Apart(row: UsageRow, other: UsageRow) {
    row.eventId.None? || row.eventId != other.eventId
  }

  lemma SeenCommutes(seen: map<Id, Payload>, row: UsageRow, other: UsageRow)
    requires Apart(row, other)
    ensures var s1 := if row.eventId.Some? then seen[row.eventId.value := row.raw] else seen;
            var s2 := if other.eventId.Some? then seen[other.eventId.value := other.raw] else seen;
            (if other.eventId.Some? then s1[other.eventId.value := other.raw] else s1) ==
            (if row.eventId.Some? then s2[row.eventId.value := row.raw] else s2)
  {
  }

  lemma TallyCommutes(tally: Tally, s1: UsageStatus, r1: Reason, s2: UsageStatus, r2: Reason)
    ensures Bumped(Bumped(tally, s1, r1), s2, r2) == Bumped(Bumped(tally, s2, r2), s1, r1)
  {
  }

  lemma NextCommutes(next: map<Partition, int>, p: Partition, q: Partition)
    requires p != q
    ensures var n1 := next[p := NextIn(next, p) + 1];
            var n2 := next[q := NextIn(next, q) + 1];
            n1[q := NextIn(n1, q) + 1] == n2[p := NextIn(n2, p) + 1]
  {
  }

  lemma HeldCommutes(held: imap<Account, int>, d1: Account, c1: Account, n1: int, d2: Account, c2: Account, n2: int)
    ensures MovedAll(MovedAll(held, d1, c1, n1), d2, c2, n2) == MovedAll(MovedAll(held, d2, c2, n2), d1, c1, n1)
  {
  }

  lemma PostingsCommute(postings: map<Key, Posting>, k1: Key, x1: Posting, n1: int, k2: Key, x2: Posting, n2: int)
    requires k1 != k2
    ensures var p1 := if n1 == 0 then postings else postings[k1 := x1];
            var p2 := if n2 == 0 then postings else postings[k2 := x2];
            (if n2 == 0 then p1 else p1[k2 := x2]) == (if n1 == 0 then p2 else p2[k1 := x1])
  {
  }

  /** Two charges exhaust an allocation together exactly when they do in the other order. */
  lemma LeftCommutes(a: Allocation, available: int, n1: nat, n2: nat)
    ensures Left(Left(a, available - n1), available - n1 - n2) == Left(Left(a, available - n2), available - n2 - n1)
  {
  }

  ghost function After(budget: Budget, id: Id, held: imap<Account, int>, p: Posting, n: int): Budget
    requires id in budget.allocations
  {
    budget.(allocations := budget.allocations[id := Left(budget.allocations[id], HeldIn(held, p.debit) - n)])
  }

  predicate ChargesTo(p: Posting, id: Id) {
    p.debit.kind == AllocationAvailable && p.debit.owner == id && p.credit == Account(AllocationSpent, id, p.debit.currency)
  }

  ghost predicate Whole(held: imap<Account, int>) {
    forall a :: a in held
  }

  lemma BudgetCommutes(b: Budget, held: imap<Account, int>, id1: Id, p1: Posting, n1: nat, id2: Id, p2: Posting, n2: nat)
    requires id1 in b.allocations && id2 in b.allocations && ChargesTo(p1, id1) && ChargesTo(p2, id2) && (id1 == id2 ==> p1.debit == p2.debit)
    requires Whole(held)
    ensures After(After(b, id1, held, p1, n1), id2, MovedAll(held, p1.debit, p1.credit, n1), p2, n2) ==
            After(After(b, id2, held, p2, n2), id1, MovedAll(held, p2.debit, p2.credit, n2), p1, n1)
  {
    AfterOther(held, p1, n1, p2);
    AfterOther(held, p2, n2, p1);
    hide MovedAll, HeldIn, Left, Whole, ChargesTo;
    if id1 == id2 {
      LeftCommutes(b.allocations[id1], HeldIn(held, p1.debit), n1, n2);
      var a, available := b.allocations[id1], HeldIn(held, p1.debit);
      WrittenTwice(b.allocations, id1, Left(a, available - n1), Left(Left(a, available - n1), available - n1 - n2));
      WrittenTwice(b.allocations, id1, Left(a, available - n2), Left(Left(a, available - n2), available - n2 - n1));
    } else {
      SwapWritten(b.allocations, id1, Left(b.allocations[id1], HeldIn(held, p1.debit) - n1), id2, Left(b.allocations[id2], HeldIn(held, p2.debit) - n2));
    }
  }

  /** What the first charge leaves available to the second. */
  lemma AfterOther(held: imap<Account, int>, p: Posting, n: nat, q: Posting)
    requires Whole(held) && p.credit.kind == AllocationSpent && q.debit.kind == AllocationAvailable
    ensures HeldIn(MovedAll(held, p.debit, p.credit, n), q.debit) == HeldIn(held, q.debit) - if q.debit == p.debit then n else 0
  {
  }

  lemma WrittenTwice(m: map<Id, Allocation>, id: Id, a: Allocation, next: Allocation)
    ensures m[id := a][id := next] == m[id := next]
  {
  }

  lemma SwapWritten(m: map<Id, Allocation>, id1: Id, a1: Allocation, id2: Id, a2: Allocation)
    requires id1 != id2
    ensures m[id1 := a1][id2 := a2] == m[id2 := a2][id1 := a1]
  {
  }

  lemma ChargeFields(d: Digest, row: UsageRow)
    requires AppliedRow(d.budget, row)
    ensures var id := AllocationOf(d.budget, row.raw.ticket);
            var n := RowFee(d.budget, row);
            var p := ChargePosting(d.budget, row);
            && n >= 0 && ChargesTo(p, id) && p.debit.currency == d.budget.allocations[id].currency
            && Charge1(d, row) == d.(postings := if n == 0 then d.postings else d.postings[UsageKey(row.raw.id) := p],
                                     held := MovedAll(d.held, p.debit, p.credit, n),
                                     budget := After(d.budget, id, d.held, p, n),
                                     signed := d.signed + {AuthorizationFor(row.raw.ticket)})
            && OnlyStatus(d.budget, After(d.budget, id, d.held, p, n))
  {
    hide MovedAll, HeldIn, Fee;
  }

  lemma ChargeCommutes(d: Digest, row: UsageRow, other: UsageRow)
    requires AppliedRow(d.budget, row) && AppliedRow(d.budget, other) && Apart(row, other) && Whole(d.held)
    ensures AppliedRow(Charge1(d, row).budget, other) && AppliedRow(Charge1(d, other).budget, row)
    ensures Charge1(Charge1(d, row), other) == Charge1(Charge1(d, other), row)
  {
    AppliedIds(d.budget, row);
    AppliedIds(d.budget, other);
    hide Charge1, OnlyStatus, RowFee, MovedAll, Left, HeldIn, AppliedRow, ChargePosting, After, AllocationOf, ChargesTo, Whole, AuthorizationFor;
    var b := d.budget;
    var id1, id2 := AllocationOf(b, row.raw.ticket), AllocationOf(b, other.raw.ticket);
    var p1, p2 := ChargePosting(b, row), ChargePosting(b, other);
    var n1, n2 := RowFee(b, row), RowFee(b, other);
    var d1, d2 := Charge1(d, row), Charge1(d, other);
    ChargeFields(d, row);
    ChargeFields(d, other);
    SameApplied(b, d1.budget, other);
    SameApplied(b, d2.budget, row);
    ChargeFields(d1, other);
    ChargeFields(d2, row);
    if id1 == id2 { SameDebit(b, row, other); }
    PostingsCommute(d.postings, UsageKey(row.raw.id), p1, n1, UsageKey(other.raw.id), p2, n2);
    HeldCommutes(d.held, p1.debit, p1.credit, n1, p2.debit, p2.credit, n2);
    BudgetCommutes(b, d.held, id1, p1, n1, id2, p2, n2);
  }

  lemma AppliedIds(b: Budget, row: UsageRow)
    requires AppliedRow(b, row)
    ensures row.eventId == Some(row.raw.id) && row.raw.ticket.authId in b.sessions && AllocationOf(b, row.raw.ticket) in b.allocations
  {
  }

  lemma SameDebit(b: Budget, row: UsageRow, other: UsageRow)
    requires AppliedRow(b, row) && AppliedRow(b, other) && AllocationOf(b, row.raw.ticket) == AllocationOf(b, other.raw.ticket)
    ensures ChargePosting(b, row).debit == ChargePosting(b, other).debit
  {
  }

  ghost function Listed(d: Digest, p: Partition, row: UsageRow): Digest {
    d.(seen := if row.eventId.Some? then d.seen[row.eventId.value := row.raw] else d.seen,
       tally := Bumped(d.tally, row.status, row.reason),
       next := d.next[p := NextIn(d.next, p) + 1])
  }

  ghost function Charged1(d: Digest, row: UsageRow): Digest {
    if row.status == Applied && AppliedRow(d.budget, row) then Charge1(d, row) else d
  }

  lemma EnterIs(d: Digest, p: Partition, row: UsageRow)
    ensures Enter(d, p, row) == Charged1(Listed(d, p, row), row)
  {
    hide Charge1, Bumped;
  }

  /** Charging does not read what listing writes. */
  lemma ListedCharged(d: Digest, p: Partition, row: UsageRow, other: UsageRow)
    ensures Charged1(Listed(d, p, row), other) == Listed(Charged1(d, other), p, row)
  {
    hide Bumped, MovedAll, ChargePosting, RowFee, Left, HeldIn, AllocationOf, AuthorizationFor;
  }

  lemma ListedTwice(d: Digest, p: Partition, row: UsageRow, q: Partition, other: UsageRow)
    requires p != q && Apart(row, other)
    ensures Listed(Listed(d, p, row), q, other) == Listed(Listed(d, q, other), p, row)
  {
    hide Bumped, NextIn, Apart;
    SeenCommutes(d.seen, row, other);
    TallyCommutes(d.tally, row.status, row.reason, other.status, other.reason);
    NextCommutes(d.next, p, q);
  }

  lemma ChargedTwice(d: Digest, row: UsageRow, other: UsageRow)
    requires Apart(row, other) && Whole(d.held)
    ensures Charged1(Charged1(d, row), other) == Charged1(Charged1(d, other), row)
  {
    hide Charge1, AppliedRow, Apart, Whole;
    if AppliedRow(d.budget, row) {
      ChargeFields(d, row);
      SameApplied(d.budget, Charge1(d, row).budget, other);
    }
    if AppliedRow(d.budget, other) {
      ChargeFields(d, other);
      SameApplied(d.budget, Charge1(d, other).budget, row);
    }
    if AppliedRow(d.budget, row) && AppliedRow(d.budget, other) { ChargeCommutes(d, row, other); }
  }

  lemma EnterCommutes(d: Digest, p: Partition, row: UsageRow, q: Partition, other: UsageRow)
    requires p != q && Apart(row, other) && Whole(d.held)
    ensures Enter(Enter(d, p, row), q, other) == Enter(Enter(d, q, other), p, row)
  {
    hide *;
    EnterIs(d, p, row);
    EnterIs(Enter(d, p, row), q, other);
    EnterIs(d, q, other);
    EnterIs(Enter(d, q, other), p, row);
    ListedCharged(Listed(d, p, row), q, other, row);
    ListedCharged(Listed(d, q, other), p, row, other);
    ListedTwice(d, p, row, q, other);
    ListedHeld(d, p, row, q, other);
    ChargedTwice(Listed(Listed(d, p, row), q, other), row, other);
  }

  lemma ListedHeld(d: Digest, p: Partition, row: UsageRow, q: Partition, other: UsageRow)
    ensures Listed(Listed(d, p, row), q, other).held == d.held
  {
    hide Bumped;
  }

  /** The second copy of a payload is a duplicate, whichever partition holds it. */
  lemma SecondCopy(b: Budget, b': Budget, seen: map<Id, Payload>, raw: Payload)
    requires !raw.Malformed? && raw.id !in seen
    ensures RowFrom(b, seen, raw).eventId == Some(raw.id) && RowFrom(b, seen, raw).raw == raw
    ensures RowFrom(b', seen[raw.id := raw], raw) == RowOfVerdict(Verdict(Duplicate, NoReason, None), raw)
  {
    hide TicketFault, RowOfVerdict;
    RowHasId(Judged(b, seen, raw), raw);
  }

  lemma RowHasId(v: Verdict, raw: Payload)
    ensures RowOfVerdict(v, raw).eventId == v.eventId && RowOfVerdict(v, raw).raw == raw
  {
  }

  lemma RowIds(b: Budget, seen: map<Id, Payload>, raw: Payload)
    ensures var row := RowFrom(b, seen, raw);
            row.raw == raw && (row.eventId.Some? ==> !raw.Malformed? && row.eventId.value == raw.id && raw.id !in seen)
    ensures !raw.Malformed? && raw.id !in seen ==> RowFrom(b, seen, raw).eventId == Some(raw.id)
  {
    hide TicketFault;
  }

  lemma EnterSeen(d: Digest, p: Partition, row: UsageRow)
    ensures Enter(d, p, row).seen == if row.eventId.Some? then d.seen[row.eventId.value := row.raw] else d.seen
  {
    hide Charge1, Bumped;
    if row.status == Applied && AppliedRow(Listed(d, p, row).budget, row) { ChargeFields(Listed(d, p, row), row); }
  }

  /** The row a record gets does not depend on records of other ids. */
  lemma RowAfter(d: Digest, p: Partition, raw: Payload, other: Payload)
    requires raw.Malformed? || other.Malformed? || raw.id != other.id || raw.id in d.seen
    ensures var d' := Enter(d, p, RowFrom(d.budget, d.seen, raw));
            RowFrom(d'.budget, d'.seen, other) == RowFrom(d.budget, d.seen, other)
  {
    hide *;
    var row := RowFrom(d.budget, d.seen, raw);
    EnterKeepsBudget(d, p, row);
    EnterSeen(d, p, row);
    RowIds(d.budget, d.seen, raw);
    SameRowFrom(d.budget, Enter(d, p, row).budget, d.seen, Enter(d, p, row).seen, other);
  }

  lemma RowsCommute(d: Digest, p: Partition, raw: Payload, q: Partition, other: Payload)
    requires p != q && SameEvent(raw, other) && Whole(d.held)
    ensures var d1 := Enter(d, p, RowFrom(d.budget, d.seen, raw));
            var d2 := Enter(d, q, RowFrom(d.budget, d.seen, other));
            Enter(d1, q, RowFrom(d1.budget, d1.seen, other)) == Enter(d2, p, RowFrom(d2.budget, d2.seen, raw))
  {
    RowIds(d.budget, d.seen, raw);
    RowIds(d.budget, d.seen, other);
    hide Enter, RowFrom, Whole;
    var r1, r2 := RowFrom(d.budget, d.seen, raw), RowFrom(d.budget, d.seen, other);
    if raw.Malformed? || other.Malformed? || raw.id != other.id || raw.id in d.seen {
      RowAfter(d, p, raw, other);
      RowAfter(d, q, other, raw);
      EnterCommutes(d, p, r1, q, r2);
    } else {
      EnterSeen(d, p, r1);
      EnterSeen(d, q, r1);
      SecondCopy(d.budget, Enter(d, p, r1).budget, d.seen, raw);
      SecondCopy(d.budget, Enter(d, q, r1).budget, d.seen, raw);
      var copy := RowOfVerdict(Verdict(Duplicate, NoReason, None), raw);
      CopyCommutes(d, p, q, r1, copy);
    }
  }

  /** Which of two copies is charged makes no difference. */
  lemma CopyCommutes(d: Digest, p: Partition, q: Partition, row: UsageRow, copy: UsageRow)
    requires p != q && copy.eventId.None? && copy.status == Duplicate
    ensures Enter(Enter(d, p, row), q, copy) == Enter(Enter(d, q, row), p, copy)
  {
    hide Enter, Charge1, AppliedRow, Bumped, NextIn, Listed, Charged1;
    EnterIs(d, p, row);
    EnterIs(Enter(d, p, row), q, copy);
    EnterIs(d, q, row);
    EnterIs(Enter(d, q, row), p, copy);
    NotCharged(Listed(Enter(d, p, row), q, copy), copy);
    NotCharged(Listed(Enter(d, q, row), p, copy), copy);
    ListedCharged(Listed(d, p, row), q, copy, row);
    ListedCharged(Listed(d, q, row), p, copy, row);
    CopyListed(d, p, q, row, copy);
  }

  lemma NotCharged(d: Digest, row: UsageRow)
    requires row.status != Applied
    ensures Charged1(d, row) == d
  {
  }

  lemma CopyListed(d: Digest, p: Partition, q: Partition, row: UsageRow, copy: UsageRow)
    requires p != q && copy.eventId.None?
    ensures Listed(Listed(d, p, row), q, copy) == Listed(Listed(d, q, row), p, copy)
  {
    hide Bumped, NextIn;
    NextCommutes(d.next, p, q);
  }

  lemma AbsorbKeeps(d: Digest, base: map<Partition, int>, logs: Logs, p: Partition)
    requires Whole(d.held)
    ensures Whole(Absorb(d, base, logs, p).held)
    ensures forall q :: q != p ==> NextIn(Absorb(d, base, logs, p).next, q) == NextIn(d.next, q)
  {
    hide RowFrom, Bumped, AppliedRow, ChargePosting, RowFee, Left, HeldIn, AllocationOf, ValidPosition, NextRecord;
  }

  lemma SameNext(logs: Logs, base: map<Partition, int>, next: map<Partition, int>, next': map<Partition, int>, p: Partition)
    requires NextIn(next, p) == NextIn(next', p)
    ensures NextRecord(logs, base, next, p) == NextRecord(logs, base, next', p)
  {
  }

  lemma RecordsAgree(logs: Logs, base: map<Partition, int>, next: map<Partition, int>, p: Partition, q: Partition)
    requires OnePayloadPerId(logs) && NextRecord(logs, base, next, p).Some? && NextRecord(logs, base, next, q).Some?
    ensures SameEvent(NextRecord(logs, base, next, p).value, NextRecord(logs, base, next, q).value)
  {
    hide SameEvent;
  }

  lemma TurnsCommute(d: Digest, base: map<Partition, int>, logs: Logs, p: Partition, q: Partition)
    requires OnePayloadPerId(logs) && Whole(d.held)
    ensures Absorb(Absorb(d, base, logs, p), base, logs, q) == Absorb(Absorb(d, base, logs, q), base, logs, p)
  {
    hide *;
    if p != q {
      var d1, d2 := Absorb(d, base, logs, p), Absorb(d, base, logs, q);
      AbsorbKeeps(d, base, logs, p);
      AbsorbKeeps(d, base, logs, q);
      AbsorbShape(d, base, logs, p);
      AbsorbShape(d, base, logs, q);
      AbsorbShape(d1, base, logs, q);
      AbsorbShape(d2, base, logs, p);
      SameNext(logs, base, d.next, d1.next, q);
      SameNext(logs, base, d.next, d2.next, p);
      var raw, other := NextRecord(logs, base, d.next, p), NextRecord(logs, base, d.next, q);
      if raw.Some? && other.Some? {
        RecordsAgree(logs, base, d.next, p, q);
        RowsCommute(d, p, raw.value, q, other.value);
      }
    }
  }

  // ---- Interleavings ----

  function Omitting(turns: seq<Partition>, i: nat): seq<Partition>
    requires i < |turns|
  {
    turns[..i] + turns[i + 1..]
  }

  lemma {:induction false} StaysWhole(d: Digest, base: map<Partition, int>, logs: Logs, turns: seq<Partition>)
    requires Whole(d.held)
    ensures Whole(AbsorbAll(d, base, logs, turns).held)
  {
    hide Absorb, Whole;
    if turns != [] {
      StaysWhole(d, base, logs, turns[..|turns| - 1]);
      AbsorbKeeps(AbsorbAll(d, base, logs, turns[..|turns| - 1]), base, logs, turns[|turns| - 1]);
    }
  }

  lemma AbsorbLast(d: Digest, base: map<Partition, int>, logs: Logs, turns: seq<Partition>, p: Partition)
    ensures AbsorbAll(d, base, logs, turns + [p]) == Absorb(AbsorbAll(d, base, logs, turns), base, logs, p)
  {
    hide Absorb;
    assert (turns + [p])[..|turns|] == turns;
  }

  /** Any turn may be taken last. */
  lemma {:induction false} TakenLast(d: Digest, base: map<Partition, int>, logs: Logs, turns: seq<Partition>, i: nat)
    requires OnePayloadPerId(logs) && Whole(d.held) && i < |turns|
    ensures AbsorbAll(d, base, logs, turns) == Absorb(AbsorbAll(d, base, logs, Omitting(turns, i)), base, logs, turns[i])
  {
    hide Absorb, Whole, AbsorbAll, OnePayloadPerId;
    var n := |turns| - 1;
    var front, y := turns[..n], turns[n];
    assert turns == front + [y];
    AbsorbLast(d, base, logs, front, y);
    if i == n {
      assert Omitting(turns, i) == front;
    } else {
      TakenLast(d, base, logs, front, i);
      StaysWhole(d, base, logs, Omitting(front, i));
      TurnsCommute(AbsorbAll(d, base, logs, Omitting(front, i)), base, logs, turns[i], y);
      AbsorbLast(d, base, logs, Omitting(front, i), y);
      assert Omitting(turns, i) == Omitting(front, i) + [y];
    }
  }

  lemma OmittingIsLess(turns: seq<Partition>, i: nat)
    requires i < |turns|
    ensures multiset(turns) == multiset(Omitting(turns, i)) + multiset{turns[i]}
  {
    assert turns == turns[..i] + [turns[i]] + turns[i + 1..];
  }

  lemma SameRest(turns: seq<Partition>, others: seq<Partition>, x: Partition)
    requires multiset(turns) + multiset{x} == multiset(others + [x])
    ensures multiset(turns) == multiset(others)
  {
    assert multiset(others + [x]) == multiset(others) + multiset{x};
    assert multiset(turns) == multiset(turns) + multiset{x} - multiset{x};
    assert multiset(others) == multiset(others) + multiset{x} - multiset{x};
  }

  lemma {:induction false} OrderDoesNotMatter(d: Digest, base: map<Partition, int>, logs: Logs, turns: seq<Partition>, others: seq<Partition>)
    requires OnePayloadPerId(logs) && Whole(d.held) && multiset(turns) == multiset(others)
    ensures AbsorbAll(d, base, logs, turns) == AbsorbAll(d, base, logs, others)
    decreases |others|
  {
    hide Absorb, Whole, AbsorbAll, OnePayloadPerId;
    assert |turns| == |multiset(turns)| == |multiset(others)| == |others|;
    if others == [] {
      assert turns == others;
    } else {
      var front, x := others[..|others| - 1], others[|others| - 1];
      assert others == front + [x];
      assert x in multiset(turns);
      var i :| 0 <= i < |turns| && turns[i] == x;
      OmittingIsLess(turns, i);
      SameRest(Omitting(turns, i), front, x);
      TakenLast(d, base, logs, turns, i);
      AbsorbLast(d, base, logs, front, x);
      OrderDoesNotMatter(d, base, logs, Omitting(turns, i), front);
    }
  }

  // ---- The theorem ----

  ghost function PayloadOf(u: Usage, id: Id): Payload
    requires Known(u, id)
  {
    var p :| p in u.rows && u.rows[p].eventId == Some(id);
    u.rows[p].raw
  }

  lemma HasSeen(u: Usage) returns (seen: map<Id, Payload>)
    requires IdsOk(u)
    ensures SeenOk(u, seen)
  {
    var named := set p | p in u.rows && u.rows[p].eventId.Some?;
    var ids := set p | p in named :: u.rows[p].eventId.value;
    forall id ensures id in ids <==> Known(u, id) {
      if Known(u, id) {
        var p :| p in u.rows && u.rows[p].eventId == Some(id);
        assert p in named;
      }
    }
    seen := map id | id in ids :: PayloadOf(u, id);
    forall p | p in u.rows && u.rows[p].eventId.Some? && u.rows[p].eventId.value in seen
      ensures seen[u.rows[p].eventId.value] == u.rows[p].raw
    {
      var id := u.rows[p].eventId.value;
      var q :| q in u.rows && u.rows[q].eventId == Some(id) && PayloadOf(u, id) == u.rows[q].raw;
    }
  }

  lemma HasDigest(db: DB) returns (d: Digest)
    requires IdsOk(db.usage)
    ensures Digests(db, d) && Whole(d.held)
  {
    var seen := HasSeen(db.usage);
    hide Held, RowCount, IdsOk, SeenOk;
    d := Digest(db.books.postings, imap a: Account | true :: Held(db.books.balances, a), db.budget, seen,
                imap k: (UsageStatus, Option<Reason>) | true :: RowCount(db.usage, k.0, k.1),
                set p | p in db.usage.authorizations :: db.usage.authorizations[p], db.usage.next);
  }

  /** What two databases with the same digest agree on. */
  ghost predicate SameOutcome(db: DB, db': DB) {
    && db'.books.postings == db.books.postings
    && (forall a :: Held(db'.books.balances, a) == Held(db.books.balances, a))
    && db'.budget == db.budget
    && db'.escrow == db.escrow
    && db'.usage.next == db.usage.next
    && (forall id :: Known(db'.usage, id) <==> Known(db.usage, id))
    && forall status, reason :: RowCount(db'.usage, status, reason) == RowCount(db.usage, status, reason)
  }

  lemma SameSigned(u: Usage, u': Usage, signed: set<Authorization>, pm: Id, orch: Id)
    requires SignedOk(u, signed) && SignedOk(u', signed)
    ensures SessionsFor(u, pm, orch) == SessionsFor(u', pm, orch)
  {
    forall s | s in SessionsFor(u, pm, orch) ensures s in SessionsFor(u', pm, orch) { SignedThere(u, u', signed, pm, orch, s); }
    forall s | s in SessionsFor(u', pm, orch) ensures s in SessionsFor(u, pm, orch) { SignedThere(u', u, signed, pm, orch, s); }
  }

  lemma SignedThere(u: Usage, u': Usage, signed: set<Authorization>, pm: Id, orch: Id, s: Id)
    requires SignedOk(u, signed) && SignedOk(u', signed) && s in SessionsFor(u, pm, orch)
    ensures s in SessionsFor(u', pm, orch)
  {
    var p :| p in u.authorizations && u.authorizations[p].pm == pm && u.authorizations[p].orchestrator == orch && u.authorizations[p].session == s;
    assert u.authorizations[p] in signed;
    var q :| q in u'.authorizations && u'.authorizations[q] == u.authorizations[p];
  }

  lemma SameEscrow(e: Escrow, db: DB, db': DB, signed: set<Authorization>)
    requires AttributionOk(db) && AttributionOk(db') && OnlyMatches(e, db.escrow) && OnlyMatches(e, db'.escrow)
    requires SignedOk(db.usage, signed) && SignedOk(db'.usage, signed)
    ensures db'.escrow == db.escrow
  {
    hide WantedMatch, SessionsFor, SignedOk;
    forall id | id in e.settlements ensures db'.escrow.settlements[id] == db.escrow.settlements[id] {
      var row, row' := db.escrow.settlements[id], db'.escrow.settlements[id];
      assert Attributed(db.usage, row) && Attributed(db'.usage, row');
      SameSigned(db.usage, db'.usage, signed, row.data.ticket.pm, row.data.recipient);
    }
    assert db'.escrow.settlements == db.escrow.settlements;
  }

  lemma SameLedger(db: DB, db': DB, d: Digest)
    requires Digests(db, d) && Digests(db', d)
    ensures db'.books.postings == db.books.postings && db'.budget == db.budget && db'.usage.next == db.usage.next
    ensures forall a :: Held(db'.books.balances, a) == Held(db.books.balances, a)
  {
    hide SeenOk, TallyOk, SignedOk, Held;
    forall a ensures Held(db'.books.balances, a) == Held(db.books.balances, a) { assert a in d.held; }
  }

  lemma SameRecords(db: DB, db': DB, d: Digest)
    requires Digests(db, d) && Digests(db', d)
    ensures forall id :: Known(db'.usage, id) <==> Known(db.usage, id)
    ensures forall status, reason :: RowCount(db'.usage, status, reason) == RowCount(db.usage, status, reason)
  {
    hide HeldOk, SignedOk, Known, RowCount;
    forall id ensures Known(db'.usage, id) <==> Known(db.usage, id) { assert id in d.seen <==> Known(db.usage, id); }
    forall status, reason ensures RowCount(db'.usage, status, reason) == RowCount(db.usage, status, reason) {
      assert (status, reason) in d.tally;
    }
  }

  lemma DigestSigned(db: DB, d: Digest)
    requires Digests(db, d)
    ensures SignedOk(db.usage, d.signed)
  {
    hide HeldOk, SeenOk, TallyOk, SignedOk;
  }

  lemma Outcomes(db: DB, db': DB)
    requires db'.books.postings == db.books.postings && db'.budget == db.budget && db'.usage.next == db.usage.next && db'.escrow == db.escrow
    requires forall a :: Held(db'.books.balances, a) == Held(db.books.balances, a)
    requires forall id :: Known(db'.usage, id) <==> Known(db.usage, id)
    requires forall status, reason :: RowCount(db'.usage, status, reason) == RowCount(db.usage, status, reason)
    ensures SameOutcome(db, db')
  {
    hide Held, Known, RowCount;
  }

  lemma DigestDecides(e: Escrow, db: DB, db': DB, d: Digest)
    requires Inv(db) && Inv(db') && Digests(db, d) && Digests(db', d) && OnlyMatches(e, db.escrow) && OnlyMatches(e, db'.escrow)
    ensures SameOutcome(db, db')
  {
    hide *;
    InvConjuncts(db);
    InvConjuncts(db');
    DigestSigned(db, d);
    DigestSigned(db', d);
    SameEscrow(e, db, db', d.signed);
    SameLedger(db, db', d);
    SameRecords(db, db', d);
    Outcomes(db, db');
  }

  /**
   * Partition confluence: from any good state, any two interleavings of the same
   * partition logs leave the same ledger, balances, allocation statuses, settlement
   * attribution and checkpoints, and as many rows of each status and reason.
   */
  lemma PartitionsConfluent(db: DB, logs: Logs, turns: seq<Partition>, others: seq<Partition>)
    requires Inv(db) && OnePayloadPerId(logs) && multiset(turns) == multiset(others)
    ensures var db1 := DeliverAll(db, db.usage.next, logs, turns);
            var db2 := DeliverAll(db, db.usage.next, logs, others);
            Inv(db1) && Inv(db2) && SameOutcome(db1, db2)
  {
    IdsOf(db);
    hide *;
    var d := HasDigest(db);
    var base := db.usage.next;
    DeliverAllDigest(db, d, base, logs, turns);
    DeliverAllDigest(db, d, base, logs, others);
    OrderDoesNotMatter(d, base, logs, turns, others);
    DigestDecides(db.escrow, DeliverAll(db, base, logs, turns), DeliverAll(db, base, logs, others), AbsorbAll(d, base, logs, turns));
  }

  lemma IdsOf(db: DB)
    requires Inv(db)
    ensures IdsOk(db.usage)
  {
    InvConjuncts(db);
    hide Inv, EscrowInv, BudgetOk, BooksOk, SummaryOk, SessionsOk, AttributionOk, RevokedOnce, KnownHolders, OffsetsOk, RowsOk, ChargesOk, SpentOk;
  }

  /** A complete interleaving ingests every record of every log. */
  lemma {:induction false} AllDelivered(db: DB, base: map<Partition, int>, logs: Logs, turns: seq<Partition>, p: Partition)
    requires Inv(db) && db.usage.next == base && p in logs && ValidPosition(Position(p, NextIn(base, p) + |logs[p]|))
    ensures var n := NextIn(base, p) + if multiset(turns)[p] < |logs[p]| then multiset(turns)[p] else |logs[p]|;
            Inv(DeliverAll(db, base, logs, turns)) && NextOf(DeliverAll(db, base, logs, turns).usage, p) == n
  {
    hide Inv, Deliver, ValidPosition;
    if turns == [] {
    } else {
      var front, last := turns[..|turns| - 1], turns[|turns| - 1];
      assert turns == front + [last];
      AllDelivered(db, base, logs, front, p);
      DeliveredOne(DeliverAll(db, base, logs, front), base, logs, last, p);
    }
  }

  lemma DeliveredOne(db: DB, base: map<Partition, int>, logs: Logs, q: Partition, p: Partition)
    requires Inv(db) && p in logs && ValidPosition(Position(p, NextIn(base, p) + |logs[p]|)) && NextIn(base, p) <= NextOf(db.usage, p) <= NextIn(base, p) + |logs[p]|
    ensures var db' := Deliver(db, base, logs, q);
            && Inv(db')
            && NextOf(db'.usage, p) == NextOf(db.usage, p) + if q == p && NextOf(db.usage, p) < NextIn(base, p) + |logs[p]| then 1 else 0
  {
    NextNotBelowZero(db, p);
    SameNextOf(db.usage, p);
    hide Inv, RowFor, Ingest, ChargeRecorded, Audited;
    DeliverShape(db, base, logs, q);
    var raw := NextRecord(logs, base, db.usage.next, q);
    if raw.Some? {
      var pos := Position(q, NextOf(db.usage, q));
      IngestKeepsInv(db, pos, raw.value);
      if Ingest(db, pos, raw.value).Ok? { IngestedNext(db, pos, raw.value, p); }
    }
  }

  lemma SameNextOf(u: Usage, p: Partition)
    ensures NextOf(u, p) == NextIn(u.next, p)
  {
  }

  lemma IngestedNext(db: DB, pos: Position, raw: Payload, p: Partition)
    requires Inv(db) && pos.offset == NextOf(db.usage, pos.partition) && Ingest(db, pos, raw).Ok?
    ensures NextOf(Ingest(db, pos, raw).value.usage, p) == NextOf(db.usage, p) + if p == pos.partition then 1 else 0
  {
    hide *;
    IngestKeepsInv(db, pos, raw);
    var db' := Ingest(db, pos, raw).value;
    if RowFor(db, raw).status == Applied {
      ChargedNext(db, db', pos, RowFor(db, raw));
    } else {
      AuditedNext(db, db', pos, RowFor(db, raw));
    }
    NextMoved(db.usage, db'.usage, pos, p);
  }

  lemma ChargedNext(db: DB, db': DB, pos: Position, row: UsageRow)
    requires ChargeRecorded(db, db', pos, row)
    ensures db'.usage.next == db.usage.next[pos.partition := pos.offset + 1]
  {
    hide OnlyMatches, AppliedRow, Spent, ChargePosting, Held, RowFee, AllocationOf;
  }

  lemma AuditedNext(db: DB, db': DB, pos: Position, row: UsageRow)
    requires Audited(db, db', pos, row)
    ensures db'.usage.next == db.usage.next[pos.partition := pos.offset + 1]
  {
  }

  lemma NextMoved(u: Usage, u': Usage, pos: Position, p: Partition)
    requires u'.next == u.next[pos.partition := pos.offset + 1] && pos.offset == NextOf(u, pos.partition)
    ensures NextOf(u', p) == NextOf(u, p) + if p == pos.partition then 1 else 0
  {
  }

  lemma NextNotBelowZero(db: DB, p: Partition)
    requires Inv(db)
    ensures NextOf(db.usage, p) >= 0
  {
    InvConjuncts(db);
    hide Inv, EscrowInv, BudgetOk, BooksOk, SummaryOk, SessionsOk, AttributionOk, RevokedOnce, KnownHolders, IdsOk, RowsOk, ChargesOk, SpentOk;
  }
}

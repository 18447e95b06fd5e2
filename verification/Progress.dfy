/**
 * What whole runs keep: ledger, usage and replies only grow, rows keep their data and
 * their generations never fall, and attribution moves one way. The theorems of each
 * part are restated here for every reachable state.
 */
module Progress {
  import opened Blocks
  import opened Tables
  import opened Books
  import opened Summaries
  import opened Attribution
  import opened EscrowStore
  import opened EscrowLedger
  import opened EscrowSteps
  import opened Reorgs
  import opened Rewinds
  import opened Bootstrap
  import opened Management
  import opened Ingestion
  import opened IngestSteps
  import opened Invariant
  import opened IngestKeeps
  import opened Authorize
  import opened Idempotent
  import opened ManagementKeeps
  import opened Runs

  // ---- What only grows ----

  ghost predicate LedgerGrows(before: map<Key, Posting>, next: map<Key, Posting>) {
    forall k :: k in before ==> k in next && next[k] == before[k]
  }

  ghost predicate UsageGrows(u: Usage, u': Usage) {
    && (forall p :: p in u.rows ==> p in u'.rows && u'.rows[p] == u.rows[p])
    && (forall p :: p in u.authorizations ==> p in u'.authorizations && u'.authorizations[p] == u.authorizations[p])
    && forall p :: NextOf(u, p) <= NextOf(u', p)
  }

  ghost predicate EscrowGrows(e: Escrow, e': Escrow) {
    && (forall id :: id in e.events ==>
          id in e'.events && e'.events[id].data == e.events[id].data && e.events[id].generation <= e'.events[id].generation)
    && forall id :: id in e.settlements ==>
         id in e'.settlements && e'.settlements[id].data == e.settlements[id].data && e.settlements[id].generation <= e'.settlements[id].generation
  }

  ghost predicate Grows(db: DB, db': DB) {
    LedgerGrows(db.books.postings, db'.books.postings) && UsageGrows(db.usage, db'.usage) && EscrowGrows(db.escrow, db'.escrow) &&
    SameBindings(db.budget, db'.budget)
  }

  lemma GrowsSelf(db: DB)
    ensures Grows(db, db)
  {
  }

  lemma GrowsTwice(db0: DB, db1: DB, db2: DB)
    requires Grows(db0, db1) && Grows(db1, db2)
    ensures Grows(db0, db2)
  {
    hide SameBindings, NextOf;
    BindingsTwice(db0.budget, db1.budget, db2.budget);
    forall p ensures NextOf(db0.usage, p) <= NextOf(db2.usage, p) { assert NextOf(db0.usage, p) <= NextOf(db1.usage, p); }
  }

  lemma BindingsTwice(b0: Budget, b1: Budget, b2: Budget)
    requires SameBindings(b0, b1) && SameBindings(b1, b2)
    ensures SameBindings(b0, b2)
  {
    forall s | s in b0.sessions ensures s in b2.sessions && b2.sessions[s] == b0.sessions[s].(active := b2.sessions[s].active) {
      assert b1.sessions[s] == b0.sessions[s].(active := b1.sessions[s].active);
      assert b2.sessions[s] == b1.sessions[s].(active := b2.sessions[s].active);
    }
  }

  // ---- Every write only grows ----

  lemma ManagementGrows(db: DB, db': DB)
    requires ManagementSide(db, db')
    ensures Grows(db, db')
  {
    hide SameBindings;
  }

  lemma IngestGrows(db: DB, pos: Position, raw: Payload)
    requires Inv(db) && Ingest(db, pos, raw).Ok?
    ensures Grows(db, Ingest(db, pos, raw).value)
  {
    IngestKeepsInv(db, pos, raw);
    InvConjuncts(db);
    RowForMeaning(db, raw);
    JudgeMeaning(db, raw);
    hide Inv, Ingest, RowFor, Judge, Known, EscrowInv, BudgetOk, UsageOk, SessionsOk, BooksOk, SummaryOk, Grows, ChargeRecorded, Audited, NextOf, ValidPosition,
         KnownHolders, AttributionOk;
    if pos.offset < NextOf(db.usage, pos.partition) {
      GrowsSelf(db);
    } else {
      NotRecorded(db, pos);
      if RowFor(db, raw).status == Applied {
        ChargedGrows(db, Ingest(db, pos, raw).value, pos, RowFor(db, raw));
      } else {
        AuditedGrows(db, Ingest(db, pos, raw).value, pos, RowFor(db, raw));
      }
    }
  }

  lemma NotRecorded(db: DB, pos: Position)
    requires UsageOk(db) && pos.offset >= NextOf(db.usage, pos.partition)
    ensures pos !in db.usage.rows && pos !in db.usage.authorizations
    ensures forall id :: UsageKey(id) in db.books.postings ==> Known(db.usage, id)
  {
    forall id | UsageKey(id) in db.books.postings ensures Known(db.usage, id) { assert ChargedUnder(db, id); }
  }

  lemma NextGrows(u: Usage, u': Usage, p: Partition, next: int)
    requires u'.next == u.next[p := next] && NextOf(u, p) <= next
    ensures forall q :: NextOf(u, q) <= NextOf(u', q)
  {
  }

  lemma AuditedGrows(db: DB, db': DB, pos: Position, row: UsageRow)
    requires Audited(db, db', pos, row) && pos !in db.usage.rows && pos.offset == NextOf(db.usage, pos.partition)
    ensures Grows(db, db')
  {
    NextGrows(db.usage, db'.usage, pos.partition, pos.offset + 1);
    hide NextOf;
  }

  lemma ChargedGrows(db: DB, db': DB, pos: Position, row: UsageRow)
    requires ChargeRecorded(db, db', pos, row) && pos !in db.usage.rows && pos !in db.usage.authorizations
    requires pos.offset == NextOf(db.usage, pos.partition) && UsageKey(row.raw.id) !in db.books.postings
    ensures Grows(db, db')
  {
    NextGrows(db.usage, db'.usage, pos.partition, pos.offset + 1);
    ChargedBindings(db, db', pos, row);
    ChargedEscrow(db, db', pos, row);
    hide NextOf, AppliedRow, RowFee, OnlyMatches, SameBindings, EscrowGrows, Spent;
  }

  lemma ChargedBindings(db: DB, db': DB, pos: Position, row: UsageRow)
    requires ChargeRecorded(db, db', pos, row)
    ensures SameBindings(db.budget, db'.budget)
  {
    hide OnlyMatches, RowFee, Depleted, ChargePosting;
  }

  lemma ChargedEscrow(db: DB, db': DB, pos: Position, row: UsageRow)
    requires ChargeRecorded(db, db', pos, row)
    ensures EscrowGrows(db.escrow, db'.escrow)
  {
    hide AppliedRow, RowFee, Spent, ChargePosting;
  }

  lemma EventRowsGrow(db: DB, db': DB, e: Event)
    requires SameEvent(db, e) && RowsOnly(db, db')
    requires db'.escrow.events == db.escrow.events[e.log := NextEvent(db, e)]
    requires forall id :: id in db.escrow.settlements ==>
               id in db'.escrow.settlements && db'.escrow.settlements[id].data == db.escrow.settlements[id].data &&
               db.escrow.settlements[id].generation <= db'.escrow.settlements[id].generation
    ensures Grows(db, db')
  {
    hide Held;
  }

  lemma SettledRowsGrow(db: DB, s: Settlement)
    requires SameSettlement(db, s)
    ensures forall id :: id in db.escrow.settlements ==>
              id in SettledRows(db, s) && SettledRows(db, s)[id].data == db.escrow.settlements[id].data &&
              db.escrow.settlements[id].generation <= SettledRows(db, s)[id].generation
  {
    hide WantedMatch, SessionsFor;
  }

  lemma ApplyEventGrows(db: DB, e: Event)
    requires EscrowInv(db) && Decoded(e) && ApplyEvent(db, e).Ok?
    ensures EscrowInv(ApplyEvent(db, e).value) && Grows(db, ApplyEvent(db, e).value)
  {
    ApplyEventKeeps(db, e);
    hide ApplyEvent, EscrowInv, SettledRows, WithdrawsAll, Covered, RowsOnly, Grows, NextEvent, SameEvent;
    if AlreadyCanonical(db, e) {
      GrowsSelf(db);
    } else {
      if e.kind == WinningTicketRedeemed { SettledRowsGrow(db, e.settlement.value); }
      EventRowsGrow(db, ApplyEvent(db, e).value, e);
    }
  }

  lemma {:induction false} ApplyEventsGrow(db: DB, events: seq<Event>)
    requires EscrowInv(db) && (forall e :: e in events ==> Decoded(e)) && ApplyEvents(db, events).Ok?
    ensures EscrowInv(ApplyEvents(db, events).value) && Grows(db, ApplyEvents(db, events).value)
  {
    hide EscrowInv, Grows, ApplyEvent;
    if events == [] {
      GrowsSelf(db);
    } else {
      var front, last := events[..|events| - 1], events[|events| - 1];
      ApplyEventsGrow(db, front);
      assert last in events;
      ApplyEventGrows(ApplyEvents(db, front).value, last);
      GrowsTwice(db, ApplyEvents(db, front).value, ApplyEvents(db, events).value);
    }
  }

  lemma ChainRowsGrow(db: DB, stream: Id, c: Chain)
    ensures Grows(db, WithChain(db, stream, c))
  {
  }

  lemma ApplyChainGrows(db: DB, stream: Id, blocks: seq<Block>, events: seq<Event>, lookback: int)
    requires EscrowInv(db) && (forall e :: e in events ==> Decoded(e)) && ApplyChain(db, stream, blocks, events, lookback).Ok?
    ensures Grows(db, ApplyChain(db, stream, blocks, events, lookback).value)
  {
    hide EscrowInv, Grows, ApplyEvents, PutBlocks;
    var c := Chain(PutBlocks(ChainOf(db, stream).blocks, blocks), ChainOf(db, stream).checkpoint);
    var db1 := WithChain(db, stream, c);
    ChainFrame(db, stream, c);
    ChainRowsGrow(db, stream, c);
    ApplyEventsGrow(db1, events);
    var db2 := ApplyEvents(db1, events).value;
    var db' := ApplyChain(db, stream, blocks, events, lookback).value;
    ChainRowsGrow(db2, stream, db'.escrow.chains[stream]);
    GrowsTwice(db, db1, db2);
    GrowsTwice(db, db2, db');
  }

  lemma RewindGrows(db: DB, stream: Id, ancestor: Block, settled: seq<LogId>, canonical: seq<LogId>)
    requires EscrowInv(db) && ListsSettlements(db, settled, ancestor.number) && ListsEvents(db, canonical, ancestor.number)
    requires Rewind(db, stream, ancestor, settled, canonical).Ok?
    ensures Grows(db, Rewind(db, stream, ancestor, settled, canonical).value)
  {
    RewindKeeps(db, stream, ancestor, settled, canonical);
    hide EscrowInv, Rewind, ListsSettlements, ListsEvents, Held, HasSnapshot, BeforeAnchors, Grows, ChainWrite, RewoundRows, Truncated;
    RewoundGrows(db, Rewind(db, stream, ancestor, settled, canonical).value, ancestor.number);
  }

  lemma RewoundGrows(db: DB, db': DB, after: int)
    requires ChainWrite(db, db') && db'.escrow == RewoundRows(db.escrow, after).(chains := db'.escrow.chains)
    ensures Grows(db, db')
  {
    hide Held;
  }

  lemma OpeningGrows(db: DB, db': DB)
    requires OpeningWrite(db, db')
    ensures Grows(db, db')
  {
    hide Held;
  }

  lemma ManagedGrows(db: DB, op: Op)
    requires Inv(db) && Enabled(db, op) && Exec(db, op).Ok?
    requires op.NewGrant? || op.Manage? || op.SetGrant? || op.SetAllocation? || op.DropKey? || op.DropSession? || op.Sign?
    ensures Grows(db, Next(db, op))
  {
    hide Inv, CreateGrant, WriteIdempotent, SetGrantStatus, SetAllocationStatus, RevokeApiKey, RevokeSession, Commit, FreshGrant, FreshMutation,
         ManagementSide, Grows;
    match op {
      case NewGrant(id, amount, currency, status, window) => CreateGrantInv(db, id, amount, currency, status, window);
      case Manage(key, fingerprint, mutation) => WriteIdempotentInv(db, key, fingerprint, mutation);
      case SetGrant(id, status) => SetGrantStatusInv(db, id, status);
      case SetAllocation(id, status) => SetAllocationStatusInv(db, id, status);
      case DropKey(id) => RevokeKeyInv(db, id);
      case DropSession(id) => RevokeSessionInv(db, id);
      case Sign(request, clock, id) => CommitInv(db, request, clock, id);
    }
    ManagementGrows(db, Next(db, op));
  }

  /** No write takes anything back. */
  lemma StepGrows(db: DB, op: Op)
    requires Inv(db) && Enabled(db, op)
    ensures Grows(db, Next(db, op))
  {
    EscrowOf(db);
    GrowsSelf(db);
    hide Inv, EscrowInv, CreateGrant, WriteIdempotent, SetGrantStatus, SetAllocationStatus, RevokeApiKey, RevokeSession, Commit, Ingest,
         BootstrapChain, ApplyChain, Rewind, FreshGrant, FreshMutation, ListsSettlements, ListsEvents, Grows, OpeningWrite,
         Decoded, SetLag, Openable, AnchorOk;
    if Exec(db, op).Ok? {
      match op
      case Consume(pos, raw) => IngestGrows(db, pos, raw);
      case PublishLag(topic, lag) => LagGrows(db, op);
      case OpenChain(stream, anchor, snapshots) => BootstrapKeeps(db, stream, anchor, snapshots); OpeningGrows(db, Next(db, op));
      case ApplyBlocks(stream, blocks, events, lookback) => ApplyChainGrows(db, stream, blocks, events, lookback);
      case Reorg(stream, ancestor, settled, canonical) => RewindGrows(db, stream, ancestor, settled, canonical);
      case _ => ManagedGrows(db, op);
    }
  }

  lemma LagGrows(db: DB, op: Op)
    requires op.PublishLag?
    ensures Grows(db, SetLag(db, op.topic, op.lag))
  {
  }

  lemma {:induction false} RunFrom(db: DB, ops: seq<Op>)
    requires Inv(db) && Valid(db, ops)
    ensures Inv(Run(db, ops)) && Grows(db, Run(db, ops))
  {
    hide Inv, Enabled, Next, Grows;
    if ops == [] {
      GrowsSelf(db);
    } else {
      var front, last := ops[..|ops| - 1], ops[|ops| - 1];
      RunFrom(db, front);
      StepKeepsInv(Run(db, front), last);
      StepGrows(Run(db, front), last);
      GrowsTwice(db, Run(db, front), Run(db, ops));
    }
  }

  // ---- Corollaries for every run ----

  /** A settlement's attribution only moves from unmatched to matched to ambiguous. */
  lemma AttributionMoves(ops: seq<Op>, more: seq<Op>, id: LogId)
    requires Valid(EMPTY, ops + more) && id in Run(EMPTY, ops).escrow.settlements
    ensures id in Run(EMPTY, ops + more).escrow.settlements
    ensures Later(Run(EMPTY, ops).escrow.settlements[id].matching, Run(EMPTY, ops + more).escrow.settlements[id].matching)
  {
    RunConcat(EMPTY, ops, more);
    RunKeepsInv(ops);
    hide Inv, Valid, Run, Grows;
    var db, db' := Run(EMPTY, ops), Run(EMPTY, ops + more);
    RunFrom(db, more);
    AttributionStep(db, db', id);
  }

  lemma AttributionStep(db: DB, db': DB, id: LogId)
    requires Inv(db) && Inv(db') && Grows(db, db') && id in db.escrow.settlements
    ensures id in db'.escrow.settlements && Later(db.escrow.settlements[id].matching, db'.escrow.settlements[id].matching)
  {
    InvConjuncts(db);
    InvConjuncts(db');
    hide Inv, EscrowInv, UsageOk, BudgetOk, BooksOk, SummaryOk, SessionsOk, WantedMatch, SameBindings, NextOf, Later;
    var row, row' := db.escrow.settlements[id], db'.escrow.settlements[id];
    assert Attributed(db.usage, row) && Attributed(db'.usage, row');
    SessionsGrow(db.usage, db'.usage, row.data.ticket.pm, row.data.recipient);
    MoreSessions(SessionsFor(db.usage, row.data.ticket.pm, row.data.recipient), SessionsFor(db'.usage, row.data.ticket.pm, row.data.recipient));
  }

  lemma SessionsGrow(u: Usage, u': Usage, pm: Id, orch: Id)
    requires forall p :: p in u.authorizations ==> p in u'.authorizations && u'.authorizations[p] == u.authorizations[p]
    ensures SessionsFor(u, pm, orch) <= SessionsFor(u', pm, orch)
  {
    forall s | s in SessionsFor(u, pm, orch) ensures s in SessionsFor(u', pm, orch) {
      var p :| p in u.authorizations && u.authorizations[p].pm == pm && u.authorizations[p].orchestrator == orch && u.authorizations[p].session == s;
      assert p in u'.authorizations;
    }
  }

  /** An applied ticket of this ticket session and orchestrator was signed in this session. */
  predicate SignedIn(u: Usage, pm: Id, orchestrator: Id, session: Id) {
    exists p :: p in u.authorizations && u.authorizations[p] == Authorization(session, pm, orchestrator)
  }

  lemma SignersAre(u: Usage, pm: Id, orchestrator: Id, session: Id)
    ensures session in SessionsFor(u, pm, orchestrator) <==> SignedIn(u, pm, orchestrator, session)
  {
    if session in SessionsFor(u, pm, orchestrator) {
      var p :| p in u.authorizations && u.authorizations[p].pm == pm && u.authorizations[p].orchestrator == orchestrator && u.authorizations[p].session == session;
      assert u.authorizations[p] == Authorization(session, pm, orchestrator);
    }
  }

  /**
   * In every reachable state attribution says how many distinct sessions signed for a
   * settlement's ticket session and recipient, whichever feed came first.
   */
  lemma AttributionCounts(ops: seq<Op>, id: LogId)
    requires Valid(EMPTY, ops) && id in Run(EMPTY, ops).escrow.settlements
    ensures var db := Run(EMPTY, ops);
            var row := db.escrow.settlements[id];
            var pm, recipient := row.data.ticket.pm, row.data.recipient;
            && (row.matching == Unmatched <==> forall s :: !SignedIn(db.usage, pm, recipient, s))
            && (forall s :: row.matching == Matched(s) <==> SignedIn(db.usage, pm, recipient, s) && forall t :: SignedIn(db.usage, pm, recipient, t) ==> t == s)
            && (row.matching == Ambiguous <==> exists s, t :: SignedIn(db.usage, pm, recipient, s) && SignedIn(db.usage, pm, recipient, t) && s != t)
  {
    hide *;
    RunKeepsInv(ops);
    var db := Run(EMPTY, ops);
    InvConjuncts(db);
    MatchIs(db, id);
    var row := db.escrow.settlements[id];
    CountsSigners(db.usage, row.data.ticket.pm, row.data.recipient);
  }

  lemma MatchIs(db: DB, id: LogId)
    requires AttributionOk(db) && id in db.escrow.settlements
    ensures var row := db.escrow.settlements[id];
            row.matching == WantedMatch(SessionsFor(db.usage, row.data.ticket.pm, row.data.recipient))
  {
    hide WantedMatch, SessionsFor;
    assert Attributed(db.usage, db.escrow.settlements[id]);
  }

  lemma CountsSigners(u: Usage, pm: Id, orchestrator: Id)
    ensures var m := WantedMatch(SessionsFor(u, pm, orchestrator));
            && (m == Unmatched <==> forall s :: !SignedIn(u, pm, orchestrator, s))
            && (forall s :: m == Matched(s) <==> SignedIn(u, pm, orchestrator, s) && forall t :: SignedIn(u, pm, orchestrator, t) ==> t == s)
            && (m == Ambiguous <==> exists s, t :: SignedIn(u, pm, orchestrator, s) && SignedIn(u, pm, orchestrator, t) && s != t)
  {
    hide WantedMatch, SessionsFor, SignedIn;
    var sessions := SessionsFor(u, pm, orchestrator);
    WantedMatchMeaning(sessions);
    forall s ensures s in sessions <==> SignedIn(u, pm, orchestrator, s) { SignersAre(u, pm, orchestrator, s); }
    forall s ensures sessions == {s} <==> s in sessions && forall t :: t in sessions ==> t == s { }
  }

  /**
   * Whatever is redelivered later, an event id whose record was quarantined, ignored or
   * a repeat is never charged, and one that was applied stays charged by that record alone.
   */
  lemma ChargedByItsFirstRecord(ops: seq<Op>, more: seq<Op>, pos: Position)
    requires Valid(EMPTY, ops + more) && pos in Run(EMPTY, ops).usage.rows && Run(EMPTY, ops).usage.rows[pos].eventId.Some?
    ensures var row := Run(EMPTY, ops).usage.rows[pos];
            var db' := Run(EMPTY, ops + more);
            && pos in db'.usage.rows && db'.usage.rows[pos] == row
            && (UsageKey(row.eventId.value) in db'.books.postings ==>
                  row.status == Applied && AppliedRow(db'.budget, row) && db'.books.postings[UsageKey(row.eventId.value)] == ChargePosting(db'.budget, row))
            && (forall q :: q in db'.usage.rows && db'.usage.rows[q].eventId == row.eventId ==> q == pos)
  {
    RunConcat(EMPTY, ops, more);
    RunKeepsInv(ops);
    hide Inv, Valid, Run, Grows;
    var db, db' := Run(EMPTY, ops), Run(EMPTY, ops + more);
    RunFrom(db, more);
    GrownRow(db, db', pos);
    InvConjuncts(db');
    hide UsageOk, ChargePosting, AppliedRow, EscrowInv, BudgetOk, BooksOk, SummaryOk, SessionsOk, RevokedOnce, KnownHolders, AttributionOk;
    ChargedOnce(db', pos);
    if UsageKey(db'.usage.rows[pos].eventId.value) in db'.books.postings { ChargedRowPosting(db', pos); }
  }

  lemma GrownRow(db: DB, db': DB, pos: Position)
    requires Grows(db, db') && pos in db.usage.rows
    ensures pos in db'.usage.rows && db'.usage.rows[pos] == db.usage.rows[pos]
  {
  }

  lemma ChargedRowPosting(db: DB, pos: Position)
    requires UsageOk(db) && pos in db.usage.rows && db.usage.rows[pos].eventId.Some?
    requires UsageKey(db.usage.rows[pos].eventId.value) in db.books.postings
    ensures AppliedRow(db.budget, db.usage.rows[pos])
    ensures db.books.postings[UsageKey(db.usage.rows[pos].eventId.value)] == ChargePosting(db.budget, db.usage.rows[pos])
  {
    var id := db.usage.rows[pos].eventId.value;
    assert ChargedUnder(db, id);
    var p :| p in db.usage.rows && Pays(db.budget, db.usage.rows[p], id);
    assert p == pos;
    assert RowOk(db, pos) && Charged(db, pos);
  }
}

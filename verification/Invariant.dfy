/** The invariant of the whole database, and what each group of tables needs to keep it. */
module Invariant {
  import opened Results
  import opened Totals
  import opened Blocks
  import opened Tables
  import opened Books
  import opened Summaries
  import opened Attribution
  import opened EscrowLedger
  import opened EscrowSteps
  import opened Management
  import opened Ingestion
  import opened IngestSteps

  /** Keys and sessions belong to existing allocations, and a signer state has one session. */
  ghost predicate SessionsOk(b: Budget) {
    && (forall k :: k in b.apiKeys ==> b.apiKeys[k].allocation in b.allocations)
    && (forall s :: s in b.sessions ==>
          b.sessions[s].apiKey in b.apiKeys && b.apiKeys[b.sessions[s].apiKey].allocation == b.sessions[s].allocation)
    && forall s, t :: s in b.sessions && t in b.sessions && b.sessions[s].stateId == b.sessions[t].stateId ==> s == t
  }

  ghost predicate Inv(db: DB) {
    EscrowInv(db) && BudgetOk(db) && RevokedOnce(db) && UsageOk(db) && SessionsOk(db.budget)
  }

  // ---- The chain's side ----

  predicate ChainKey(k: Key) { k.SnapshotKey? || k.RowKey? }

  ghost predicate ChainSide(db: DB, db': DB) {
    && db'.escrow.snapshots == db.escrow.snapshots && db'.escrow.events == db.escrow.events && db'.escrow.settlements == db.escrow.settlements
    && (forall a: Account :: ChainKind(a.kind) ==> Held(db'.books.balances, a) == Held(db.books.balances, a))
    && (forall k :: ChainKey(k) && k in db.books.postings ==> k in db'.books.postings && db'.books.postings[k] == db.books.postings[k])
    && forall k :: ChainKey(k) && k in db'.books.postings ==> k in db.books.postings
  }

  lemma ChainSideKeeps(db: DB, db': DB)
    requires EscrowInv(db) && ChainSide(db, db') && BooksOk(db'.books) && SummaryOk(db')
    ensures AccountsOk(db') && AgreeOk(db'.escrow) && SnapshotKeysOk(db')
  {
    hide BooksOk, SummaryOk, AttributionOk, Total;
    assert SumsOk(db') by {
      hide LedgerOk, AgreeOk;
      forall kind, owner | ChainKind(kind)
        ensures Held(db'.books.balances, Account(kind, owner, Eth)) == Replayed(db'.escrow, kind, owner)
      {
        assert Held(db.books.balances, Account(kind, owner, Eth)) == Replayed(db.escrow, kind, owner);
      }
    }
    assert LedgerOk(db') by {
      hide SumsOk, AgreeOk;
      forall table, id, orphan, g, leg ensures KeyOk(db'.books.postings, RowOf(db'.escrow, table, id), table, id, orphan, g, leg) {
        LedgerAt(db, table, id, orphan, g, leg);
        assert RowOf(db'.escrow, table, id) == RowOf(db.escrow, table, id);
        assert ChainKey(RowKey(table, orphan, id, g, leg));
      }
    }
    assert AgreeOk(db'.escrow) by {
      hide SumsOk, LedgerOk;
      forall id ensures AgreeAt(db'.escrow, id) { assert AgreeAt(db.escrow, id); }
    }
    forall stream, sender, leg | SnapshotKey(stream, sender, leg) in db'.books.postings
      ensures (stream, sender) in db'.escrow.snapshots
    {
      assert ChainKey(SnapshotKey(stream, sender, leg));
    }
  }

  // ---- The budget's side ----

  ghost predicate BudgetSide(db: DB, db': DB) {
    && db'.budget.grants == db.budget.grants && db'.budget.allocations == db.budget.allocations
    && forall a: Account :: !ChainKind(a.kind) ==> Held(db'.books.balances, a) == Held(db.books.balances, a)
  }

  lemma BudgetSideKeeps(db: DB, db': DB)
    requires BudgetOk(db) && BudgetSide(db, db')
    ensures BudgetOk(db')
  {
    hide Total;
    forall id | id in db'.budget.grants ensures GrantOk(db', id) { assert GrantOk(db, id); }
    forall id | id in db'.budget.allocations ensures AllocationOk(db', id) { assert AllocationOk(db, id); }
  }

  // ---- The usage side ----

  /** Usage rows, their charges and the spent balances are untouched. */
  ghost predicate UsageSide(db: DB, db': DB) {
    && db'.usage.rows == db.usage.rows && db'.usage.next == db.usage.next && db'.usage.authorizations == db.usage.authorizations
    && SameBindings(db.budget, db'.budget)
    && (forall a: Account :: a.kind == AllocationSpent ==> Held(db'.books.balances, a) == Held(db.books.balances, a))
    && (forall id :: UsageKey(id) in db.books.postings ==>
          UsageKey(id) in db'.books.postings && db'.books.postings[UsageKey(id)] == db.books.postings[UsageKey(id)])
    && forall id :: UsageKey(id) in db'.books.postings ==> UsageKey(id) in db.books.postings
  }

  lemma UsageSideKeeps(db: DB, db': DB)
    requires UsageOk(db) && UsageSide(db, db') && KnownHolders(db)
    ensures UsageOk(db')
  {
    hide OffsetsOk, IdsOk, Total;
    assert OffsetsOk(db'.usage) by { OffsetsFrame(db.usage, db'.usage); }
    assert IdsOk(db'.usage) by { IdsFrame(db.usage, db'.usage); }
    assert RowsOk(db') by { hide ChargesOk, SpentOk; RowsFrame(db, db'); }
    assert ChargesOk(db') by { hide SpentOk; ChargesFrame(db, db'); }
    assert SpentOk(db') by { hide ChargesOk; SpentFrame(db, db'); }
  }

  lemma OffsetsFrame(u: Usage, u': Usage)
    requires OffsetsOk(u) && u'.rows == u.rows && u'.next == u.next
    ensures OffsetsOk(u')
  {
    forall p ensures NextOf(u', p) >= 0 { assert NextOf(u', p) == NextOf(u, p); }
  }

  lemma IdsFrame(u: Usage, u': Usage)
    requires IdsOk(u) && u'.rows == u.rows
    ensures IdsOk(u')
  {
  }

  lemma RowsFrame(db: DB, db': DB)
    requires RowsOk(db) && UsageSide(db, db')
    ensures RowsOk(db')
  {
    forall p | p in db'.usage.rows ensures RowOk(db', p) { assert RowOk(db, p); }
  }

  lemma ChargesFrame(db: DB, db': DB)
    requires RowsOk(db) && ChargesOk(db) && UsageSide(db, db')
    ensures ChargesOk(db')
  {
    forall p | p in db'.usage.rows ensures Charged(db', p) {
      assert Charged(db, p) && RowOk(db, p);
      if db.usage.rows[p].status == Applied { SameFee(db.budget, db'.budget, db.usage.rows[p]); }
    }
    forall id | UsageKey(id) in db'.books.postings ensures ChargedUnder(db', id) {
      StillCharged(db, db', id);
    }
  }

  /** An allocation nobody has heard of has spent nothing. */
  lemma SpentFrame(db: DB, db': DB)
    requires RowsOk(db) && SpentOk(db) && UsageSide(db, db') && KnownHolders(db)
    ensures SpentOk(db')
  {
    hide Total;
    forall id | id in db'.budget.allocations
      ensures Balance(db', AllocationSpent, id, db'.budget.allocations[id].currency) == Total(db'.usage.rows, FeePart(db'.budget, id))
    {
      FeesElsewhere(db, db', id);
      if id !in db.budget.allocations {
        var w := FeePart(db.budget, id);
        forall p | p in db.usage.rows ensures w(p, db.usage.rows[p]) == 0 { assert RowOk(db, p); }
        AllZero(db.usage.rows, w);
        assert Held(db.books.balances, Account(AllocationSpent, id, db'.budget.allocations[id].currency)) == 0;
      }
    }
  }

  // ---- A chain write keeps everything ----

  lemma ChainWriteKeeps(db: DB, db': DB)
    requires Inv(db) && EscrowInv(db') && BudgetFrame(db, db')
    requires forall k :: k in db.books.postings ==> k in db'.books.postings && db'.books.postings[k] == db.books.postings[k]
    requires forall k :: k in db'.books.postings && k !in db.books.postings ==> ChainKey(k)
    ensures Inv(db')
  {
    hide EscrowInv, BudgetOk, UsageOk, Held, KnownHolders;
    BudgetSideKeeps(db, db');
    assert KnownHolders(db) by { HoldersOf(db); }
    UsageSideKeeps(db, db');
  }

  lemma HoldersOf(db: DB)
    requires BudgetOk(db)
    ensures KnownHolders(db)
  {
  }

  // ---- One Kafka record ----

  lemma OtherSessions(u: Usage, u': Usage, pos: Position, a: Authorization, pm: Id, orch: Id)
    requires pos !in u.authorizations && u'.authorizations == u.authorizations[pos := a]
    ensures pm != a.pm || orch != a.orchestrator ==> SessionsFor(u', pm, orch) == SessionsFor(u, pm, orch)
    ensures SessionsFor(u, pm, orch) <= SessionsFor(u', pm, orch)
  {
    forall s | s in SessionsFor(u, pm, orch) ensures s in SessionsFor(u', pm, orch) {
      var p :| p in u.authorizations && u.authorizations[p].pm == pm && u.authorizations[p].orchestrator == orch && u.authorizations[p].session == s;
      assert p in u'.authorizations && u'.authorizations[p] == u.authorizations[p];
    }
    if pm != a.pm || orch != a.orchestrator {
      forall s | s in SessionsFor(u', pm, orch) ensures s in SessionsFor(u, pm, orch) {
        var p :| p in u'.authorizations && u'.authorizations[p].pm == pm && u'.authorizations[p].orchestrator == orch && u'.authorizations[p].session == s;
        assert p in u.authorizations && u.authorizations[p] == u'.authorizations[p];
      }
    }
  }

  /** A record that is not applied adds its row and moves the checkpoint, nothing else. */
  predicate Audited(db: DB, db': DB, pos: Position, row: UsageRow) {
    && db'.books == db.books && db'.budget == db.budget && db'.escrow == db.escrow
    && db'.usage == db.usage.(rows := db.usage.rows[pos := row], next := db.usage.next[pos.partition := pos.offset + 1])
  }

  lemma PlainRecordShape(db: DB, pos: Position, raw: Payload)
    requires SummaryOk(db) && ValidPosition(pos) && pos.offset == NextOf(db.usage, pos.partition) && pos !in db.usage.rows
    requires RowFor(db, raw).status != Applied
    ensures var r := Ingest(db, pos, raw);
            r.Ok? && SummaryOk(r.value) && Audited(db, r.value, pos, RowFor(db, raw))
  {
    hide SummaryOk, RowFor, ChangeCount, ApplyRow, NextOf;
    var row := RowFor(db, raw);
    UsageRowWritten(db, pos, row);
    PlainSummary(db, Ingest(db, pos, raw).value, pos, row);
  }

  lemma PlainRecordKeeps(db: DB, pos: Position, raw: Payload)
    requires Inv(db) && ValidPosition(pos) && pos.offset == NextOf(db.usage, pos.partition) && RowFor(db, raw).status != Applied
    ensures var r := Ingest(db, pos, raw);
            r.Ok? && Inv(r.value) && Audited(db, r.value, pos, RowFor(db, raw))
  {
    NotYetRecorded(db, pos);
    RowForMeaning(db, raw);
    JudgeMeaning(db, raw);
    PlainRecordShape(db, pos, raw);
    hide Ingest, RowFor, Judge, Known;
    AuditedKeeps(db, Ingest(db, pos, raw).value, pos, RowFor(db, raw));
  }

  lemma AuditedKeeps(db: DB, db': DB, pos: Position, row: UsageRow)
    requires Inv(db) && SummaryOk(db') && Audited(db, db', pos, row) && row.status != Applied
    requires pos !in db.usage.rows && pos.offset == NextOf(db.usage, pos.partition)
    requires row.eventId.Some? ==> !row.raw.Malformed? && row.raw.id == row.eventId.value && !Known(db.usage, row.eventId.value)
    ensures Inv(db')
  {
    assert EscrowInv(db') by {
      hide UsageOk, BudgetOk, SummaryOk, BooksOk, SumsOk, LedgerOk, AgreeOk;
      ChainSideKeeps(db, db');
      SameAttribution(db, db');
    }
    assert UsageOk(db') by {
      hide EscrowInv, BudgetOk, OffsetsOk, IdsOk, RowsOk, ChargesOk, SpentOk;
      OffsetsStep(db.usage, db'.usage, pos, row);
      IdsStep(db.usage, db'.usage, pos, row);
      RowsStep(db, db', pos, row);
      PlainRowStep(db, db', pos, row);
    }
    hide EscrowInv, UsageOk, SessionsOk, KnownHolders;
    BudgetSideKeeps(db, db');
  }

  lemma PlainSummary(db: DB, db': DB, pos: Position, row: UsageRow)
    requires var db1 := WithUsageRow(db, pos, row);
             var r := if row.status == Quarantined then ChangeCount(db1.summary, Quarantines(row.reason), 1) else Ok(db1.summary);
             r.Ok? && SummaryOk(db1.(summary := r.value)) && db' == SetNext(db1.(summary := r.value), pos.partition, pos.offset + 1)
    ensures SummaryOk(db')
  {
    hide SummaryOk, ChangeCount;
    var db1 := WithUsageRow(db, pos, row);
    var r := if row.status == Quarantined then ChangeCount(db1.summary, Quarantines(row.reason), 1) else Ok(db1.summary);
    SummaryFrame(db1.(summary := r.value), db');
  }

  lemma SameAttribution(db: DB, db': DB)
    requires AttributionOk(db) && db'.escrow.settlements == db.escrow.settlements && db'.usage.authorizations == db.usage.authorizations
    ensures AttributionOk(db')
  {
    hide WantedMatch;
    forall id | id in db'.escrow.settlements ensures Attributed(db'.usage, db'.escrow.settlements[id]) {
      var row := db.escrow.settlements[id];
      assert Attributed(db.usage, row);
      assert SessionsFor(db'.usage, row.data.ticket.pm, row.data.recipient) == SessionsFor(db.usage, row.data.ticket.pm, row.data.recipient);
    }
  }

  lemma NotYetRecorded(db: DB, pos: Position)
    requires OffsetsOk(db.usage) && pos.offset == NextOf(db.usage, pos.partition)
    ensures pos !in db.usage.rows
  {
  }
}

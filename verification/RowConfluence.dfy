/**
 * When interleavings agree on every single row: which of two copies of an event is
 * applied and which is a duplicate is decided by the order in which their partitions are
 * read (internal/store/ingest.go:82-104), so exactly events shared by two partitions matter.
 */
module RowConfluence {
  import opened Results
  import opened Blocks
  import opened Tables
  import opened Ingestion
  import opened IngestSteps
  import opened Invariant
  import opened IngestKeeps
  import opened ManagementKeeps
  import opened Confluence

  // ---- What is delivered, and when ids meet ----

  /** The k-th record of a partition's log has its turn, at a position the store accepts. */
  predicate Delivered(base: map<Partition, int>, logs: Logs, turns: seq<Partition>, p: Partition, k: int) {
    p in logs && 0 <= k < |logs[p]| && k < multiset(turns)[p] && ValidPosition(Position(p, NextIn(base, p) + k))
  }

  /** Two delivered well-formed records of different partitions have this id. */
  predicate Meet(base: map<Partition, int>, logs: Logs, turns: seq<Partition>, p: Partition, i: int, q: Partition, j: int) {
    && p != q && Delivered(base, logs, turns, p, i) && Delivered(base, logs, turns, q, j)
    && !logs[p][i].Malformed? && !logs[q][j].Malformed? && logs[p][i].id == logs[q][j].id
  }

  /** No event that is new to the database is delivered by two partitions. */
  ghost predicate NoneShared(db: DB, logs: Logs, turns: seq<Partition>) {
    forall p, i, q, j :: Meet(db.usage.next, logs, turns, p, i, q, j) ==> Known(db.usage, logs[p][i].id)
  }

  // ---- One delivery ----

  lemma NewIdIsRecorded(db: DB, raw: Payload)
    requires !raw.Malformed? && !Known(db.usage, raw.id)
    ensures RowFor(db, raw).eventId == Some(raw.id)
  {
    hide Known, TicketFault;
  }

  lemma ChargedShape(db: DB, db': DB, pos: Position, row: UsageRow)
    requires ChargeRecorded(db, db', pos, row)
    ensures db'.usage.rows == db.usage.rows[pos := row] && db'.usage.next == db.usage.next[pos.partition := pos.offset + 1]
    ensures OnlyStatus(db.budget, db'.budget)
  {
    hide OnlyMatches, RowFee, ChargePosting;
  }

  lemma AuditedShape(db: DB, db': DB, pos: Position, row: UsageRow)
    requires Audited(db, db', pos, row)
    ensures db'.usage.rows == db.usage.rows[pos := row] && db'.usage.next == db.usage.next[pos.partition := pos.offset + 1]
    ensures OnlyStatus(db.budget, db'.budget)
  {
  }

  /** There is a record to deliver, at a position the store accepts. */
  predicate Ready(db: DB, base: map<Partition, int>, logs: Logs, p: Partition) {
    NextRecord(logs, base, db.usage.next, p).Some? && ValidPosition(Position(p, NextOf(db.usage, p)))
  }

  lemma DeliverOne(db: DB, base: map<Partition, int>, logs: Logs, p: Partition)
    requires Inv(db)
    ensures Inv(Deliver(db, base, logs, p))
    ensures !Ready(db, base, logs, p) ==> Deliver(db, base, logs, p) == db
    ensures Ready(db, base, logs, p) ==>
              var raw := NextRecord(logs, base, db.usage.next, p).value;
              var pos := Position(p, NextOf(db.usage, p));
              var db' := Deliver(db, base, logs, p);
              && pos !in db.usage.rows && db'.usage.rows == db.usage.rows[pos := RowFor(db, raw)]
              && db'.usage.next == db.usage.next[p := pos.offset + 1] && OnlyStatus(db.budget, db'.budget)
  {
    hide *;
    DeliverShape(db, base, logs, p);
    ReadyMeans(db, base, logs, p);
    var raw := NextRecord(logs, base, db.usage.next, p);
    if raw.Some? {
      var pos := Position(p, NextOf(db.usage, p));
      IngestKeepsInv(db, pos, raw.value);
      if Ready(db, base, logs, p) {
        InvConjuncts(db);
        FreshPosition(db, pos);
        var db' := Ingest(db, pos, raw.value).value;
        if RowFor(db, raw.value).status == Applied {
          ChargedShape(db, db', pos, RowFor(db, raw.value));
        } else {
          AuditedShape(db, db', pos, RowFor(db, raw.value));
        }
      } else {
        BadPosition(db, pos, raw.value);
      }
    }
  }

  lemma ReadyMeans(db: DB, base: map<Partition, int>, logs: Logs, p: Partition)
    ensures Ready(db, base, logs, p) <==> NextRecord(logs, base, db.usage.next, p).Some? && ValidPosition(Position(p, NextOf(db.usage, p)))
  {
    hide NextRecord, ValidPosition, NextOf;
  }

  // ---- What any interleaving leaves ----

  lemma StatusTwice(b0: Budget, b1: Budget, b2: Budget)
    requires OnlyStatus(b0, b1) && OnlyStatus(b1, b2)
    ensures OnlyStatus(b0, b2)
  {
  }

  ghost predicate RowsExtend(u: Usage, u': Usage) {
    forall pos :: pos in u.rows ==> pos in u'.rows && u'.rows[pos] == u.rows[pos]
  }

  /** A row added since holds its log's record, whose id is now known. */
  ghost predicate FromLogs(u: Usage, base: map<Partition, int>, logs: Logs, pos: Position)
    requires pos in u.rows
  {
    var k := pos.offset - NextIn(base, pos.partition);
    && pos.partition in logs && 0 <= k < |logs[pos.partition]| && u.rows[pos].raw == logs[pos.partition][k]
    && (!u.rows[pos].raw.Malformed? ==> Known(u, u.rows[pos].raw.id))
  }

  ghost predicate AddedFromLogs(u: Usage, u': Usage, base: map<Partition, int>, logs: Logs) {
    forall pos :: pos in u'.rows && pos !in u.rows ==> FromLogs(u', base, logs, pos)
  }

  /** Exactly the delivered records lie between the two checkpoints. */
  ghost predicate CountsTurns(u: Usage, base: map<Partition, int>, logs: Logs, turns: seq<Partition>) {
    forall p, k :: Delivered(base, logs, turns, p, k) <==> 0 <= k < NextOf(u, p) - NextIn(base, p)
  }

  ghost predicate Reached(db: DB, db': DB, logs: Logs, turns: seq<Partition>) {
    && Inv(db') && OnlyStatus(db.budget, db'.budget) && RowsExtend(db.usage, db'.usage)
    && AddedFromLogs(db.usage, db'.usage, db.usage.next, logs) && CountsTurns(db'.usage, db.usage.next, logs, turns)
  }

  lemma KnownGrows(u: Usage, u': Usage, id: Id)
    requires RowsExtend(u, u') && Known(u, id)
    ensures Known(u', id)
  {
    var p :| p in u.rows && u.rows[p].eventId == Some(id);
    assert p in u'.rows && u'.rows[p].eventId == Some(id);
  }

  lemma RowAdded(db: DB, db': DB, base: map<Partition, int>, logs: Logs, p: Partition)
    requires Ready(db, base, logs, p)
    requires var raw := NextRecord(logs, base, db.usage.next, p).value;
             var pos := Position(p, NextOf(db.usage, p));
             pos !in db.usage.rows && db'.usage.rows == db.usage.rows[pos := RowFor(db, raw)]
    ensures RowsExtend(db.usage, db'.usage) && FromLogs(db'.usage, base, logs, Position(p, NextOf(db.usage, p)))
  {
    var raw := NextRecord(logs, base, db.usage.next, p).value;
    var pos := Position(p, NextOf(db.usage, p));
    SameNextOf(db.usage, p);
    RowForMeaning(db, raw);
    hide RowFor, Judge, AppliedRow, RowFee, Known;
    if !raw.Malformed? {
      if Known(db.usage, raw.id) {
        KnownGrows(db.usage, db'.usage, raw.id);
      } else {
        NewIdIsRecorded(db, raw);
        KnownAt(db'.usage, pos, raw.id);
      }
    }
  }

  lemma KnownAt(u: Usage, pos: Position, id: Id)
    requires pos in u.rows && u.rows[pos].eventId == Some(id)
    ensures Known(u, id)
  {
  }

  lemma AddedMore(u0: Usage, u: Usage, u': Usage, base: map<Partition, int>, logs: Logs, pos: Position, row: UsageRow)
    requires RowsExtend(u0, u) && AddedFromLogs(u0, u, base, logs) && RowsExtend(u, u') && u'.rows == u.rows[pos := row] && FromLogs(u', base, logs, pos)
    ensures RowsExtend(u0, u') && AddedFromLogs(u0, u', base, logs)
  {
    hide Known;
    forall x | x in u'.rows && x !in u0.rows ensures FromLogs(u', base, logs, x) {
      if x != pos {
        assert FromLogs(u, base, logs, x);
        if !u.rows[x].raw.Malformed? { KnownGrows(u, u', u.rows[x].raw.id); }
      }
    }
  }

  lemma {:induction false} CountsNothing(u: Usage, base: map<Partition, int>, logs: Logs)
    requires u.next == base
    ensures CountsTurns(u, base, logs, [])
  {
    forall p, k ensures Delivered(base, logs, [], p, k) <==> 0 <= k < NextOf(u, p) - NextIn(base, p) { SameNextOf(u, p); }
  }

  lemma OneMoreTurn(turns: seq<Partition>, q: Partition, p: Partition)
    ensures multiset(turns + [q])[p] == multiset(turns)[p] + if p == q then 1 else 0
  {
    assert multiset(turns + [q]) == multiset(turns) + multiset{q};
  }

  /** The partition whose turn it is moves on exactly when the record of that turn is deliverable. */
  lemma CountsStep(u: Usage, u': Usage, base: map<Partition, int>, logs: Logs, turns: seq<Partition>, q: Partition, ready: bool)
    requires CountsTurns(u, base, logs, turns) && NextIn(base, q) >= 0 && NextIn(base, q) <= NextOf(u, q)
    requires ready <==> NextRecord(logs, base, u.next, q).Some? && ValidPosition(Position(q, NextOf(u, q)))
    requires u'.next == if ready then u.next[q := NextOf(u, q) + 1] else u.next
    ensures CountsTurns(u', base, logs, turns + [q])
  {
    var c, n := NextOf(u, q) - NextIn(base, q), multiset(turns)[q];
    assert Delivered(base, logs, turns, q, c) <==> 0 <= c < NextOf(u, q) - NextIn(base, q);
    if c > 0 { assert Delivered(base, logs, turns, q, c - 1) <==> 0 <= c - 1 < NextOf(u, q) - NextIn(base, q); }
    forall p, k ensures Delivered(base, logs, turns + [q], p, k) <==> 0 <= k < NextOf(u', p) - NextIn(base, p) {
      OneMoreTurn(turns, q, p);
      assert Delivered(base, logs, turns, p, k) <==> 0 <= k < NextOf(u, p) - NextIn(base, p);
    }
  }

  lemma ReachedParts(db: DB, db': DB, logs: Logs, turns: seq<Partition>)
    requires Reached(db, db', logs, turns)
    ensures Inv(db') && OnlyStatus(db.budget, db'.budget) && RowsExtend(db.usage, db'.usage)
    ensures AddedFromLogs(db.usage, db'.usage, db.usage.next, logs) && CountsTurns(db'.usage, db.usage.next, logs, turns)
  {
    hide Inv, OnlyStatus, RowsExtend, AddedFromLogs, CountsTurns;
  }

  lemma PartsReached(db: DB, db': DB, logs: Logs, turns: seq<Partition>)
    requires Inv(db') && OnlyStatus(db.budget, db'.budget) && RowsExtend(db.usage, db'.usage)
    requires AddedFromLogs(db.usage, db'.usage, db.usage.next, logs) && CountsTurns(db'.usage, db.usage.next, logs, turns)
    ensures Reached(db, db', logs, turns)
  {
    hide Inv, OnlyStatus, RowsExtend, AddedFromLogs, CountsTurns;
  }

  lemma ReachedNothing(db: DB, logs: Logs)
    requires Inv(db)
    ensures Reached(db, db, logs, [])
  {
    CountsNothing(db.usage, db.usage.next, logs);
    hide Inv, CountsTurns;
  }

  lemma CheckpointsRise(db: DB, db': DB, logs: Logs, turns: seq<Partition>, p: Partition)
    requires Inv(db) && Reached(db, db', logs, turns)
    ensures 0 <= NextIn(db.usage.next, p) <= NextOf(db'.usage, p)
  {
    hide *;
    ReachedParts(db, db', logs, turns);
    NextNotBelowZero(db, p);
    NextNotBelowZero(db', p);
    SameNextOf(db.usage, p);
    OffsetsHold(db);
    OffsetsHold(db');
    RowsBelow(db, db', p);
  }

  lemma OffsetsHold(db: DB)
    requires Inv(db)
    ensures OffsetsOk(db.usage) && RowsOk(db)
  {
    InvConjuncts(db);
    hide Inv, OffsetsOk, RowsOk;
  }

  /** A checkpoint never falls while rows stay. */
  lemma RowsBelow(db: DB, db': DB, p: Partition)
    requires OffsetsOk(db.usage) && OffsetsOk(db'.usage) && RowsExtend(db.usage, db'.usage)
    ensures NextOf(db.usage, p) <= NextOf(db'.usage, p)
  {
    hide NextOf;
    var n := NextOf(db.usage, p);
    if n > 0 {
      assert Position(p, n - 1) in db.usage.rows;
      assert Position(p, n - 1) in db'.usage.rows;
    } else {
      assert NextOf(db'.usage, p) >= 0;
    }
  }

  lemma CountsAt(u: Usage, base: map<Partition, int>, logs: Logs, turns: seq<Partition>, p: Partition, k: int)
    requires CountsTurns(u, base, logs, turns)
    ensures Delivered(base, logs, turns, p, k) <==> 0 <= k < NextOf(u, p) - NextIn(base, p)
  {
    hide Delivered, NextOf, NextIn;
  }

  lemma RowAt(u: Usage, pos: Position)
    requires OffsetsOk(u)
    ensures pos in u.rows <==> 0 <= pos.offset < NextOf(u, pos.partition)
  {
    hide NextOf;
  }

  lemma AddedAt(u: Usage, u': Usage, base: map<Partition, int>, logs: Logs, pos: Position)
    requires AddedFromLogs(u, u', base, logs) && pos in u'.rows && pos !in u.rows
    ensures FromLogs(u', base, logs, pos)
  {
    hide FromLogs;
  }

  lemma FromLogsMeans(u: Usage, base: map<Partition, int>, logs: Logs, pos: Position)
    requires pos in u.rows && FromLogs(u, base, logs, pos)
    ensures var k := pos.offset - NextIn(base, pos.partition);
            && pos.partition in logs && 0 <= k < |logs[pos.partition]| && u.rows[pos].raw == logs[pos.partition][k]
            && (!u.rows[pos].raw.Malformed? ==> Known(u, u.rows[pos].raw.id))
  {
    hide Known, NextIn;
  }

  lemma DeliveredMeans(base: map<Partition, int>, logs: Logs, turns: seq<Partition>, p: Partition, k: int)
    requires Delivered(base, logs, turns, p, k)
    ensures p in logs && 0 <= k < |logs[p]| && k < multiset(turns)[p]
  {
    hide ValidPosition;
  }

  lemma ReachedStep(db: DB, db1: DB, logs: Logs, turns: seq<Partition>, q: Partition)
    requires Inv(db) && Reached(db, db1, logs, turns)
    ensures Reached(db, Deliver(db1, db.usage.next, logs, q), logs, turns + [q])
  {
    hide *;
    var base := db.usage.next;
    var db2 := Deliver(db1, base, logs, q);
    ReachedParts(db, db1, logs, turns);
    CheckpointsRise(db, db1, logs, turns, q);
    DeliverOne(db1, base, logs, q);
    ReadyMeans(db1, base, logs, q);
    if Ready(db1, base, logs, q) {
      var raw := NextRecord(logs, base, db1.usage.next, q).value;
      var pos := Position(q, NextOf(db1.usage, q));
      RowAdded(db1, db2, base, logs, q);
      AddedMore(db.usage, db1.usage, db2.usage, base, logs, pos, RowFor(db1, raw));
      StatusTwice(db.budget, db1.budget, db2.budget);
    }
    CountsStep(db1.usage, db2.usage, base, logs, turns, q, Ready(db1, base, logs, q));
    PartsReached(db, db2, logs, turns + [q]);
  }

  lemma {:induction false} DeliverAllReaches(db: DB, logs: Logs, turns: seq<Partition>)
    requires Inv(db)
    ensures Reached(db, DeliverAll(db, db.usage.next, logs, turns), logs, turns)
  {
    hide Inv, Reached, Deliver;
    if turns == [] {
      ReachedNothing(db, logs);
    } else {
      var front, last := turns[..|turns| - 1], turns[|turns| - 1];
      assert turns == front + [last];
      DeliverAllReaches(db, logs, front);
      ReachedStep(db, DeliverAll(db, db.usage.next, logs, front), logs, front, last);
    }
  }

  // ---- The row of a record ----

  /** The row of a second copy. */
  function CopyRow(raw: Payload): UsageRow {
    RowOfVerdict(Verdict(Duplicate, NoReason, None), raw)
  }

  /** A new event is a duplicate exactly when its id has been recorded since; other records get the row they would have got at once. */
  lemma RowLater(db: DB, db1: DB, logs: Logs, turns: seq<Partition>, raw: Payload)
    requires Inv(db) && Reached(db, db1, logs, turns) && OnePayloadPerId(logs)
    requires exists p, k :: p in logs && 0 <= k < |logs[p]| && logs[p][k] == raw
    ensures RowFor(db1, raw) ==
            if !raw.Malformed? && !Known(db.usage, raw.id) && Known(db1.usage, raw.id) then CopyRow(raw) else RowFor(db, raw)
  {
    hide *;
    ReachedParts(db, db1, logs, turns);
    IdsOf(db);
    IdsOf(db1);
    OffsetsHold(db1);
    RowsHaveIds(db1);
    var seen := HasSeen(db.usage);
    var seen1 := HasSeen(db1.usage);
    RowFromIs(db, seen, raw);
    RowFromIs(db1, seen1, raw);
    SeenMeans(db.usage, seen, raw);
    SeenMeans(db1.usage, seen1, raw);
    if !raw.Malformed? && Known(db1.usage, raw.id) {
      if Known(db.usage, raw.id) {
        KnownGrows(db.usage, db1.usage, raw.id);
        SameFirst(db.usage, db1.usage, seen, seen1, raw.id);
        SameRowFrom(db.budget, db1.budget, seen, seen1, raw);
      } else {
        FirstIsCopy(db.usage, db1.usage, seen1, db.usage.next, logs, raw);
        RowOfCopy(db1.budget, seen1, raw);
      }
    } else if !raw.Malformed? {
      if Known(db.usage, raw.id) { KnownGrows(db.usage, db1.usage, raw.id); }
      SameRowFrom(db.budget, db1.budget, seen, seen1, raw);
    } else {
      SameRowFrom(db.budget, db1.budget, seen, seen1, raw);
    }
  }

  lemma SeenMeans(u: Usage, seen: map<Id, Payload>, raw: Payload)
    requires SeenOk(u, seen)
    ensures !raw.Malformed? ==> (raw.id in seen <==> Known(u, raw.id))
  {
    hide Known;
  }

  lemma SameFirst(u: Usage, u1: Usage, seen: map<Id, Payload>, seen1: map<Id, Payload>, id: Id)
    requires SeenOk(u, seen) && SeenOk(u1, seen1) && RowsExtend(u, u1) && Known(u, id) && Known(u1, id)
    ensures id in seen && id in seen1 && seen[id] == seen1[id]
  {
    var p :| p in u.rows && u.rows[p].eventId == Some(id);
    assert p in u1.rows && u1.rows[p] == u.rows[p];
  }

  ghost predicate IdsOfRows(u: Usage) {
    forall pos :: pos in u.rows && u.rows[pos].eventId.Some? ==> !u.rows[pos].raw.Malformed? && u.rows[pos].raw.id == u.rows[pos].eventId.value
  }

  lemma RowsHaveIds(db: DB)
    requires RowsOk(db)
    ensures IdsOfRows(db.usage)
  {
    forall pos | pos in db.usage.rows && db.usage.rows[pos].eventId.Some?
      ensures !db.usage.rows[pos].raw.Malformed? && db.usage.rows[pos].raw.id == db.usage.rows[pos].eventId.value
    {
      assert RowOk(db, pos);
    }
  }

  /** The row that recorded a new id is of the logs. */
  lemma FirstRow(u: Usage, u1: Usage, base: map<Partition, int>, logs: Logs, id: Id) returns (pos: Position)
    requires RowsExtend(u, u1) && AddedFromLogs(u, u1, base, logs) && !Known(u, id) && Known(u1, id)
    ensures pos in u1.rows && u1.rows[pos].eventId == Some(id) && pos !in u.rows && FromLogs(u1, base, logs, pos)
  {
    pos :| pos in u1.rows && u1.rows[pos].eventId == Some(id);
    if pos in u.rows { KnownAt(u, pos, id); }
  }

  /** An id recorded since was recorded with this very payload. */
  lemma FirstIsCopy(u: Usage, u1: Usage, seen1: map<Id, Payload>, base: map<Partition, int>, logs: Logs, raw: Payload)
    requires RowsExtend(u, u1) && SeenOk(u1, seen1) && AddedFromLogs(u, u1, base, logs) && OnePayloadPerId(logs) && IdsOfRows(u1)
    requires !raw.Malformed? && !Known(u, raw.id) && Known(u1, raw.id)
    requires exists p, k :: p in logs && 0 <= k < |logs[p]| && logs[p][k] == raw
    ensures raw.id in seen1 && seen1[raw.id] == raw
  {
    var pos := FirstRow(u, u1, base, logs, raw.id);
    hide Known;
    var p, k :| p in logs && 0 <= k < |logs[p]| && logs[p][k] == raw;
    assert SameEvent(logs[p][k], logs[pos.partition][pos.offset - NextIn(base, pos.partition)]);
  }

  lemma RowOfCopy(b: Budget, seen: map<Id, Payload>, raw: Payload)
    requires !raw.Malformed? && raw.id in seen && seen[raw.id] == raw
    ensures RowFrom(b, seen, raw) == CopyRow(raw)
  {
    hide TicketFault;
  }

  /** The id of a delivered record is known. */
  lemma DeliveredIsKnown(db: DB, db1: DB, logs: Logs, turns: seq<Partition>, p: Partition, i: int)
    requires Inv(db) && Reached(db, db1, logs, turns) && Delivered(db.usage.next, logs, turns, p, i) && !logs[p][i].Malformed?
    ensures Known(db1.usage, logs[p][i].id)
  {
    hide *;
    var base := db.usage.next;
    var at := Position(p, NextIn(base, p) + i);
    ReachedParts(db, db1, logs, turns);
    OffsetsHold(db1);
    OffsetsHold(db);
    SameNextOf(db.usage, p);
    NextNotBelowZero(db, p);
    DeliveredMeans(base, logs, turns, p, i);
    CountsAt(db1.usage, base, logs, turns, p, i);
    RowAt(db1.usage, at);
    RowAt(db.usage, at);
    AddedAt(db.usage, db1.usage, base, logs, at);
    FromLogsMeans(db1.usage, base, logs, at);
  }

  // ---- Where no event is shared, the row follows from the partition's own log ----

  /** An earlier record of the partition has the id of the k-th. */
  predicate SeenInLog(logs: Logs, p: Partition, k: int)
    requires p in logs && 0 <= k < |logs[p]|
  {
    !logs[p][k].Malformed? && exists i :: 0 <= i < k && !logs[p][i].Malformed? && logs[p][i].id == logs[p][k].id
  }

  ghost function Expected(db: DB, logs: Logs, p: Partition, k: int): UsageRow
    requires p in logs && 0 <= k < |logs[p]|
  {
    var raw := logs[p][k];
    if !raw.Malformed? && !Known(db.usage, raw.id) && SeenInLog(logs, p, k) then CopyRow(raw) else RowFor(db, raw)
  }

  ghost predicate AsExpected(db: DB, u: Usage, logs: Logs, pos: Position) {
    var k := pos.offset - NextIn(db.usage.next, pos.partition);
    pos.partition in logs && 0 <= k < |logs[pos.partition]| && pos in u.rows && u.rows[pos] == Expected(db, logs, pos.partition, k)
  }

  ghost predicate AllExpected(db: DB, u: Usage, logs: Logs) {
    forall pos :: pos in u.rows && pos !in db.usage.rows ==> AsExpected(db, u, logs, pos)
  }

  /** When its turn comes, the id of a new event is known exactly if its own log has had it. */
  lemma KnownFromLog(db: DB, db1: DB, logs: Logs, turns: seq<Partition>, p: Partition, k: int)
    requires Inv(db) && Reached(db, db1, logs, turns) && NoneShared(db, logs, turns + [p])
    requires Delivered(db.usage.next, logs, turns + [p], p, k) && k == NextOf(db1.usage, p) - NextIn(db.usage.next, p)
    requires !logs[p][k].Malformed? && !Known(db.usage, logs[p][k].id)
    ensures Known(db1.usage, logs[p][k].id) <==> SeenInLog(logs, p, k)
  {
    var base, id := db.usage.next, logs[p][k].id;
    ReachedParts(db, db1, logs, turns);
    hide *;
    if Known(db1.usage, id) { FirstIsInLog(db, db1, logs, turns, p, k); }
    if SeenInLog(logs, p, k) {
      var i := EarlierInLog(logs, p, k);
      EarlierDelivered(db1.usage, base, logs, turns, p, i, k);
      DeliveredIsKnown(db, db1, logs, turns, p, i);
    }
  }

  lemma EarlierInLog(logs: Logs, p: Partition, k: int) returns (i: int)
    requires p in logs && 0 <= k < |logs[p]| && SeenInLog(logs, p, k)
    ensures 0 <= i < k && !logs[p][i].Malformed? && !logs[p][k].Malformed? && logs[p][i].id == logs[p][k].id
  {
    i :| 0 <= i < k && !logs[p][i].Malformed? && logs[p][i].id == logs[p][k].id;
  }

  lemma EarlierDelivered(u: Usage, base: map<Partition, int>, logs: Logs, turns: seq<Partition>, p: Partition, i: int, k: int)
    requires CountsTurns(u, base, logs, turns) && 0 <= i < k == NextOf(u, p) - NextIn(base, p)
    ensures Delivered(base, logs, turns, p, i)
  {
    hide NextOf, NextIn, ValidPosition;
  }

  lemma FirstIsInLog(db: DB, db1: DB, logs: Logs, turns: seq<Partition>, p: Partition, k: int)
    requires Inv(db) && Reached(db, db1, logs, turns) && NoneShared(db, logs, turns + [p])
    requires Delivered(db.usage.next, logs, turns + [p], p, k) && k == NextOf(db1.usage, p) - NextIn(db.usage.next, p)
    requires !logs[p][k].Malformed? && !Known(db.usage, logs[p][k].id) && Known(db1.usage, logs[p][k].id)
    ensures SeenInLog(logs, p, k)
  {
    hide *;
    DeliveredMeans(db.usage.next, logs, turns + [p], p, k);
    var base, id := db.usage.next, logs[p][k].id;
    ReachedParts(db, db1, logs, turns);
    OffsetsHold(db1);
    RowsHaveIds(db1);
    var pos := FirstRow(db.usage, db1.usage, base, logs, id);
    FromLogsMeans(db1.usage, base, logs, pos);
    RowAt(db1.usage, pos);
    RecordedId(db1.usage, pos);
    var q, j := pos.partition, pos.offset - NextIn(base, pos.partition);
    CountsAt(db1.usage, base, logs, turns, q, j);
    OneMoreTurn(turns, p, q);
    DeliveredMore(base, logs, turns, p, q, j);
    if q != p {
      SharedIsKnown(db, logs, turns + [p], p, k, q, j);
    } else {
      InLog(logs, p, j, k);
    }
  }

  lemma RecordedId(u: Usage, pos: Position)
    requires IdsOfRows(u) && pos in u.rows && u.rows[pos].eventId.Some?
    ensures !u.rows[pos].raw.Malformed? && u.rows[pos].raw.id == u.rows[pos].eventId.value
  {
  }

  lemma DeliveredMore(base: map<Partition, int>, logs: Logs, turns: seq<Partition>, p: Partition, q: Partition, j: int)
    requires Delivered(base, logs, turns, q, j)
    ensures Delivered(base, logs, turns + [p], q, j)
  {
    OneMoreTurn(turns, p, q);
  }

  lemma SharedIsKnown(db: DB, logs: Logs, turns: seq<Partition>, p: Partition, i: int, q: Partition, j: int)
    requires NoneShared(db, logs, turns) && p != q && Delivered(db.usage.next, logs, turns, p, i) && Delivered(db.usage.next, logs, turns, q, j)
    requires !logs[p][i].Malformed? && !logs[q][j].Malformed? && logs[p][i].id == logs[q][j].id
    ensures Known(db.usage, logs[p][i].id)
  {
    hide Known, ValidPosition;
    assert Meet(db.usage.next, logs, turns, p, i, q, j);
  }

  lemma InLog(logs: Logs, p: Partition, i: int, k: int)
    requires p in logs && 0 <= i < k < |logs[p]| && !logs[p][i].Malformed? && !logs[p][k].Malformed? && logs[p][i].id == logs[p][k].id
    ensures SeenInLog(logs, p, k)
  {
  }

  lemma ReadyIsDelivered(db: DB, db1: DB, logs: Logs, turns: seq<Partition>, p: Partition)
    requires Inv(db) && Reached(db, db1, logs, turns) && Ready(db1, db.usage.next, logs, p)
    ensures var k := NextOf(db1.usage, p) - NextIn(db.usage.next, p);
            Delivered(db.usage.next, logs, turns + [p], p, k) && NextRecord(logs, db.usage.next, db1.usage.next, p) == Some(logs[p][k])
  {
    hide *;
    var base := db.usage.next;
    var k := NextOf(db1.usage, p) - NextIn(base, p);
    var db2 := Deliver(db1, base, logs, p);
    ReachedInv(db, db1, logs, turns);
    CheckpointsRise(db, db1, logs, turns, p);
    SameNextOf(db1.usage, p);
    SameNextOf(db2.usage, p);
    ReachedStep(db, db1, logs, turns, p);
    ReachedParts(db, db2, logs, turns + [p]);
    ReadyMeans(db1, base, logs, p);
    RecordAt(logs, base, db1.usage.next, p);
    DeliverOne(db1, base, logs, p);
    NextWritten(db1.usage.next, db2.usage.next, p);
    CountsAt(db2.usage, base, logs, turns + [p], p, k);
  }

  lemma RecordAt(logs: Logs, base: map<Partition, int>, next: map<Partition, int>, p: Partition)
    requires NextRecord(logs, base, next, p).Some?
    ensures var k := NextIn(next, p) - NextIn(base, p);
            p in logs && 0 <= k < |logs[p]| && NextRecord(logs, base, next, p) == Some(logs[p][k])
  {
    hide NextIn;
  }

  lemma NextWritten(next: map<Partition, int>, next': map<Partition, int>, p: Partition)
    requires next' == next[p := NextIn(next, p) + 1]
    ensures NextIn(next', p) == NextIn(next, p) + 1
  {
  }

  lemma RowIsExpected(db: DB, db1: DB, logs: Logs, turns: seq<Partition>, p: Partition)
    requires Inv(db) && Reached(db, db1, logs, turns) && OnePayloadPerId(logs) && NoneShared(db, logs, turns + [p])
    requires Ready(db1, db.usage.next, logs, p)
    ensures var k := NextOf(db1.usage, p) - NextIn(db.usage.next, p);
            p in logs && 0 <= k < |logs[p]| && NextRecord(logs, db.usage.next, db1.usage.next, p) == Some(logs[p][k]) &&
            RowFor(db1, logs[p][k]) == Expected(db, logs, p, k)
  {
    var k := NextOf(db1.usage, p) - NextIn(db.usage.next, p);
    ReadyIsDelivered(db, db1, logs, turns, p);
    hide Inv, Reached, NoneShared, RowFor, CopyRow, OnePayloadPerId, Known, SeenInLog, Ready, NextRecord;
    var raw := logs[p][k];
    RowLater(db, db1, logs, turns, raw);
    if !raw.Malformed? && !Known(db.usage, raw.id) { KnownFromLog(db, db1, logs, turns, p, k); }
  }

  lemma FewerShared(db: DB, logs: Logs, turns: seq<Partition>, p: Partition)
    requires NoneShared(db, logs, turns + [p])
    ensures NoneShared(db, logs, turns)
  {
    hide Known;
    var base := db.usage.next;
    forall x, i, q, j | Meet(base, logs, turns, x, i, q, j) ensures Known(db.usage, logs[x][i].id) {
      OneMoreTurn(turns, p, x);
      OneMoreTurn(turns, p, q);
      assert Meet(base, logs, turns + [p], x, i, q, j);
    }
  }

  lemma ExpectedMore(db: DB, u: Usage, u': Usage, logs: Logs, pos: Position, row: UsageRow)
    requires AllExpected(db, u, logs) && u'.rows == u.rows[pos := row]
    requires var k := pos.offset - NextIn(db.usage.next, pos.partition);
             pos.partition in logs && 0 <= k < |logs[pos.partition]| && row == Expected(db, logs, pos.partition, k)
    ensures AllExpected(db, u', logs)
  {
    hide Expected;
    forall x | x in u'.rows && x !in db.usage.rows ensures AsExpected(db, u', logs, x) {
      if x != pos { assert AsExpected(db, u, logs, x); }
    }
  }

  lemma {:induction false} RowsExpected(db: DB, logs: Logs, turns: seq<Partition>)
    requires Inv(db) && OnePayloadPerId(logs) && NoneShared(db, logs, turns)
    ensures AllExpected(db, DeliverAll(db, db.usage.next, logs, turns).usage, logs)
  {
    hide Inv, OnePayloadPerId, NoneShared, Deliver, AsExpected, RowFor, Reached, Ready, Expected, NextRecord, OnlyStatus;
    if turns != [] {
      var base := db.usage.next;
      var front, p := turns[..|turns| - 1], turns[|turns| - 1];
      assert turns == front + [p];
      FewerShared(db, logs, front, p);
      RowsExpected(db, logs, front);
      var db1 := DeliverAll(db, base, logs, front);
      DeliverAllReaches(db, logs, front);
      ReachedInv(db, db1, logs, front);
      DeliverOne(db1, base, logs, p);
      if Ready(db1, base, logs, p) {
        RowIsExpected(db, db1, logs, front, p);
        ExpectedMore(db, db1.usage, Deliver(db1, base, logs, p).usage, logs, Position(p, NextOf(db1.usage, p)),
                     RowFor(db1, NextRecord(logs, base, db1.usage.next, p).value));
      }
    }
  }

  lemma ReachedInv(db: DB, db': DB, logs: Logs, turns: seq<Partition>)
    requires Reached(db, db', logs, turns)
    ensures Inv(db')
  {
    hide Inv, OnlyStatus, RowsExtend, AddedFromLogs, CountsTurns;
  }

  lemma SameRowsExpected(db: DB, db1: DB, db2: DB, logs: Logs)
    requires OffsetsOk(db1.usage) && OffsetsOk(db2.usage) && db1.usage.next == db2.usage.next
    requires RowsExtend(db.usage, db1.usage) && RowsExtend(db.usage, db2.usage) && AllExpected(db, db1.usage, logs) && AllExpected(db, db2.usage, logs)
    ensures db1.usage.rows == db2.usage.rows
  {
    hide Expected;
    forall pos ensures pos in db1.usage.rows <==> pos in db2.usage.rows {
      SameNextOf(db1.usage, pos.partition);
      SameNextOf(db2.usage, pos.partition);
    }
    forall pos | pos in db1.usage.rows ensures db1.usage.rows[pos] == db2.usage.rows[pos] {
      if pos !in db.usage.rows { assert AsExpected(db, db1.usage, logs, pos) && AsExpected(db, db2.usage, logs, pos); }
    }
  }

  lemma SharedInAny(db: DB, logs: Logs, turns: seq<Partition>, others: seq<Partition>)
    requires NoneShared(db, logs, turns) && multiset(turns) == multiset(others)
    ensures NoneShared(db, logs, others)
  {
    hide Known;
    forall p, i, q, j | Meet(db.usage.next, logs, others, p, i, q, j) ensures Known(db.usage, logs[p][i].id) {
      assert Meet(db.usage.next, logs, turns, p, i, q, j);
    }
  }

  lemma UnsharedAgree(db: DB, logs: Logs, turns: seq<Partition>, others: seq<Partition>)
    requires Inv(db) && OnePayloadPerId(logs) && NoneShared(db, logs, turns) && multiset(turns) == multiset(others)
    ensures DeliverAll(db, db.usage.next, logs, turns).usage.rows == DeliverAll(db, db.usage.next, logs, others).usage.rows
  {
    hide *;
    var base := db.usage.next;
    var db1, db2 := DeliverAll(db, base, logs, turns), DeliverAll(db, base, logs, others);
    SharedInAny(db, logs, turns, others);
    DeliverAllReaches(db, logs, turns);
    DeliverAllReaches(db, logs, others);
    ReachedParts(db, db1, logs, turns);
    ReachedParts(db, db2, logs, others);
    OffsetsHold(db1);
    OffsetsHold(db2);
    PartitionsConfluent(db, logs, turns, others);
    OutcomeNext(db1, db2);
    RowsExpected(db, logs, turns);
    RowsExpected(db, logs, others);
    SameRowsExpected(db, db1, db2, logs);
  }

  lemma OutcomeNext(db1: DB, db2: DB)
    requires SameOutcome(db1, db2)
    ensures db1.usage.next == db2.usage.next
  {
    hide Known, RowCount;
  }

  // ---- Where one is shared, reading either partition first gives different rows ----

  function Turns(turns: seq<Partition>, p: Partition): seq<Partition> {
    if turns == [] then [] else
      var front := Turns(turns[..|turns| - 1], p);
      if turns[|turns| - 1] == p then front + [p] else front
  }

  function OtherTurns(turns: seq<Partition>, p: Partition): seq<Partition> {
    if turns == [] then [] else
      var front := OtherTurns(turns[..|turns| - 1], p);
      if turns[|turns| - 1] == p then front else front + [turns[|turns| - 1]]
  }

  lemma {:induction false} TurnsSplit(turns: seq<Partition>, p: Partition)
    ensures multiset(Turns(turns, p) + OtherTurns(turns, p)) == multiset(turns)
    ensures forall x :: multiset(Turns(turns, p))[x] == if x == p then multiset(turns)[p] else 0
  {
    if turns != [] {
      var front, last := turns[..|turns| - 1], turns[|turns| - 1];
      TurnsSplit(front, p);
      assert turns == front + [last];
      assert multiset(turns) == multiset(front) + multiset{last};
      if last == p {
        assert multiset(Turns(front, p) + [p]) == multiset(Turns(front, p)) + multiset{p};
      }
    }
  }

  lemma {:induction false} DeliverConcat(db: DB, base: map<Partition, int>, logs: Logs, a: seq<Partition>, b: seq<Partition>)
    ensures DeliverAll(db, base, logs, a + b) == DeliverAll(DeliverAll(db, base, logs, a), base, logs, b)
  {
    hide Deliver;
    if b == [] {
      assert a + b == a;
    } else {
      var front, last := b[..|b| - 1], b[|b| - 1];
      DeliverConcat(db, base, logs, a, front);
      assert (a + b)[..|a + b| - 1] == a + front;
    }
  }

  lemma {:induction false} RowsStay(db: DB, base: map<Partition, int>, logs: Logs, turns: seq<Partition>)
    requires Inv(db)
    ensures Inv(DeliverAll(db, base, logs, turns)) && RowsExtend(db.usage, DeliverAll(db, base, logs, turns).usage)
  {
    hide Inv, Deliver, RowFor, OnlyStatus, NextRecord, Ready;
    if turns != [] {
      RowsStay(db, base, logs, turns[..|turns| - 1]);
      DeliverOne(DeliverAll(db, base, logs, turns[..|turns| - 1]), base, logs, turns[|turns| - 1]);
    }
  }

  /** A new id known after turns of one partition was recorded by it. */
  lemma RecordedByOne(db: DB, db1: DB, logs: Logs, turns: seq<Partition>, p: Partition, id: Id) returns (pos: Position)
    requires Inv(db) && Reached(db, db1, logs, turns) && (forall x :: multiset(turns)[x] > 0 ==> x == p)
    requires !Known(db.usage, id) && Known(db1.usage, id)
    ensures pos.partition == p && pos in db1.usage.rows && db1.usage.rows[pos].eventId == Some(id)
  {
    ReachedParts(db, db1, logs, turns);
    OffsetsHold(db1);
    hide Inv, Reached, RowsOk, OnlyStatus, Known, NextOf, ValidPosition, RowsExtend, AddedFromLogs;
    pos := FirstRow(db.usage, db1.usage, db.usage.next, logs, id);
    var q, k := pos.partition, pos.offset - NextIn(db.usage.next, pos.partition);
    assert pos in db1.usage.rows;
    assert Delivered(db.usage.next, logs, turns, q, k) <==> 0 <= k < NextOf(db1.usage, q) - NextIn(db.usage.next, q);
  }

  /** With all turns of p first, a new event of p is recorded by p. */
  lemma RecordedByItsFirst(db: DB, logs: Logs, turns: seq<Partition>, p: Partition, i: int) returns (pos: Position)
    requires Inv(db) && Delivered(db.usage.next, logs, turns, p, i) && !logs[p][i].Malformed? && !Known(db.usage, logs[p][i].id)
    ensures pos.partition == p
    ensures var u := DeliverAll(db, db.usage.next, logs, Turns(turns, p) + OtherTurns(turns, p)).usage;
            pos in u.rows && u.rows[pos].eventId == Some(logs[p][i].id)
  {
    hide *;
    var base, first := db.usage.next, Turns(turns, p);
    TurnsSplit(turns, p);
    DeliverConcat(db, base, logs, first, OtherTurns(turns, p));
    var db1 := DeliverAll(db, base, logs, first);
    DeliverAllReaches(db, logs, first);
    ReachedInv(db, db1, logs, first);
    RowsStay(db1, base, logs, OtherTurns(turns, p));
    DeliveredAgain(base, logs, turns, first, p, i);
    DeliveredIsKnown(db, db1, logs, first, p, i);
    pos := RecordedByOne(db, db1, logs, first, p, logs[p][i].id);
    StaysThere(db1.usage, DeliverAll(db1, base, logs, OtherTurns(turns, p)).usage, pos);
  }

  lemma DeliveredAgain(base: map<Partition, int>, logs: Logs, turns: seq<Partition>, others: seq<Partition>, p: Partition, i: int)
    requires Delivered(base, logs, turns, p, i) && multiset(others)[p] == multiset(turns)[p]
    ensures Delivered(base, logs, others, p, i)
  {
  }

  lemma StaysThere(u: Usage, u': Usage, pos: Position)
    requires RowsExtend(u, u') && pos in u.rows
    ensures pos in u'.rows && u'.rows[pos] == u.rows[pos]
  {
  }

  lemma RecordedOnce(u: Usage, x: Position, y: Position, id: Id)
    requires IdsOk(u) && x in u.rows && u.rows[x].eventId == Some(id) && x != y
    ensures !(y in u.rows && u.rows[y].eventId == Some(id))
  {
  }

  lemma SharedDiffer(db: DB, logs: Logs, turns: seq<Partition>, p: Partition, i: int, q: Partition, j: int)
    requires Inv(db) && Meet(db.usage.next, logs, turns, p, i, q, j) && !Known(db.usage, logs[p][i].id)
    ensures var base := db.usage.next;
            && multiset(Turns(turns, p) + OtherTurns(turns, p)) == multiset(turns) == multiset(Turns(turns, q) + OtherTurns(turns, q))
            && DeliverAll(db, base, logs, Turns(turns, p) + OtherTurns(turns, p)).usage.rows !=
               DeliverAll(db, base, logs, Turns(turns, q) + OtherTurns(turns, q)).usage.rows
  {
    TurnsSplit(turns, p);
    TurnsSplit(turns, q);
    hide Inv, Known, DeliverAll, Turns, OtherTurns, ValidPosition, IdsOk;
    var x := RecordedByItsFirst(db, logs, turns, p, i);
    var y := RecordedByItsFirst(db, logs, turns, q, j);
    RowsStay(db, db.usage.next, logs, Turns(turns, p) + OtherTurns(turns, p));
    var db1 := DeliverAll(db, db.usage.next, logs, Turns(turns, p) + OtherTurns(turns, p));
    IdsOf(db1);
    RecordedOnce(db1.usage, x, y, logs[p][i].id);
  }

  // ---- The theorem ----

  ghost predicate RowsAgree(db: DB, logs: Logs, turns: seq<Partition>, others: seq<Partition>) {
    multiset(others) == multiset(turns) ==>
      DeliverAll(db, db.usage.next, logs, others).usage.rows == DeliverAll(db, db.usage.next, logs, turns).usage.rows
  }

  /**
   * Every interleaving leaves the very same rows exactly when no event that is new to the
   * database is delivered by two partitions.
   */
  lemma RowsConfluentIff(db: DB, logs: Logs, turns: seq<Partition>)
    requires Inv(db) && OnePayloadPerId(logs)
    ensures (forall others :: RowsAgree(db, logs, turns, others)) <==> NoneShared(db, logs, turns)
  {
    hide Inv, OnePayloadPerId, DeliverAll, Known, Turns, OtherTurns, ValidPosition;
    if NoneShared(db, logs, turns) {
      forall others ensures RowsAgree(db, logs, turns, others) {
        if multiset(others) == multiset(turns) { UnsharedAgree(db, logs, turns, others); }
      }
    } else {
      var p, i, q, j :| Meet(db.usage.next, logs, turns, p, i, q, j) && !Known(db.usage, logs[p][i].id);
      SharedDiffer(db, logs, turns, p, i, q, j);
      assert !RowsAgree(db, logs, turns, Turns(turns, p) + OtherTurns(turns, p)) || !RowsAgree(db, logs, turns, Turns(turns, q) + OtherTurns(turns, q));
    }
  }
}

/**
 * The freshness proof end to end: the lag monitor probes the database that ingestion
 * writes and authorization reads (internal/kafka/listener.go:161-180 and 357-404,
 * internal/store/auth.go:150-193). A granted request has been decided on a balance that
 * every record old enough has been charged to.
 */
module Freshness {
  import opened Totals
  import opened Blocks
  import K = KafkaLag
  import L = LagProtocol
  import opened Tables
  import opened Books
  import opened EscrowStore
  import opened EscrowSteps
  import opened Management
  import opened Ingestion
  import opened IngestSteps
  import opened Invariant
  import opened IngestKeeps
  import opened Authorize
  import opened Idempotent
  import opened ManagementKeeps
  import opened Runs

  // ---- One database, one clock ----

  /** The database, and the broker, clock and monitor beside it. */
  datatype System = System(db: DB, world: L.World)

  datatype Turn =
    | Outside(step: L.Step)
    | IngestNext(number: int, raw: Payload)
    | StoreReport(stored: bool)
    | StopMonitor(invalidated: bool)
    | Write(op: Op)

  /** The steps of the protocol that neither read back nor write the database. */
  predicate OutsideStep(step: L.Step) {
    !step.Commit? && !step.Publish? && !step.Restart?
  }

  /** Only this consumer ingests the topic, and only this monitor reports on it. */
  predicate OtherWrite(topic: Id, op: Op) {
    !(op.Consume? && op.pos.partition.topic == topic) && !(op.PublishLag? && op.topic == topic)
  }

  predicate StepAllowed(topic: Id, turn: Turn) {
    match turn
    case Outside(step) => OutsideStep(step)
    case Write(op) => OtherWrite(topic, op)
    case _ => true
  }

  /** The offset the consumer reads next exists at the broker. */
  predicate Appended(w: L.World, number: int) {
    number in w.logs && number in w.committed && w.committed[number] < |w.logs[number]|
  }

  function TakeTurn(s: System, topic: Id, turn: Turn, strict: bool, maxAge: int): System {
    match turn
    case Outside(step) => s.(world := L.Next(s.world, step, strict, maxAge))
    case IngestNext(number, raw) =>
      if !Appended(s.world, number) then s else
        var r := Ingest(s.db, Position(Partition(topic, number), s.world.committed[number]), raw);
        if r.Err? then s else System(r.value, L.Next(s.world, L.Commit(number), strict, maxAge))
    case StoreReport(stored) =>
      System(if stored && s.world.probe.Storing? then SetLag(s.db, topic, s.world.probe.report) else s.db,
             L.Next(s.world, L.Publish(stored), strict, maxAge))
    case StopMonitor(invalidated) =>
      System(if invalidated then SetLag(s.db, topic, K.Lag(0, 0, false)) else s.db, L.Next(s.world, L.Restart(invalidated), strict, maxAge))
    case Write(op) => s.(db := Next(s.db, op))
  }

  const INITIALLY: System := System(EMPTY, L.INITIAL)

  ghost function Go(turns: seq<Turn>, topic: Id, strict: bool, maxAge: int): System {
    if turns == [] then INITIALLY else TakeTurn(Go(turns[..|turns| - 1], topic, strict, maxAge), topic, turns[|turns| - 1], strict, maxAge)
  }

  ghost predicate Possible(turns: seq<Turn>, topic: Id, strict: bool, maxAge: int) {
    turns == [] ||
    (Possible(turns[..|turns| - 1], topic, strict, maxAge) && StepAllowed(topic, turns[|turns| - 1]) &&
     (turns[|turns| - 1].Write? ==> Enabled(Go(turns[..|turns| - 1], topic, strict, maxAge).db, turns[|turns| - 1].op)))
  }

  // ---- The monitor's picture is the database ----

  ghost predicate CheckpointsMatch(u: Usage, w: L.World, topic: Id) {
    forall n: int :: NextOf(u, Partition(topic, n)) == if n in w.committed then w.committed[n] else 0
  }

  predicate ReportMatches(u: Usage, w: L.World, topic: Id) {
    LagOf(u, topic) == w.published
  }

  ghost predicate Joined(s: System, topic: Id, strict: bool) {
    && Inv(s.db) && L.Inv(s.world, strict)
    && CheckpointsMatch(s.db.usage, s.world, topic) && ReportMatches(s.db.usage, s.world, topic)
  }

  /** A write that leaves the topic's checkpoints and report alone. */
  ghost predicate TopicKept(u: Usage, u': Usage, topic: Id) {
    LagOf(u', topic) == LagOf(u, topic) && forall p: Partition :: p.topic == topic && (p in u.next || p in u'.next) ==> NextOf(u', p) == NextOf(u, p)
  }

  lemma SameUsageKept(u: Usage, topic: Id)
    ensures TopicKept(u, u, topic)
  {
  }

  lemma KeptMatches(u: Usage, u': Usage, w: L.World, topic: Id)
    requires TopicKept(u, u', topic) && CheckpointsMatch(u, w, topic) && ReportMatches(u, w, topic)
    ensures CheckpointsMatch(u', w, topic) && ReportMatches(u', w, topic)
  {
    forall n: int ensures NextOf(u', Partition(topic, n)) == if n in w.committed then w.committed[n] else 0 {
      assert NextOf(u, Partition(topic, n)) == if n in w.committed then w.committed[n] else 0;
    }
  }

  lemma ManagedKept(db: DB, op: Op, topic: Id)
    requires Inv(db) && Enabled(db, op) && Exec(db, op).Ok?
    requires op.NewGrant? || op.Manage? || op.SetGrant? || op.SetAllocation? || op.DropKey? || op.DropSession? || op.Sign?
    ensures Next(db, op).usage == db.usage
  {
    hide Inv, CreateGrant, WriteIdempotent, SetGrantStatus, SetAllocationStatus, RevokeApiKey, RevokeSession, Commit, FreshGrant, FreshMutation, SameBindings;
    match op {
      case NewGrant(id, amount, currency, status, window) => CreateGrantInv(db, id, amount, currency, status, window);
      case Manage(key, fingerprint, mutation) => WriteIdempotentInv(db, key, fingerprint, mutation);
      case SetGrant(id, status) => SetGrantStatusInv(db, id, status);
      case SetAllocation(id, status) => SetAllocationStatusInv(db, id, status);
      case DropKey(id) => RevokeKeyInv(db, id);
      case DropSession(id) => RevokeSessionInv(db, id);
      case Sign(request, clock, id) => CommitInv(db, request, clock, id);
    }
  }

  lemma RecordedUsage(db: DB, db': DB, pos: Position, row: UsageRow)
    requires ChargeRecorded(db, db', pos, row) || Audited(db, db', pos, row)
    ensures db'.usage.next == db.usage.next[pos.partition := pos.offset + 1] && db'.usage.lag == db.usage.lag
  {
    hide OnlyMatches, AppliedRow, Spent, ChargePosting, RowFee, AllocationOf;
  }

  lemma IngestedUsage(db: DB, pos: Position, raw: Payload)
    requires Inv(db) && Ingest(db, pos, raw).Ok?
    ensures var u := Ingest(db, pos, raw).value.usage;
            && u.lag == db.usage.lag
            && (u.next == db.usage.next || u.next == db.usage.next[pos.partition := pos.offset + 1])
            && (pos.offset == NextOf(db.usage, pos.partition) ==> u.next == db.usage.next[pos.partition := pos.offset + 1])
  {
    IngestKeepsInv(db, pos, raw);
    hide *;
    if pos.offset == NextOf(db.usage, pos.partition) {
      RecordedUsage(db, Ingest(db, pos, raw).value, pos, RowFor(db, raw));
    }
  }

  lemma ConsumedKept(db: DB, pos: Position, raw: Payload, topic: Id)
    requires Inv(db) && Ingest(db, pos, raw).Ok? && pos.partition.topic != topic
    ensures TopicKept(db.usage, Ingest(db, pos, raw).value.usage, topic)
  {
    IngestedUsage(db, pos, raw);
    hide Inv, Ingest;
  }

  lemma LagKept(db: DB, other: Id, lag: K.Lag, topic: Id)
    requires other != topic
    ensures TopicKept(db.usage, SetLag(db, other, lag).usage, topic)
  {
  }

  lemma OtherWriteKept(db: DB, op: Op, topic: Id)
    requires Inv(db) && Enabled(db, op) && OtherWrite(topic, op)
    ensures TopicKept(db.usage, Next(db, op).usage, topic)
  {
    SameUsageKept(db.usage, topic);
    hide Inv, TopicKept, CreateGrant, WriteIdempotent, SetGrantStatus, SetAllocationStatus, RevokeApiKey, RevokeSession, Commit, Ingest,
         BootstrapChain, ApplyChain, Rewind, FreshGrant, FreshMutation, ListsSettlements, ListsEvents, SetLag;
    if Exec(db, op).Ok? {
      match op
      case Consume(pos, raw) => ConsumedKept(db, pos, raw, topic);
      case PublishLag(other, lag) => LagKept(db, other, lag, topic);
      case OpenChain(_, _, _) => ChainOpFrame(db, op);
      case ApplyBlocks(_, _, _, _) => ChainOpFrame(db, op);
      case Reorg(_, _, _, _) => ChainOpFrame(db, op);
      case _ => ManagedKept(db, op, topic);
    }
  }

  // ---- Each turn keeps the picture ----

  lemma OutsideMatches(u: Usage, w: L.World, topic: Id, step: L.Step, strict: bool, maxAge: int)
    requires CheckpointsMatch(u, w, topic) && ReportMatches(u, w, topic) && OutsideStep(step) && w.committed.Keys == w.logs.Keys
    ensures CheckpointsMatch(u, L.Next(w, step, strict, maxAge), topic) && ReportMatches(u, L.Next(w, step, strict, maxAge), topic)
  {
    hide K.Updated, K.Published;
    var w' := L.Next(w, step, strict, maxAge);
    assert w'.published == w.published;
    assert w'.committed == w.committed || (step.CreatePartition? && step.created !in w.committed && w'.committed == w.committed[step.created := 0]);
    forall n: int ensures NextOf(u, Partition(topic, n)) == if n in w'.committed then w'.committed[n] else 0 {
      assert NextOf(u, Partition(topic, n)) == if n in w.committed then w.committed[n] else 0;
    }
  }

  lemma TablesOf(w: L.World, strict: bool)
    requires L.Inv(w, strict)
    ensures w.committed.Keys == w.logs.Keys
  {
    hide L.CoverageProven, L.LagProven, L.ProbeProven;
  }

  lemma CommitMatches(u: Usage, u': Usage, w: L.World, topic: Id, number: int, strict: bool, maxAge: int)
    requires CheckpointsMatch(u, w, topic) && ReportMatches(u, w, topic) && Appended(w, number)
    requires u'.lag == u.lag && u'.next == u.next[Partition(topic, number) := w.committed[number] + 1]
    ensures CheckpointsMatch(u', L.Next(w, L.Commit(number), strict, maxAge), topic) && ReportMatches(u', L.Next(w, L.Commit(number), strict, maxAge), topic)
  {
    var w' := L.Next(w, L.Commit(number), strict, maxAge);
    forall n: int ensures NextOf(u', Partition(topic, n)) == if n in w'.committed then w'.committed[n] else 0 {
      assert NextOf(u, Partition(topic, n)) == if n in w.committed then w.committed[n] else 0;
    }
  }

  lemma LagMatches(db: DB, w: L.World, w': L.World, topic: Id, lag: K.Lag)
    requires CheckpointsMatch(db.usage, w, topic) && w'.committed == w.committed && w'.published == lag
    ensures CheckpointsMatch(SetLag(db, topic, lag).usage, w', topic) && ReportMatches(SetLag(db, topic, lag).usage, w', topic)
  {
    forall n: int ensures NextOf(SetLag(db, topic, lag).usage, Partition(topic, n)) == if n in w'.committed then w'.committed[n] else 0 {
      assert NextOf(db.usage, Partition(topic, n)) == if n in w.committed then w.committed[n] else 0;
    }
  }

  lemma SameMatches(u: Usage, w: L.World, w': L.World, topic: Id)
    requires CheckpointsMatch(u, w, topic) && ReportMatches(u, w, topic) && w'.committed == w.committed && w'.published == w.published
    ensures CheckpointsMatch(u, w', topic) && ReportMatches(u, w', topic)
  {
  }

  lemma IngestShape(s: System, topic: Id, number: int, raw: Payload, strict: bool, maxAge: int)
    ensures var s' := TakeTurn(s, topic, IngestNext(number, raw), strict, maxAge);
            if !Appended(s.world, number) then s' == s else
              var r := Ingest(s.db, Position(Partition(topic, number), s.world.committed[number]), raw);
              s' == if r.Err? then s else System(r.value, L.Next(s.world, L.Commit(number), strict, maxAge))
  {
    hide Ingest, L.Next;
  }

  lemma JoinedParts(s: System, topic: Id, strict: bool)
    requires Joined(s, topic, strict)
    ensures Inv(s.db) && L.Inv(s.world, strict) && CheckpointsMatch(s.db.usage, s.world, topic) && ReportMatches(s.db.usage, s.world, topic)
  {
    hide Inv, L.Inv, CheckpointsMatch, ReportMatches;
  }

  lemma PartsJoined(s: System, topic: Id, strict: bool)
    requires Inv(s.db) && L.Inv(s.world, strict) && CheckpointsMatch(s.db.usage, s.world, topic) && ReportMatches(s.db.usage, s.world, topic)
    ensures Joined(s, topic, strict)
  {
    hide Inv, L.Inv, CheckpointsMatch, ReportMatches;
  }

  lemma IngestTurn(s: System, topic: Id, number: int, raw: Payload, strict: bool, maxAge: int)
    requires Joined(s, topic, strict)
    ensures Joined(TakeTurn(s, topic, IngestNext(number, raw), strict, maxAge), topic, strict)
  {
    hide *;
    JoinedParts(s, topic, strict);
    IngestShape(s, topic, number, raw, strict, maxAge);
    if Appended(s.world, number) {
      AppendedThere(s.world, number);
      var pos := Position(Partition(topic, number), s.world.committed[number]);
      IngestKeepsInv(s.db, pos, raw);
      if Ingest(s.db, pos, raw).Ok? {
        L.StepKeeps(s.world, L.Commit(number), strict, maxAge);
        CheckpointIs(s.db.usage, s.world, topic, number);
        IngestedUsage(s.db, pos, raw);
        CommitMatches(s.db.usage, Ingest(s.db, pos, raw).value.usage, s.world, topic, number, strict, maxAge);
        PartsJoined(TakeTurn(s, topic, IngestNext(number, raw), strict, maxAge), topic, strict);
      }
    }
  }

  lemma AppendedThere(w: L.World, number: int)
    requires Appended(w, number)
    ensures number in w.committed
  {
  }

  lemma CheckpointIs(u: Usage, w: L.World, topic: Id, number: int)
    requires CheckpointsMatch(u, w, topic) && number in w.committed
    ensures NextOf(u, Partition(topic, number)) == w.committed[number]
  {
  }

  lemma ReportShape(s: System, topic: Id, stored: bool, strict: bool, maxAge: int)
    ensures var s' := TakeTurn(s, topic, StoreReport(stored), strict, maxAge);
            var w' := L.Next(s.world, L.Publish(stored), strict, maxAge);
            && s'.world == w' && w'.committed == s.world.committed
            && (if stored && s.world.probe.Storing? then s'.db == SetLag(s.db, topic, w'.published)
                else s'.db == s.db && w'.published == s.world.published)
  {
    hide SetLag;
  }

  lemma ReportTurn(s: System, topic: Id, stored: bool, strict: bool, maxAge: int)
    requires Joined(s, topic, strict)
    ensures Joined(TakeTurn(s, topic, StoreReport(stored), strict, maxAge), topic, strict)
  {
    hide *;
    var s' := TakeTurn(s, topic, StoreReport(stored), strict, maxAge);
    JoinedParts(s, topic, strict);
    ReportShape(s, topic, stored, strict, maxAge);
    L.StepKeeps(s.world, L.Publish(stored), strict, maxAge);
    if stored && s.world.probe.Storing? {
      LagInv(s.db, topic, s'.world.published);
      LagMatches(s.db, s.world, s'.world, topic, s'.world.published);
    } else {
      SameMatches(s.db.usage, s.world, s'.world, topic);
    }
    PartsJoined(s', topic, strict);
  }

  lemma StopShape(s: System, topic: Id, invalidated: bool, strict: bool, maxAge: int)
    ensures var s' := TakeTurn(s, topic, StopMonitor(invalidated), strict, maxAge);
            var w' := L.Next(s.world, L.Restart(invalidated), strict, maxAge);
            && s'.world == w' && w'.committed == s.world.committed
            && (if invalidated then s'.db == SetLag(s.db, topic, w'.published) else s'.db == s.db && w'.published == s.world.published)
  {
    hide SetLag;
  }

  lemma StopTurn(s: System, topic: Id, invalidated: bool, strict: bool, maxAge: int)
    requires Joined(s, topic, strict)
    ensures Joined(TakeTurn(s, topic, StopMonitor(invalidated), strict, maxAge), topic, strict)
  {
    hide *;
    var s' := TakeTurn(s, topic, StopMonitor(invalidated), strict, maxAge);
    JoinedParts(s, topic, strict);
    StopShape(s, topic, invalidated, strict, maxAge);
    L.StepKeeps(s.world, L.Restart(invalidated), strict, maxAge);
    if invalidated {
      LagInv(s.db, topic, s'.world.published);
      LagMatches(s.db, s.world, s'.world, topic, s'.world.published);
    } else {
      SameMatches(s.db.usage, s.world, s'.world, topic);
    }
    PartsJoined(s', topic, strict);
  }

  lemma OutsideShape(s: System, topic: Id, step: L.Step, strict: bool, maxAge: int)
    ensures TakeTurn(s, topic, Outside(step), strict, maxAge) == s.(world := L.Next(s.world, step, strict, maxAge))
    ensures StepAllowed(topic, Outside(step)) == OutsideStep(step)
  {
    hide L.Next, OutsideStep;
  }

  lemma OutsideTurn(s: System, topic: Id, step: L.Step, strict: bool, maxAge: int)
    requires Joined(s, topic, strict) && StepAllowed(topic, Outside(step))
    ensures Joined(TakeTurn(s, topic, Outside(step), strict, maxAge), topic, strict)
  {
    hide *;
    JoinedParts(s, topic, strict);
    OutsideShape(s, topic, step, strict, maxAge);
    L.StepKeeps(s.world, step, strict, maxAge);
    TablesOf(s.world, strict);
    OutsideMatches(s.db.usage, s.world, topic, step, strict, maxAge);
    PartsJoined(TakeTurn(s, topic, Outside(step), strict, maxAge), topic, strict);
  }

  lemma WriteShape(s: System, topic: Id, op: Op, strict: bool, maxAge: int)
    ensures TakeTurn(s, topic, Write(op), strict, maxAge) == s.(db := Next(s.db, op))
    ensures StepAllowed(topic, Write(op)) == OtherWrite(topic, op)
  {
    hide Next, OtherWrite;
  }

  lemma WriteTurn(s: System, topic: Id, op: Op, strict: bool, maxAge: int)
    requires Joined(s, topic, strict) && StepAllowed(topic, Write(op)) && Enabled(s.db, op)
    ensures Joined(TakeTurn(s, topic, Write(op), strict, maxAge), topic, strict)
  {
    hide *;
    JoinedParts(s, topic, strict);
    WriteShape(s, topic, op, strict, maxAge);
    StepKeepsInv(s.db, op);
    OtherWriteKept(s.db, op, topic);
    KeptMatches(s.db.usage, Next(s.db, op).usage, s.world, topic);
    PartsJoined(TakeTurn(s, topic, Write(op), strict, maxAge), topic, strict);
  }

  lemma TurnKeeps(s: System, topic: Id, turn: Turn, strict: bool, maxAge: int)
    requires Joined(s, topic, strict) && StepAllowed(topic, turn) && (turn.Write? ==> Enabled(s.db, turn.op))
    ensures Joined(TakeTurn(s, topic, turn, strict, maxAge), topic, strict)
  {
    hide *;
    match turn
    case Outside(step) => OutsideTurn(s, topic, step, strict, maxAge);
    case IngestNext(number, raw) => IngestTurn(s, topic, number, raw, strict, maxAge);
    case StoreReport(stored) => ReportTurn(s, topic, stored, strict, maxAge);
    case StopMonitor(invalidated) => StopTurn(s, topic, invalidated, strict, maxAge);
    case Write(op) => WriteTurn(s, topic, op, strict, maxAge);
  }

  lemma InitiallyJoined(topic: Id, strict: bool)
    ensures Joined(INITIALLY, topic, strict)
  {
    EmptyInv();
    hide Inv, ZEROES;
    L.RunKeeps([], strict, 0);
  }

  lemma {:induction false} GoKeeps(turns: seq<Turn>, topic: Id, strict: bool, maxAge: int)
    requires Possible(turns, topic, strict, maxAge)
    ensures Joined(Go(turns, topic, strict, maxAge), topic, strict)
  {
    hide Joined, TakeTurn, StepAllowed, Enabled, INITIALLY;
    if turns == [] {
      InitiallyJoined(topic, strict);
      FirstSystem(topic, strict, maxAge);
    } else {
      GoKeeps(turns[..|turns| - 1], topic, strict, maxAge);
      TurnKeeps(Go(turns[..|turns| - 1], topic, strict, maxAge), topic, turns[|turns| - 1], strict, maxAge);
    }
  }

  lemma FirstSystem(topic: Id, strict: bool, maxAge: int)
    ensures Go([], topic, strict, maxAge) == INITIALLY
  {
    hide INITIALLY;
  }

  // ---- The theorem ----

  lemma PermittedIsFresh(db: DB, r: Request, clock: Clock)
    requires Permitted(db, r, clock)
    ensures K.Reason(LagOf(db.usage, clock.topic), clock.now, clock.maxAge).Fresh?
    ensures r.credential.Bearer? && KeyKnown(db.budget, r.credential.keyId)
  {
    hide K.Reason, Held;
  }

  lemma FreshRecordIsThere(s: System, later: L.World, topic: Id, strict: bool, now: int, maxAge: int, n: int, i: int)
    requires Joined(s, topic, strict) && L.Later(s.world, later, strict) && K.Reason(LagOf(s.db.usage, topic), now, maxAge).Fresh?
    requires n in later.logs && 0 <= i < |later.logs[n]| && later.logs[n][i] + maxAge <= now * K.MILLISECOND
    ensures Position(Partition(topic, n), i) in s.db.usage.rows
  {
    TablesOf(s.world, strict);
    L.FreshState(s.world, later, strict, now, maxAge, n, i);
    InvConjuncts(s.db);
    hide Inv, L.Inv, L.Later, K.Reason, CheckpointsMatch, NextOf, IdsOk, RowsOk, ChargesOk, SpentOk, EscrowInv, BudgetOk, SessionsOk, RevokedOnce, BooksOk,
         KnownHolders;
    CheckpointIs(s.db.usage, s.world, topic, n);
  }

  // ---- What happens after the snapshot ----

  lemma TurnLater(w: L.World, s: System, topic: Id, turn: Turn, strict: bool, maxAge: int)
    requires L.Later(w, s.world, strict)
    ensures L.Later(w, TakeTurn(s, topic, turn, strict, maxAge).world, strict)
  {
    hide L.Later, L.Next, Ingest, Next, SetLag;
    match turn
    case Outside(step) => L.StepLater(w, s.world, step, strict, maxAge);
    case IngestNext(number, raw) => L.StepLater(w, s.world, L.Commit(number), strict, maxAge);
    case StoreReport(stored) => L.StepLater(w, s.world, L.Publish(stored), strict, maxAge);
    case StopMonitor(invalidated) => L.StepLater(w, s.world, L.Restart(invalidated), strict, maxAge);
    case Write(op) =>
  }

  lemma {:induction false} GoLater(turns: seq<Turn>, more: seq<Turn>, topic: Id, strict: bool, maxAge: int)
    requires Possible(turns, topic, strict, maxAge)
    ensures L.Later(Go(turns, topic, strict, maxAge).world, Go(turns + more, topic, strict, maxAge).world, strict)
  {
    hide L.Later, L.Inv, TakeTurn, Possible, Joined, INITIALLY;
    if more == [] {
      assert turns + more == turns;
      GoKeeps(turns, topic, strict, maxAge);
      JoinedParts(Go(turns, topic, strict, maxAge), topic, strict);
      L.AtOnce(Go(turns, topic, strict, maxAge).world, strict);
    } else {
      var front := more[..|more| - 1];
      GoLater(turns, front, topic, strict, maxAge);
      assert (turns + more)[..|turns + more| - 1] == turns + front;
      TurnLater(Go(turns, topic, strict, maxAge).world, Go(turns + front, topic, strict, maxAge), topic, more[|more| - 1], strict, maxAge);
    }
  }

  /** What is available is what was allocated less the fees of every recorded row. */
  lemma AvailableIsNet(db: DB, id: Id)
    requires Inv(db) && id in db.budget.allocations
    ensures var a := db.budget.allocations[id];
            Balance(db, AllocationAvailable, id, a.currency) == a.units - Total(db.usage.rows, FeePart(db.budget, id))
  {
    InvConjuncts(db);
    hide Inv, EscrowInv, SessionsOk, RevokedOnce, BooksOk, KnownHolders, OffsetsOk, IdsOk, RowsOk, ChargesOk, Total, Held, FeePart, GrantOk;
    assert AllocationOk(db, id);
  }

  /**
   * Over every run of the broker, the monitor, ingestion and all other writes: the
   * decision is made on the database as it is after `turns`, with a clock read at any
   * later point. When it permits the request, every record the topic has received by
   * then that is at least maxAge old at the millisecond read is in the usage rows the
   * decision saw, and the balance the fee was compared with is net of the fees of all
   * of them.
   */
  lemma PermittedSeesOldRecords(turns: seq<Turn>, more: seq<Turn>, strict: bool, maxAge: int, r: Request, clock: Clock, n: int, i: int)
    requires Possible(turns, clock.topic, strict, maxAge) && Permitted(Go(turns, clock.topic, strict, maxAge).db, r, clock)
    requires var v := Go(turns + more, clock.topic, strict, maxAge).world;
             n in v.logs && 0 <= i < |v.logs[n]| && v.logs[n][i] + clock.maxAge <= clock.now * K.MILLISECOND
    ensures var s := Go(turns, clock.topic, strict, maxAge);
            && Position(Partition(clock.topic, n), i) in s.db.usage.rows
            && r.credential.Bearer? && KeyKnown(s.db.budget, r.credential.keyId)
            && var id := s.db.budget.apiKeys[r.credential.keyId].allocation;
            && var a := s.db.budget.allocations[id];
            && Balance(s.db, AllocationAvailable, id, a.currency) == a.units - Total(s.db.usage.rows, FeePart(s.db.budget, id))
  {
    hide *;
    var s := Go(turns, clock.topic, strict, maxAge);
    PermittedIsFresh(s.db, r, clock);
    GoKeeps(turns, clock.topic, strict, maxAge);
    GoLater(turns, more, clock.topic, strict, maxAge);
    JoinedParts(s, clock.topic, strict);
    KeyIsKnown(s.db.budget, r.credential.keyId);
    FreshRecordIsThere(s, Go(turns + more, clock.topic, strict, maxAge).world, clock.topic, strict, clock.now, clock.maxAge, n, i);
    AvailableIsNet(s.db, s.db.budget.apiKeys[r.credential.keyId].allocation);
  }

  lemma KeyIsKnown(b: Budget, key: Id)
    requires KeyKnown(b, key)
    ensures key in b.apiKeys && b.apiKeys[key].allocation in b.allocations
  {
  }
}

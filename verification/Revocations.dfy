/**
 * Revocation is final: whatever is written afterwards, a revoked key or allocation, an
 * ended session and a closed grant stay so, and no authorization that is answered later
 * rests on one of them (internal/store/manage.go:252-343, internal/store/auth.go:63-101).
 */
module Revocations {
  import opened Results
  import opened Blocks
  import opened Tables
  import opened Books
  import opened EscrowStore
  import opened Reorgs
  import opened Management
  import opened Ingestion
  import opened IngestSteps
  import opened Invariant
  import opened IngestKeeps
  import opened Authorize
  import opened Idempotent
  import opened ManagementKeeps
  import opened Runs
  import KafkaLag
  import opened ManagementEffects
  import opened Decisions
  import opened Races

  // ---- What is revoked ----

  predicate SessionEnded(b: Budget, s: Id) {
    s in b.sessions && !b.sessions[s].active
  }

  predicate KeyBarred(b: Budget, k: Id) {
    k in b.apiKeys && (b.apiKeys[k].revoked || AllocationBarred(b, b.apiKeys[k].allocation))
  }

  /** Revoked, or of a closed grant. */
  predicate AllocationBarred(b: Budget, a: Id) {
    a in b.allocations &&
    (b.allocations[a].status == Revoked || (b.allocations[a].grant in b.grants && b.grants[b.allocations[a].grant].status == Closed))
  }

  // ---- It stays so ----

  ghost predicate RevokedStays(b: Budget, b': Budget) {
    && (forall s :: SessionEnded(b, s) ==> SessionEnded(b', s))
    && (forall k :: k in b.apiKeys ==> k in b'.apiKeys && b'.apiKeys[k].allocation == b.apiKeys[k].allocation && (b.apiKeys[k].revoked ==> b'.apiKeys[k].revoked))
    && (forall a :: a in b.allocations ==>
          a in b'.allocations && b'.allocations[a].grant == b.allocations[a].grant && (b.allocations[a].status == Revoked ==> b'.allocations[a].status == Revoked))
    && forall g :: g in b.grants ==> g in b'.grants && (b.grants[g].status == Closed ==> b'.grants[g].status == Closed)
  }

  lemma BarredStays(b: Budget, b': Budget, k: Id)
    requires RevokedStays(b, b') && KeyBarred(b, k)
    ensures KeyBarred(b', k)
  {
  }

  lemma StaysSelf(b: Budget)
    ensures RevokedStays(b, b)
  {
  }

  lemma StaysTwice(b0: Budget, b1: Budget, b2: Budget)
    requires RevokedStays(b0, b1) && RevokedStays(b1, b2)
    ensures RevokedStays(b0, b2)
  {
  }

  lemma MadeStays(db: DB, db': DB, m: Mutation)
    requires Made(db, db', m)
    ensures RevokedStays(db.budget, db'.budget)
  {
    hide Paid, Held, AsksFor, Balance;
    match m
    case AddAllocation(id, grant, requested, _, status, window) =>
    case FundGrantBy(grant, requested, _, _) =>
    case FundAllocationBy(allocation, requested, _, _) =>
    case AddKey(id, allocation, secretHash) =>
    case AddKeyForGrant(allocation, id, grant, requested, _, secretHash) =>
      var db1 :| AllocationMade(db, db1, allocation, grant, requested, Some(Active), Window(None, None)) && KeyMade(db1, db', id, allocation, secretHash);
      StaysTwice(db.budget, db1.budget, db'.budget);
  }

  lemma ManageStays(db: DB, key: string, fingerprint: Id, m: Mutation)
    requires WriteIdempotent(db, key, fingerprint, m).Ok?
    ensures RevokedStays(db.budget, WriteIdempotent(db, key, fingerprint, m).value.0.budget)
  {
    hide *;
    KeyedWrite(db, key, fingerprint, m);
    var (db', response) := WriteIdempotent(db, key, fingerprint, m).value;
    if key == "" {
      MadeStays(db, db', m);
    } else {
      var grant :| ScopedTo(db.budget, m, grant) && Kept(db, db', m, grant, key, Reply(fingerprint, response));
      KeptStays(db, db', m, grant, key, Reply(fingerprint, response));
    }
  }

  lemma KeptStays(db: DB, db': DB, m: Mutation, grant: Id, key: string, reply: Reply)
    requires Kept(db, db', m, grant, key, reply)
    ensures RevokedStays(db.budget, db'.budget)
  {
    hide Made, RevokedStays, Answers;
    StaysSelf(db.budget);
    if (grant, key) !in db.budget.replies {
      var db1 :| Made(db, db1, m) && Beside(db1, db', grant, key, reply);
      MadeStays(db, db1, m);
      BesideStays(db1, db', grant, key, reply);
      StaysTwice(db.budget, db1.budget, db'.budget);
    }
  }

  lemma BesideStays(db1: DB, db': DB, grant: Id, key: string, reply: Reply)
    requires Beside(db1, db', grant, key, reply)
    ensures RevokedStays(db1.budget, db'.budget)
  {
  }

  lemma GrantStays(db: DB, id: Id, amount: nat, currency: Option<Currency>, status: Option<GrantStatus>, window: Window)
    requires CreateGrant(db, id, amount, currency, status, window).Ok?
    ensures RevokedStays(db.budget, CreateGrant(db, id, amount, currency, status, window).value.budget)
  {
    CreatedGrant(db, id, amount, currency, status, window);
    hide CreateGrant, Paid;
  }

  lemma GrantSetStays(db: DB, id: Id, status: GrantStatus)
    requires Inv(db) && SetGrantStatus(db, id, status).Ok?
    ensures RevokedStays(db.budget, SetGrantStatus(db, id, status).value.budget)
  {
    hide *;
    GrantStatusSet(db, id, status);
    OneGrantStays(db.budget, id, status);
  }

  lemma OneGrantStays(b: Budget, id: Id, status: GrantStatus)
    requires id in b.grants && (b.grants[id].status == Closed ==> status == Closed)
    ensures RevokedStays(b, b.(grants := b.grants[id := b.grants[id].(status := status)]))
  {
  }

  lemma AllocationSetStays(db: DB, id: Id, status: AllocationStatus)
    requires Inv(db) && SetAllocationStatus(db, id, status).Ok?
    ensures RevokedStays(db.budget, SetAllocationStatus(db, id, status).value.budget)
  {
    hide *;
    AllocationStatusSet(db, id, status);
    SetAllocationStatusInv(db, id, status);
    NotReopened(db, id, status);
    var b' := SetAllocationStatus(db, id, status).value.budget;
    OneAllocationStays(db.budget, id, db.budget.allocations[id].(units := b'.allocations[id].units, status := status));
  }

  lemma NotReopened(db: DB, id: Id, status: AllocationStatus)
    requires Settable(db, id, status)
    ensures id in db.budget.allocations && (db.budget.allocations[id].status == Revoked ==> status == Revoked)
  {
  }

  lemma OneAllocationStays(b: Budget, id: Id, a: Allocation)
    requires id in b.allocations && a.grant == b.allocations[id].grant && (b.allocations[id].status == Revoked ==> a.status == Revoked)
    ensures RevokedStays(b, b.(allocations := b.allocations[id := a]))
  {
  }

  lemma AccessStays(db: DB, id: Id)
    ensures RevokeApiKey(db, id).Ok? ==> RevokedStays(db.budget, RevokeApiKey(db, id).value.budget)
    ensures RevokeSession(db, id).Ok? ==> RevokedStays(db.budget, RevokeSession(db, id).value.budget)
  {
    AccessRevoked(db, id);
  }

  lemma SignStays(db: DB, r: Request, clock: Clock, id: Id)
    requires Inv(db) && id !in db.budget.sessions && Commit(db, r, clock, id).Ok?
    ensures RevokedStays(db.budget, Commit(db, r, clock, id).value.0.budget)
  {
    hide *;
    Unique(db);
    CommitNeverCollides(db, r, clock, id);
    StaysSelf(db.budget);
    var db' := Commit(db, r, clock, id).value.0;
    if db' != db { NewSessionStays(db.budget, id, db'.budget.sessions[id]); }
  }

  lemma NewSessionStays(b: Budget, id: Id, s: Session)
    requires id !in b.sessions
    ensures RevokedStays(b, b.(sessions := b.sessions[id := s]))
  {
  }

  lemma ConsumeStays(db: DB, pos: Position, raw: Payload)
    requires Inv(db) && Ingest(db, pos, raw).Ok?
    ensures RevokedStays(db.budget, Ingest(db, pos, raw).value.budget)
  {
    hide *;
    IngestKeepsInv(db, pos, raw);
    StaysSelf(db.budget);
    if pos.offset == NextOf(db.usage, pos.partition) {
      RecordStays(db, Ingest(db, pos, raw).value, pos, RowFor(db, raw));
    }
  }

  lemma RecordStays(db: DB, db': DB, pos: Position, row: UsageRow)
    requires ChargeRecorded(db, db', pos, row) || Audited(db, db', pos, row)
    ensures RevokedStays(db.budget, db'.budget)
  {
    hide RowFee, ChargePosting, OnlyMatches, Held;
  }

  lemma NoChange(db: DB, op: Op)
    requires Exec(db, op).Err?
    ensures Next(db, op) == db
  {
    hide Exec;
  }

  /** No write undoes a revocation. */
  lemma StepStays(db: DB, op: Op)
    requires Inv(db) && Enabled(db, op)
    ensures RevokedStays(db.budget, Next(db, op).budget)
  {
    StaysSelf(db.budget);
    hide Inv, RevokedStays, CreateGrant, WriteIdempotent, SetGrantStatus, SetAllocationStatus, RevokeApiKey, RevokeSession, Commit, Ingest,
         BootstrapChain, ApplyChain, Rewind, FreshGrant, FreshMutation, ListsSettlements, ListsEvents, SetLag, Decoded;
    if Exec(db, op).Ok? {
      match op
      case NewGrant(id, amount, currency, status, window) => GrantStays(db, id, amount, currency, status, window);
      case Manage(key, fingerprint, mutation) => ManageStays(db, key, fingerprint, mutation);
      case SetGrant(id, status) => GrantSetStays(db, id, status);
      case SetAllocation(id, status) => AllocationSetStays(db, id, status);
      case DropKey(id) => AccessStays(db, id);
      case DropSession(id) => AccessStays(db, id);
      case Sign(request, clock, id) => SignStays(db, request, clock, id);
      case Consume(pos, raw) => ConsumeStays(db, pos, raw);
      case PublishLag(topic, lag) => LagStays(db, topic, lag);
      case _ => ChainOpFrame(db, op);
    }
  }

  lemma LagStays(db: DB, topic: Id, lag: KafkaLag.Lag)
    ensures SetLag(db, topic, lag).budget == db.budget
  {
  }

  /** Over whole runs. */
  lemma {:induction false} RevocationsStay(ops: seq<Op>, more: seq<Op>)
    requires Valid(EMPTY, ops + more)
    ensures RevokedStays(Run(EMPTY, ops).budget, Run(EMPTY, ops + more).budget)
  {
    hide *;
    if more == [] {
      assert ops + more == ops;
      StaysSelf(Run(EMPTY, ops).budget);
    } else {
      var front, last := more[..|more| - 1], more[|more| - 1];
      assert ops + more == ops + front + [last];
      RunSnoc(EMPTY, ops + front, last);
      RevocationsStay(ops, front);
      RunKeepsInv(ops + front);
      StepStays(Run(EMPTY, ops + front), last);
      StaysTwice(Run(EMPTY, ops).budget, Run(EMPTY, ops + front).budget, Run(EMPTY, ops + more).budget);
    }
  }

  // ---- Authorizations in flight ----

  predicate AnsweredWith(w: World, call: Id, s: Id) {
    call in w.calls && w.calls[call].phase == Phase.Answered(Allow(Some(s)))
  }

  predicate Settled(w: World, call: Id) {
    call in w.calls && w.calls[call].phase.Answered?
  }

  /** Neither the session nor the caller's key, with its allocation and grant, is revoked. */
  predicate InForce(b: Budget, r: Request, s: Id) {
    r.credential.Bearer? && !KeyBarred(b, r.credential.keyId) && !SessionEnded(b, s)
  }

  lemma DecidedInForce(db: DB, r: Request, clock: Clock, s: Id)
    requires Inv(db)
    ensures Decide(db, r, clock) == Allow(Some(s)) ==> InForce(db.budget, r, s)
    ensures Decide(db, r, clock) == Allow(None) && s !in db.budget.sessions ==> InForce(db.budget, r, s)
  {
    hide *;
    Unique(db);
    AllowedIff(db, r, clock, s);
    if Solvent(db, r, clock.now) {
      SolventBearer(db, r, clock.now);
      KeyInForce(db, r, clock.now);
      if Mine(db.budget, r, s) { MineInForce(db.budget, r, s); }
      if s !in db.budget.sessions { NewInForce(db.budget, r, s); }
    }
  }

  lemma KeyInForce(db: DB, r: Request, now: int)
    requires Solvent(db, r, now) && r.credential.Bearer?
    ensures !KeyBarred(db.budget, r.credential.keyId)
  {
    hide Empty, Asks, Purse, Within;
  }

  lemma MineInForce(b: Budget, r: Request, s: Id)
    requires r.credential.Bearer? && Mine(b, r, s) && !KeyBarred(b, r.credential.keyId)
    ensures InForce(b, r, s)
  {
    hide KeyBarred, Names;
  }

  lemma NewInForce(b: Budget, r: Request, s: Id)
    requires r.credential.Bearer? && s !in b.sessions && !KeyBarred(b, r.credential.keyId)
    ensures InForce(b, r, s)
  {
    hide KeyBarred;
  }

  lemma CommittedInForce(db: DB, r: Request, clock: Clock, id: Id, s: Id)
    requires Inv(db) && id !in db.budget.sessions && Commit(db, r, clock, id).Ok? && Commit(db, r, clock, id).value.1 == Allow(Some(s))
    ensures InForce(db.budget, r, s)
  {
    hide *;
    Unique(db);
    CommitNeverCollides(db, r, clock, id);
    if Decide(db, r, clock) == Allow(None) { CreatedSession(db, r, clock, id); }
    DecidedInForce(db, r, clock, s);
  }

  /** A call is answered on what is in force in the state that answers it. */
  lemma AnswerInForce(w: Races.World, step: Races.Step, call: Id, s: Id)
    requires RaceInv(w) && StepEnabled(w, step) && !Settled(w, call) && AnsweredWith(Races.Advance(w, step), call, s)
    ensures call in Races.Advance(w, step).calls && InForce(w.db.budget, Races.Advance(w, step).calls[call].request, s)
  {
    hide *;
    InvIn(w);
    HasAnswer(Races.Advance(w, step), call, s);
    AnswerIs(Races.Advance(w, step), call, s);
    Answering(w, step, call);
    match step
    case Read(c, clock) => DecidedInForce(w.db, w.calls[call].request, clock, s);
    case Lock(c, clock, id) => CommittedInForce(w.db, w.calls[call].request, clock, id, s);
    case _ =>
  }

  /** Only its own read or write answers a call, with what it decided. */
  lemma Answering(w: Races.World, step: Races.Step, call: Id)
    requires StepEnabled(w, step) && !Settled(w, call) && Settled(Races.Advance(w, step), call)
    ensures call in w.calls && call in Races.Advance(w, step).calls && Races.Advance(w, step).calls[call].request == w.calls[call].request
    ensures var phase := Races.Advance(w, step).calls[call].phase;
            match step
            case Read(_, clock) => phase == Phase.Answered(Decide(w.db, w.calls[call].request, clock))
            case Lock(_, clock, id) =>
              id !in w.db.budget.sessions &&
              var c := Commit(w.db, w.calls[call].request, clock, id);
              phase == Phase.Answered(if c.Ok? then c.value.1 else Failed)
            case _ => false
  {
    hide Decide, Commit, Next, Enabled;
  }

  lemma InvIn(w: Races.World)
    requires RaceInv(w)
    ensures Inv(w.db)
  {
    hide Inv, CreationsDiffer;
  }

  lemma RequestKept(w: Races.World, step: Races.Step, call: Id)
    ensures call in w.calls ==> call in Races.Advance(w, step).calls && Races.Advance(w, step).calls[call].request == w.calls[call].request
    ensures Settled(w, call) ==> call in w.calls && Races.Advance(w, step).calls[call] == w.calls[call]
  {
    hide Decide, Commit, Next;
  }

  lemma AdvanceStays(w: Races.World, step: Races.Step)
    requires RaceInv(w) && StepEnabled(w, step)
    ensures RevokedStays(w.db.budget, Races.Advance(w, step).db.budget)
  {
    hide *;
    InvIn(w);
    StaysSelf(w.db.budget);
    AdvanceWrites(w, step);
    match step
    case Lock(c, clock, id) =>
      if Races.Advance(w, step).db != w.db { SignStays(w.db, w.calls[c].request, clock, id); }
    case Other(op) => StepStays(w.db, op);
    case _ =>
  }

  /** What a step does to the database. */
  lemma AdvanceWrites(w: Races.World, step: Races.Step)
    requires StepEnabled(w, step)
    ensures var db' := Races.Advance(w, step).db;
            match step
            case Lock(c, clock, id) =>
              id !in w.db.budget.sessions &&
              (db' == w.db || (c in w.calls && Commit(w.db, w.calls[c].request, clock, id).Ok? && db' == Commit(w.db, w.calls[c].request, clock, id).value.0))
            case Other(op) => Enabled(w.db, op) && db' == Next(w.db, op)
            case _ => db' == w.db
  {
    hide Decide, Commit, Next, Enabled;
  }

  lemma {:induction false} RaceStays(steps: seq<Races.Step>, more: seq<Races.Step>)
    requires Fair(steps + more)
    ensures RevokedStays(Race(steps).db.budget, Race(steps + more).db.budget) && RaceInv(Race(steps + more))
  {
    hide *;
    RaceKeeps(steps + more);
    if more == [] {
      assert steps + more == steps;
      StaysSelf(Race(steps).db.budget);
    } else {
      var front := more[..|more| - 1];
      assert steps + more == steps + front + [more[|more| - 1]];
      RaceSnoc(steps + front, more[|more| - 1]);
      RaceStays(steps, front);
      AdvanceStays(Race(steps + front), more[|more| - 1]);
      StaysTwice(Race(steps).db.budget, Race(steps + front).db.budget, Race(steps + more).db.budget);
    }
  }

  lemma RaceSnoc(steps: seq<Races.Step>, step: Races.Step)
    ensures Race(steps + [step]) == Races.Advance(Race(steps), step)
    ensures Fair(steps + [step]) <==> Fair(steps) && StepEnabled(Race(steps), step)
  {
    hide StepEnabled, Races.Advance;
    assert (steps + [step])[..|steps|] == steps;
  }

  lemma ForceEarlier(b: Budget, b': Budget, r: Request, s: Id)
    requires RevokedStays(b, b') && InForce(b', r, s)
    ensures InForce(b, r, s)
  {
    if KeyBarred(b, r.credential.keyId) { BarredStays(b, b', r.credential.keyId); }
  }

  /**
   * However requests and writes interleave: a call that was not yet answered when
   * something was revoked is not allowed later on the strength of it. Its session had
   * not ended, its key was not revoked, its allocation was not revoked and its grant not
   * closed, at any point before the answer.
   */
  lemma {:induction false} NothingRestsOnRevoked(steps: seq<Races.Step>, more: seq<Races.Step>, call: Id, s: Id)
    requires Fair(steps + more) && !Settled(Race(steps), call) && AnsweredWith(Race(steps + more), call, s)
    ensures call in Race(steps + more).calls && InForce(Race(steps).db.budget, Race(steps + more).calls[call].request, s)
  {
    hide *;
    assert more == [] ==> steps + more == steps;
    HasAnswer(Race(steps + more), call, s);
    if more != [] {
      var front, step := more[..|more| - 1], more[|more| - 1];
      assert steps + more == steps + front + [step];
      RaceSnoc(steps + front, step);
      var w := Race(steps + front);
      RequestKept(w, step, call);
      if Settled(w, call) {
        SameAnswer(w, Race(steps + more), call, s);
        NothingRestsOnRevoked(steps, front, call, s);
      } else {
        RaceStays(steps, front);
        AnswerInForce(w, step, call, s);
        ForceEarlier(Race(steps).db.budget, w.db.budget, Race(steps + more).calls[call].request, s);
      }
    }
  }

  lemma AnswerIs(w: Races.World, call: Id, s: Id)
    requires AnsweredWith(w, call, s)
    ensures call in w.calls && w.calls[call].phase == Phase.Answered(Allow(Some(s)))
  {
  }

  lemma HasAnswer(w: Races.World, call: Id, s: Id)
    requires AnsweredWith(w, call, s)
    ensures call in w.calls && Settled(w, call)
  {
  }

  lemma SameAnswer(w: Races.World, v: Races.World, call: Id, s: Id)
    requires Settled(w, call) && call in v.calls && (call in w.calls ==> v.calls[call] == w.calls[call]) && AnsweredWith(v, call, s)
    ensures AnsweredWith(w, call, s)
  {
  }

  // ---- The four revocations ----

  /** The writes that revoke: of a key, a session, an allocation, or a whole grant. */
  datatype Revocation = OfKey(id: Id) | OfSession(id: Id) | OfAllocation(id: Id) | OfGrant(id: Id)

  function WriteOf(x: Revocation): Op {
    match x
    case OfKey(id) => DropKey(id)
    case OfSession(id) => DropSession(id)
    case OfAllocation(id) => SetAllocation(id, Revoked)
    case OfGrant(id) => SetGrant(id, Closed)
  }

  /** The answer rests on what was revoked: it is in that session, or by a key of it. */
  predicate RestsOn(b: Budget, x: Revocation, r: Request, s: Id) {
    match x
    case OfKey(id) => id in b.apiKeys && r.credential.Bearer? && r.credential.keyId == id
    case OfSession(id) => id in b.sessions && s == id
    case OfAllocation(id) => id in b.allocations && r.credential.Bearer? && r.credential.keyId in b.apiKeys && b.apiKeys[r.credential.keyId].allocation == id
    case OfGrant(id) =>
      id in b.grants && r.credential.Bearer? && r.credential.keyId in b.apiKeys &&
      var a := b.apiKeys[r.credential.keyId].allocation;
      a in b.allocations && b.allocations[a].grant == id
  }

  /** Whatever exists when its revocation is written is not in force afterwards. */
  lemma RevokedIsOut(db: DB, x: Revocation, r: Request, s: Id)
    requires Inv(db) && RestsOn(db.budget, x, r, s)
    ensures !InForce(Next(db, WriteOf(x)).budget, r, s)
  {
    hide *;
    match x
    case OfKey(id) => KeyOut(db, id, r, s);
    case OfSession(id) => SessionOut(db, id, r, s);
    case OfAllocation(id) => AllocationOut(db, id, r, s);
    case OfGrant(id) => GrantOut(db, id, r, s);
  }

  lemma KeyOut(db: DB, id: Id, r: Request, s: Id)
    requires RestsOn(db.budget, OfKey(id), r, s)
    ensures !InForce(Next(db, WriteOf(OfKey(id))).budget, r, s)
  {
    AccessRevoked(db, id);
    hide RevokeApiKey;
  }

  lemma SessionOut(db: DB, id: Id, r: Request, s: Id)
    requires RestsOn(db.budget, OfSession(id), r, s)
    ensures !InForce(Next(db, WriteOf(OfSession(id))).budget, r, s)
  {
    AccessRevoked(db, id);
    hide RevokeSession, KeyBarred;
  }

  lemma AllocationOut(db: DB, id: Id, r: Request, s: Id)
    requires Inv(db) && RestsOn(db.budget, OfAllocation(id), r, s)
    ensures !InForce(Next(db, WriteOf(OfAllocation(id))).budget, r, s)
  {
    hide *;
    AllocationHas(db.budget, id, r, s);
    SetAllocationStatusInv(db, id, Revoked);
    AlwaysRevocable(db, id);
    AllocationStatusSet(db, id, Revoked);
    RevokesIt(db, id);
    NextIs(db, WriteOf(OfAllocation(id)), SetAllocationStatus(db, id, Revoked));
    NotInForce(db.budget, id, SetAllocationStatus(db, id, Revoked).value.budget.allocations[id], r, s);
  }

  lemma AllocationHas(b: Budget, id: Id, r: Request, s: Id)
    requires RestsOn(b, OfAllocation(id), r, s)
    ensures id in b.allocations && r.credential.Bearer? && r.credential.keyId in b.apiKeys && b.apiKeys[r.credential.keyId].allocation == id
  {
  }

  lemma RevokesIt(db: DB, id: Id)
    ensures Exec(db, WriteOf(OfAllocation(id))) == SetAllocationStatus(db, id, Revoked)
  {
    hide SetAllocationStatus;
  }

  lemma NotInForce(b: Budget, id: Id, a: Allocation, r: Request, s: Id)
    requires id in b.allocations && r.credential.Bearer? && r.credential.keyId in b.apiKeys && b.apiKeys[r.credential.keyId].allocation == id
    requires a.status == Revoked
    ensures !InForce(b.(allocations := b.allocations[id := a]), r, s)
  {
  }

  lemma AlwaysRevocable(db: DB, id: Id)
    requires id in db.budget.allocations
    ensures Settable(db, id, Revoked)
  {
  }

  lemma GrantOut(db: DB, id: Id, r: Request, s: Id)
    requires Inv(db) && RestsOn(db.budget, OfGrant(id), r, s)
    ensures !InForce(Next(db, WriteOf(OfGrant(id))).budget, r, s)
  {
    hide *;
    GrantHas(db.budget, id, r, s);
    GrantStatusSet(db, id, Closed);
    ClosesIt(db, id);
    NextIs(db, WriteOf(OfGrant(id)), SetGrantStatus(db, id, Closed));
    ClosedOut(db.budget, id, r, s);
  }

  lemma GrantHas(b: Budget, id: Id, r: Request, s: Id)
    requires RestsOn(b, OfGrant(id), r, s)
    ensures id in b.grants && r.credential.Bearer? && r.credential.keyId in b.apiKeys
  {
  }

  lemma ClosesIt(db: DB, id: Id)
    ensures Exec(db, WriteOf(OfGrant(id))) == SetGrantStatus(db, id, Closed)
  {
    hide SetGrantStatus;
  }

  lemma ClosedOut(b: Budget, id: Id, r: Request, s: Id)
    requires id in b.grants && RestsOn(b, OfGrant(id), r, s)
    ensures !InForce(b.(grants := b.grants[id := b.grants[id].(status := Closed)]), r, s)
  {
  }

  /**
   * A revocation that is written while a call is unanswered is seen by it: the call is
   * not allowed later in a session, or by a key, that the revocation was about.
   */
  lemma RevokedGrantsNothing(steps: seq<Races.Step>, x: Revocation, more: seq<Races.Step>, call: Id, s: Id)
    requires Fair(steps + [Races.Other(WriteOf(x))] + more)
    requires !Settled(Race(steps), call) && AnsweredWith(Race(steps + [Races.Other(WriteOf(x))] + more), call, s)
    ensures var all := steps + [Races.Other(WriteOf(x))] + more;
            call in Race(all).calls && !RestsOn(Race(steps).db.budget, x, Race(all).calls[call].request, s)
  {
    hide *;
    var step := Races.Other(WriteOf(x));
    HasAnswer(Race(steps + [step] + more), call, s);
    RaceSnoc(steps, step);
    OtherSettlesNone(Race(steps), WriteOf(x), call);
    NothingRestsOnRevoked(steps + [step], more, call, s);
    FairFront(steps + [step], more);
    RaceKeeps(steps);
    InvIn(Race(steps));
    var r := Race(steps + [step] + more).calls[call].request;
    if RestsOn(Race(steps).db.budget, x, r, s) {
      RevokedIsOut(Race(steps).db, x, r, s);
      assert false;
    }
  }

  lemma OtherSettlesNone(w: Races.World, op: Op, call: Id)
    ensures Races.Advance(w, Races.Other(op)) == w.(db := Next(w.db, op))
    ensures Settled(Races.Advance(w, Races.Other(op)), call) == Settled(w, call)
  {
    hide Next;
  }

  lemma {:induction false} FairFront(steps: seq<Races.Step>, more: seq<Races.Step>)
    requires Fair(steps + more)
    ensures Fair(steps)
  {
    hide *;
    if more == [] {
      assert steps + more == steps;
    } else {
      var front := more[..|more| - 1];
      assert steps + more == steps + front + [more[|more| - 1]];
      RaceSnoc(steps + front, more[|more| - 1]);
      FairFront(steps, front);
    }
  }
}

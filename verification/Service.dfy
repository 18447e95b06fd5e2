/**
 * The running service: the chain listener polls while management, authorization, usage
 * ingestion and lag publications write to the same database, in any order.
 */
module Service {
  import opened Results
  import opened Blocks
  import opened Tables
  import opened Books
  import opened EscrowStore
  import opened EscrowSteps
  import opened Replay
  import opened Management
  import opened Ingestion
  import opened IngestSteps
  import opened Invariant
  import opened IngestKeeps
  import opened ManagementKeeps
  import opened Authorize
  import opened Idempotent
  import opened Runs
  import opened History
  import opened LogOrder
  import opened Listener
  import opened ListenerSteps
  import opened Convergence
  import R = Redemptions

  /** The listener is the only writer of the chain tables. */
  datatype Turn = Polls(view: View) | Writes(op: Op)

  predicate OffChainOp(op: Op) {
    !op.OpenChain? && !op.ApplyBlocks? && !op.Reorg?
  }

  function Take(db: DB, c: Config, turn: Turn): DB {
    match turn
    case Polls(v) => Advance(db, c, v).db
    case Writes(op) => Next(db, op)
  }

  ghost predicate Allowed(db: DB, c: Config, turn: Turn) {
    match turn
    case Polls(v) => HonestTurn(db, c, v)
    case Writes(op) => OffChainOp(op) && Enabled(db, op)
  }

  ghost function Serve(db: DB, c: Config, turns: seq<Turn>): DB {
    if turns == [] then db else Take(Serve(db, c, turns[..|turns| - 1]), c, turns[|turns| - 1])
  }

  ghost predicate AllAllowed(db: DB, c: Config, turns: seq<Turn>) {
    turns == [] ||
    (AllAllowed(db, c, turns[..|turns| - 1]) && Allowed(Serve(db, c, turns[..|turns| - 1]), c, turns[|turns| - 1]))
  }

  // ---- Polls keep the invariant of the whole database ----

  lemma OpeningInv(db: DB, c: Config, v: View)
    requires Inv(db)
    ensures Inv(OpenStep(db, c, v).db)
  {
    hide Inv, BootstrapChain;
    var next := if c.start.Some? then c.start.value else v.head;
    if OpeningAnchor(v, next).Some? { OpenInv(db, c.stream, OpeningAnchor(v, next).value, v.openings); }
  }

  lemma BatchInv(db: DB, c: Config, v: View, at: Checkpoint)
    requires Inv(db)
    ensures Inv(BatchStep(db, c, v, at.next, at.hash).db)
  {
    hide *;
    BatchUnchanged(db, c, v, at.next, at.hash);
    if BatchStep(db, c, v, at.next, at.hash).progress == Ok(true) {
      BatchDecoded(db, c, v, at);
      BatchApplied(db, c, v, at.next, at.hash);
      var fetched := Fetch(v, at.hash, at.next, BatchEnd(c, at.next, v.head - c.confirmations));
      var events := R.Correlate(DecodeAll(Gather(v.logs, fetched.value, at.next).value)).value;
      ApplyInv(db, c.stream, BlocksOf(fetched.value, at.next), events, c.lookback);
    }
  }

  lemma FollowInv(db: DB, c: Config, v: View, at: Checkpoint)
    requires Inv(db) && Honest(db, c, v, at)
    ensures Inv(FollowStep(db, c, v, at).db)
  {
    hide *;
    FollowShape(db, c, v, at);
    BatchInv(db, c, v, at);
    var blocks := ChainOf(db, c.stream).blocks;
    var found := FindAncestor(v, blocks, at.next - 1, at.next - 1 - c.lookback);
    if found.Ok? && found.value in blocks {
      HonestListings(db, c, v, at, found.value);
      ReorgInv(db, c.stream, Block(found.value, blocks[found.value]), v.settled, v.canonical);
    }
  }

  lemma AdvanceInv(db: DB, c: Config, v: View)
    requires Inv(db) && HonestTurn(db, c, v)
    ensures Inv(Advance(db, c, v).db)
  {
    hide Inv, FollowStep, OpenStep, Honest, HonestHeaders, ChainOf;
    var at := CheckpointOf(db, c.stream);
    if at.Some? {
      FollowInv(db, c, v, at.value);
    } else {
      OpeningInv(db, c, v);
      var opening := OpenStep(db, c, v);
      if opening.progress.Ok? && CheckpointOf(opening.db, c.stream).Some? {
        FollowInv(opening.db, c, v, CheckpointOf(opening.db, c.stream).value);
      }
    }
  }

  // ---- Other writes keep the stream synchronized ----

  lemma ManagedMatches(db: DB, op: Op)
    requires Inv(db) && Enabled(db, op)
    requires op.NewGrant? || op.Manage? || op.SetGrant? || op.SetAllocation? || op.DropKey? || op.DropSession? || op.Sign?
    ensures OnlyMatches(db.escrow, Next(db, op).escrow)
  {
    hide Inv, CreateGrant, WriteIdempotent, SetGrantStatus, SetAllocationStatus, RevokeApiKey, RevokeSession, Commit, FreshGrant, FreshMutation, SameBindings;
    if Exec(db, op).Ok? {
      match op {
        case NewGrant(id, amount, currency, status, window) => CreateGrantInv(db, id, amount, currency, status, window);
        case Manage(key, fingerprint, mutation) => WriteIdempotentInv(db, key, fingerprint, mutation);
        case SetGrant(id, status) => SetGrantStatusInv(db, id, status);
        case SetAllocation(id, status) => SetAllocationStatusInv(db, id, status);
        case DropKey(id) => RevokeKeyInv(db, id);
        case DropSession(id) => RevokeSessionInv(db, id);
        case Sign(request, clock, id) => CommitInv(db, request, clock, id);
      }
    }
  }

  lemma ConsumedMatches(db: DB, pos: Position, raw: Payload)
    requires Inv(db)
    ensures var r := Ingest(db, pos, raw);
            r.Ok? ==> OnlyMatches(db.escrow, r.value.escrow)
  {
    IngestKeepsInv(db, pos, raw);
    hide Inv, Ingest, RowFor, OnlyMatches, Held, AppliedRow, Spent, ChargePosting, ValidPosition, NextOf;
    MatchesOfSelf(db.escrow);
  }

  lemma MatchesOfSelf(e: Escrow)
    ensures OnlyMatches(e, e)
  {
  }

  lemma OffChainMatches(db: DB, op: Op)
    requires Inv(db) && OffChainOp(op) && Enabled(db, op)
    ensures OnlyMatches(db.escrow, Next(db, op).escrow)
  {
    MatchesOfSelf(db.escrow);
    hide Inv, OnlyMatches, CreateGrant, WriteIdempotent, SetGrantStatus, SetAllocationStatus, RevokeApiKey, RevokeSession, Commit, Ingest, FreshGrant, FreshMutation;
    match op
    case Consume(pos, raw) => ConsumedMatches(db, pos, raw);
    case PublishLag(topic, lag) =>
    case _ => ManagedMatches(db, op);
  }

  lemma MatchesSynced(db: DB, db': DB, stream: Id, anchor: int, at: Checkpoint)
    requires Synced(db, stream, anchor, at) && EscrowInv(db') && OnlyMatches(db.escrow, db'.escrow)
    ensures Synced(db', stream, anchor, at)
  {
    hide Synced, EscrowInv;
    OtherWritesSynced(db, db', stream, anchor, at);
  }

  lemma MatchesBlank(db: DB, db': DB, stream: Id)
    requires Blank(db, stream) && EscrowInv(db') && OnlyMatches(db.escrow, db'.escrow)
    ensures Blank(db', stream)
  {
    hide EscrowInv;
    assert db'.escrow.settlements == map[];
  }

  lemma WriteFollows(db: DB, c: Config, op: Op)
    requires Inv(db) && Following(db, c) && OffChainOp(op) && Enabled(db, op)
    ensures Inv(Next(db, op)) && Following(Next(db, op), c)
  {
    hide Inv, Synced, Blank, EscrowInv, OnlyMatches, Enabled, Next;
    StepKeepsInv(db, op);
    EscrowOf(Next(db, op));
    OffChainMatches(db, op);
    if Blank(db, c.stream) {
      MatchesBlank(db, Next(db, op), c.stream);
    } else {
      var anchor, at :| Synced(db, c.stream, anchor, at);
      MatchesSynced(db, Next(db, op), c.stream, anchor, at);
    }
  }

  // ---- Any run of the service ----

  lemma {:induction false} ServeKeeps(db: DB, c: Config, turns: seq<Turn>)
    requires Inv(db) && Following(db, c) && ValidConfig(c) && AllAllowed(db, c, turns)
    ensures Inv(Serve(db, c, turns)) && Following(Serve(db, c, turns), c)
  {
    hide Inv, Following, ValidConfig, HonestTurn, Advance, Enabled, Next, OffChainOp;
    if turns != [] {
      var before, turn := Serve(db, c, turns[..|turns| - 1]), turns[|turns| - 1];
      ServeKeeps(db, c, turns[..|turns| - 1]);
      match turn {
        case Polls(v) => AdvanceInv(before, c, v); AdvanceFollows(before, c, v);
        case Writes(op) => WriteFollows(before, c, op);
      }
    }
  }

  lemma EmptyIsBlank(stream: Id)
    ensures Inv(EMPTY) && Blank(EMPTY, stream)
  {
    EmptyInv();
    EscrowOf(EMPTY);
    hide Inv, EscrowInv, ZEROES;
  }

  /**
   * From the empty database, whatever the other feeds write between polls and however
   * the canonical chain moves, the whole invariant holds, and once the stream is open
   * every sender's balances are those of replaying the checkpoint's chain from the
   * opening snapshot, with no escrow balance below zero.
   */
  lemma ServedBalances(c: Config, turns: seq<Turn>, sender: Id)
    requires ValidConfig(c) && AllAllowed(EMPTY, c, turns)
    ensures var end := Serve(EMPTY, c, turns);
            && Inv(end)
            && (CheckpointOf(end, c.stream).Some? ==>
                  Solvent(HeldPool(end, sender)) &&
                  exists anchor :: OneAnchor(end.escrow, c.stream, anchor) &&
                    Fold(OpeningPool(end.escrow, sender), Past(CheckpointOf(end, c.stream).value.hash, anchor), sender) == Ok(HeldPool(end, sender)))
  {
    hide Inv, Blank, Synced, ValidConfig, AllAllowed, Serve, Fold, HeldPool, Past, ChainOf, OneAnchor, ZEROES;
    EmptyIsBlank(c.stream);
    ServeKeeps(EMPTY, c, turns);
    var end := Serve(EMPTY, c, turns);
    if CheckpointOf(end, c.stream).Some? { FollowingBalances(end, c, sender); }
  }
}

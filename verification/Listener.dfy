/**
 * One step of the chain listener (Step in internal/chain/listener.go:360-542): resume
 * from the checkpoint, rewind to a common ancestor if the stored tip was orphaned, or
 * apply the next batch of confirmed blocks.
 */
module Listener {
  import opened Results
  import opened Blocks
  import opened Tables
  import opened EscrowStore
  import opened EscrowSteps
  import opened Replay
  import opened History
  import opened LogOrder
  import R = Redemptions

  // ---- Configuration and the RPC's answers ----

  datatype Config = Config(stream: Id, start: Option<int>, lookback: int, confirmations: int, batchSize: int)

  /** Config.Validate, for the bounds. */
  predicate ValidConfig(c: Config) {
    c.confirmations >= 0 && c.batchSize > 0 && c.lookback >= 1 && (c.start.Some? ==> c.start.value >= 0)
  }

  /**
   * What one step is answered: the head, headers by number, the opening balances, the
   * logs of its filter, the last header read again, and the listings a rewind's
   * queries return.
   */
  datatype View = View(
    head: int, headers: map<int, Hash>, openings: seq<Opening>, anchorAgain: Option<Hash>,
    logs: seq<Answer>, lastAgain: Option<Hash>, settled: seq<LogId>, canonical: seq<LogId>)

  datatype StepError =
    | RpcError | Canonicality | BadLogs(log: LogError) | Decoding(grammar: R.GrammarError) | Database(error: Error) | ReorgTooDeep | SnapshotBoundary

  /** The state a step leaves, and whether it made progress. */
  datatype Step = Step(db: DB, progress: Result<bool, StepError>)

  /** header: the RPC must answer with the block of that number. */
  function Header(v: View, n: int): Option<Hash> {
    if n in v.headers && v.headers[n].Hash? && v.headers[n].number == n then Some(v.headers[n]) else None
  }

  function CheckpointOf(db: DB, stream: Id): Option<Checkpoint> { ChainOf(db, stream).checkpoint }

  // ---- Opening ----

  function OpeningAnchor(v: View, next: int): Option<Block> {
    if next <= 0 then Some(Block(next - 1, NoHash))
    else if Header(v, next - 1).None? then None
    else Some(Block(next - 1, Header(v, next - 1).value))
  }

  /** The first start of a stream: opening snapshots at the block before the first scanned one. */
  function OpenStep(db: DB, c: Config, v: View): Step {
    var next := if c.start.Some? then c.start.value else v.head;
    var anchor := OpeningAnchor(v, next);
    if anchor.None? then Step(db, Err(RpcError))
    else if anchor.value.number >= 0 && v.anchorAgain.None? then Step(db, Err(RpcError))
    else if anchor.value.number >= 0 && v.anchorAgain.value != anchor.value.hash then Step(db, Err(Canonicality))
    else
      var r := BootstrapChain(db, c.stream, anchor.value, v.openings);
      if r.Err? then Step(db, Err(Database(r.error))) else Step(r.value, Ok(true))
  }

  // ---- Reorgs ----

  /** Walks the stored blocks down from n until one is canonical. */
  function FindAncestor(v: View, blocks: map<int, Hash>, n: int, floor: int): Result<int, StepError>
    decreases n - floor + 1
  {
    if n < floor || n < 0 then Err(ReorgTooDeep)
    else if n !in blocks then FindAncestor(v, blocks, n - 1, floor)
    else if Header(v, n).None? then Err(RpcError)
    else if Header(v, n).value == blocks[n] then Ok(n)
    else FindAncestor(v, blocks, n - 1, floor)
  }

  function ReorgStep(db: DB, c: Config, v: View, next: int): Step {
    var blocks := ChainOf(db, c.stream).blocks;
    var found := FindAncestor(v, blocks, next - 1, next - 1 - c.lookback);
    if found.Err? then Step(db, Err(found.error))
    else if found.value !in blocks then Step(db, Err(ReorgTooDeep))
    else
      var r := Rewind(db, c.stream, Block(found.value, blocks[found.value]), v.settled, v.canonical);
      if r.Err? then Step(db, Err(if r.error == SnapshotReorg then SnapshotBoundary else Database(r.error))) else Step(r.value, Ok(true))
  }

  // ---- Batches ----

  /** Every header of the batch was answered. */
  predicate Answered(v: View, n: int, end: int) {
    forall m :: n <= m <= end ==> Header(v, m).Some?
  }

  /** Headers n to end, each the child of the one before; the first of prev, unless that is before genesis. */
  function Chained(v: View, prev: Hash, n: int, end: int): Result<seq<Hash>, StepError>
    decreases end - n + 1
  {
    if n > end then Ok([])
    else if Header(v, n).None? then Err(RpcError)
    else if prev != NoHash && Header(v, n).value.parent != prev then Err(Canonicality)
    else
      var rest :- Chained(v, Header(v, n).value, n + 1, end);
      Ok([Header(v, n).value] + rest)
  }

  /** All headers are read before any parent link is checked. */
  function Fetch(v: View, prev: Hash, n: int, end: int): Result<seq<Hash>, StepError> {
    if !Answered(v, n, end) then Err(RpcError) else Chained(v, prev, n, end)
  }

  function BlocksOf(hashes: seq<Hash>, from: int): (blocks: seq<Block>)
    ensures |blocks| == |hashes| && forall i :: 0 <= i < |hashes| ==> blocks[i] == Block(from + i, hashes[i])
  {
    seq(|hashes|, i requires 0 <= i < |hashes| => Block(from + i, hashes[i]))
  }

  function BatchEnd(c: Config, next: int, confirmed: int): int {
    if c.batchSize - 1 < confirmed - next then next + c.batchSize - 1 else confirmed
  }

  function BatchStep(db: DB, c: Config, v: View, next: int, hash: Hash): Step {
    var confirmed := v.head - c.confirmations;
    if confirmed < next then Step(db, Ok(false)) else
      var end := BatchEnd(c, next, confirmed);
      var fetched := Fetch(v, hash, next, end);
      if fetched.Err? then Step(db, Err(fetched.error))
      else
        var logs := Gather(v.logs, fetched.value, next);
        if logs.Err? then Step(db, Err(BadLogs(logs.error))) else
        var events := R.Correlate(DecodeAll(logs.value));
        if events.Err? then Step(db, Err(Decoding(events.error)))
        else if v.lastAgain.None? then Step(db, Err(RpcError))
        else if fetched.value == [] || v.lastAgain.value != fetched.value[|fetched.value| - 1] then Step(db, Err(Canonicality))
        else
          var r := ApplyChain(db, c.stream, BlocksOf(fetched.value, next), events.value, c.lookback);
          if r.Err? then Step(db, Err(Database(r.error))) else Step(r.value, Ok(true))
  }

  /** A step with a checkpoint in place. */
  function FollowStep(db: DB, c: Config, v: View, at: Checkpoint): Step {
    if at.next > 0 then
      if Header(v, at.next - 1).None? then Step(db, Err(RpcError))
      else if Header(v, at.next - 1).value != at.hash then ReorgStep(db, c, v, at.next)
      else BatchStep(db, c, v, at.next, at.hash)
    else BatchStep(db, c, v, at.next, at.hash)
  }

  function Advance(db: DB, c: Config, v: View): Step {
    var at := CheckpointOf(db, c.stream);
    if at.Some? then FollowStep(db, c, v, at.value) else
      var opening := OpenStep(db, c, v);
      if opening.progress.Err? || CheckpointOf(opening.db, c.stream).None? then opening
      else FollowStep(opening.db, c, v, CheckpointOf(opening.db, c.stream).value)
  }

  // ---- The ancestor search ----

  /** The search returns the highest stored block that is canonical. */
  lemma {:induction false} AncestorIsHighest(v: View, blocks: map<int, Hash>, n: int, floor: int)
    requires FindAncestor(v, blocks, n, floor).Ok?
    ensures var a := FindAncestor(v, blocks, n, floor).value;
            && floor <= a <= n && 0 <= a && a in blocks && Header(v, a) == Some(blocks[a])
            && forall m :: a < m <= n && m in blocks ==> Header(v, m) != Some(blocks[m])
    decreases n - floor + 1
  {
    if n !in blocks || Header(v, n) != Some(blocks[n]) { AncestorIsHighest(v, blocks, n - 1, floor); }
  }

  /** It finds one if there is one to find, and every header on the way is answered. */
  lemma {:induction false} AncestorFound(v: View, blocks: map<int, Hash>, n: int, floor: int, a: int)
    requires floor <= a <= n && 0 <= a && a in blocks && Header(v, a) == Some(blocks[a])
    requires forall m :: a <= m <= n ==> Header(v, m).Some?
    ensures FindAncestor(v, blocks, n, floor).Ok?
    decreases n - floor + 1
  {
    if n != a && (n !in blocks || Header(v, n).value != blocks[n]) { AncestorFound(v, blocks, n - 1, floor, a); }
  }

  // ---- The synchronized state ----

  predicate TipOf(at: Checkpoint) {
    if at.next == 0 then at.hash == NoHash else at.next > 0 && at.hash.Hash? && at.hash.number == at.next - 1
  }

  /** The retained blocks are an interval that ends at the tip, all on its chain. */
  predicate Retained(blocks: map<int, Hash>, at: Checkpoint, anchor: int) {
    && (forall n :: n in blocks ==> 0 <= n && anchor <= n < at.next && blocks[n] == At(at.hash, n))
    && (forall n, m :: n in blocks && n <= m < at.next ==> m in blocks)
    && (at.next > 0 ==> at.next - 1 in blocks)
  }

  /** Every row ever written is an event of the block its identity names. */
  ghost predicate RowsFromChain(e: Escrow) {
    && (forall id :: id in e.events ==>
          ValidBlock(id.blockHash) && exists ev :: ev in BlockEvents(id.blockHash) && ev.log == id && e.events[id].data == EventDataOf(ev))
    && forall id :: id in e.settlements ==>
         ValidBlock(id.blockHash) &&
         exists ev :: ev in BlockEvents(id.blockHash) && ev.log == id && ev.settlement.Some? && e.settlements[id].data == SettlementDataOf(ev.settlement.value)
  }

  ghost predicate OneAnchor(e: Escrow, stream: Id, anchor: int) {
    && (exists k :: k in e.snapshots && k.0 == stream)
    && forall k :: k in e.snapshots && k.0 == stream ==> e.snapshots[k].anchor == anchor
  }

  /** The database follows the chain of its checkpoint from the opening anchor on. */
  ghost predicate Synced(db: DB, stream: Id, anchor: int, at: Checkpoint) {
    && EscrowInv(db) && CheckpointOf(db, stream) == Some(at)
    && anchor >= -1 && at.next - 1 >= anchor && TipOf(at) && Linked(at.hash) && ValidChain(at.hash)
    && Retained(ChainOf(db, stream).blocks, at, anchor)
    && OneAnchor(db.escrow, stream, anchor)
    && Replays(db.escrow, Past(at.hash, anchor))
    && RowsFromChain(db.escrow)
  }

  /** Nothing of the chain has been stored yet. */
  ghost predicate Blank(db: DB, stream: Id) {
    && EscrowInv(db) && CheckpointOf(db, stream).None? && ChainOf(db, stream).blocks == map[]
    && db.escrow.events == map[] && db.escrow.settlements == map[] && forall k :: k in db.escrow.snapshots ==> k.0 != stream
  }

  // ---- Honest answers ----

  /** Every header answered is a valid block with a linked, valid past. */
  ghost predicate HonestHeaders(v: View) {
    forall n :: n in v.headers ==> Linked(v.headers[n]) && ValidChain(v.headers[n])
  }

  /**
   * The filter answers for the fetched blocks: if their last header reads the same
   * before and after it, the logs are those of the blocks, in any order and repeated at
   * will.
   */
  ghost predicate HonestLogs(c: Config, v: View, at: Checkpoint) {
    v.head - c.confirmations >= at.next ==>
      var fetched := Fetch(v, at.hash, at.next, BatchEnd(c, at.next, v.head - c.confirmations));
      fetched.Ok? && fetched.value != [] && v.lastAgain == Some(fetched.value[|fetched.value| - 1]) ==> Complete(v.logs, fetched.value)
  }

  /** The listings are those of a rewind to the ancestor the search finds. */
  ghost predicate RightListings(db: DB, c: Config, v: View, at: Checkpoint) {
    forall a :: a in ChainOf(db, c.stream).blocks && FindAncestor(v, ChainOf(db, c.stream).blocks, at.next - 1, at.next - 1 - c.lookback) == Ok(a) ==>
      ListsSettlements(db, v.settled, a) && ListsEvents(db, v.canonical, a)
  }

  /** What a step needs of its view beyond what it checks itself. */
  ghost predicate Honest(db: DB, c: Config, v: View, at: Checkpoint) {
    v.head >= 0 && HonestHeaders(v) && HonestLogs(c, v, at) && RightListings(db, c, v, at)
  }
}

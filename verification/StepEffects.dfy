/**
 * How far one listener step goes (Step in internal/chain/listener.go:360-542): where a
 * stream starts, how many blocks a batch takes, and which of them are kept.
 */
module StepEffects {
  import opened Results
  import opened Blocks
  import opened Tables
  import opened EscrowStore
  import opened EscrowSteps
  import opened Reorgs
  import opened History
  import opened LogOrder
  import opened Listener
  import R = Redemptions
  import P = Payments
  import opened Openings
  import opened ChainEffects

  /** The headers the step was answered for n to end, each under its own number. */
  lemma {:induction false} HeadersFetched(v: View, prev: Hash, n: int, end: int)
    requires n <= end + 1 && Chained(v, prev, n, end).Ok?
    ensures var hs := Chained(v, prev, n, end).value;
            |hs| == end - n + 1 && forall i :: 0 <= i < |hs| ==> Header(v, n + i) == Some(hs[i])
    decreases end - n + 1
  {
    if n <= end {
      HeadersFetched(v, Header(v, n).value, n + 1, end);
      hide Header;
      var hs := Chained(v, prev, n, end).value;
      var rest := Chained(v, Header(v, n).value, n + 1, end).value;
      forall i | 0 <= i < |hs| ensures Header(v, n + i) == Some(hs[i]) {
        if i > 0 { assert Header(v, n + 1 + (i - 1)) == Some(rest[i - 1]); }
      }
    }
  }

  /** As many blocks as a batch may take, or all that are confirmed if they are fewer. */
  predicate TakesAMany(c: Config, v: View, at: Checkpoint, taken: int) {
    var confirmed := v.head - c.confirmations - at.next + 1;
    taken == if c.batchSize <= confirmed then c.batchSize else confirmed
  }

  /**
   * A step that applies blocks takes the next ones, as many as the batch size or as are
   * confirmed, whichever is fewer; its checkpoint is the last of them, and of all blocks
   * it keeps those within the lookback. With nothing newly confirmed it does nothing.
   */
  lemma BatchAdvances(db: DB, c: Config, v: View, at: Checkpoint)
    requires EscrowInv(db) && ValidConfig(c)
    ensures var s := BatchStep(db, c, v, at.next, at.hash);
            && (s.progress == Ok(false) <==> v.head - c.confirmations < at.next)
            && (s.progress != Ok(true) ==> s.db == db)
            && (s.progress == Ok(true) ==> exists taken :: TakesAMany(c, v, at, taken) && taken > 0 && Advanced(db, s.db, c, v, at, taken))
  {
    hide EscrowInv, Gather, DecodeAll, ApplyChain, Header, Answered, Chained;
    var s := BatchStep(db, c, v, at.next, at.hash);
    if s.progress == Ok(true) {
      var confirmed := v.head - c.confirmations;
      var end := BatchEnd(c, at.next, confirmed);
      var hs := Fetch(v, at.hash, at.next, end).value;
      HeadersFetched(v, at.hash, at.next, end);
      var events := R.Correlate(DecodeAll(Gather(v.logs, hs, at.next).value)).value;
      AllDecoded(v, hs, at.next);
      BatchLeaves(db, c.stream, BlocksOf(hs, at.next), events, c.lookback);
      assert TakesAMany(c, v, at, |hs|);
      BatchAdvanced(db, s.db, c, v, at, hs);
    }
  }

  lemma AllDecoded(v: View, hs: seq<Hash>, next: int)
    requires Gather(v.logs, hs, next).Ok? && R.Correlate(DecodeAll(Gather(v.logs, hs, next).value)).Ok?
    ensures forall e :: e in R.Correlate(DecodeAll(Gather(v.logs, hs, next).value)).value ==> Decoded(e)
  {
    var events := DecodeAll(Gather(v.logs, hs, next).value);
    P.OutputsExplained(events);
    hide Gather, DecodeAll, R.Correlate, P.PaidBefore, P.ClaimedBefore;
    var out := R.Correlate(events).value;
    forall e | e in out ensures Decoded(e) {
      var i :| 0 <= i < |out| && out[i] == e;
      assert P.Explained(events, i, out[i]) && Decoded(events[i]);
    }
  }

  /** The checkpoint is taken blocks further, and every kept new block is the one answered for its number. */
  ghost predicate Advanced(db: DB, db': DB, c: Config, v: View, at: Checkpoint, taken: int) {
    var e, e' := db.escrow, db'.escrow;
    var next := at.next + taken;
    && c.stream in e'.chains && e'.chains[c.stream].checkpoint.Some?
    && e'.chains[c.stream].checkpoint.value.next == next && Header(v, next - 1) == Some(e'.chains[c.stream].checkpoint.value.hash)
    && var before := if c.stream in e.chains then e.chains[c.stream].blocks else map[];
    && var blocks := e'.chains[c.stream].blocks;
    && (forall n :: n in blocks <==> next - 1 - c.lookback <= n && (n in before || at.next <= n < next))
    && (forall n :: n in blocks && at.next <= n < next ==> Header(v, n) == Some(blocks[n]))
    && forall n :: n in blocks && !(at.next <= n < next) ==> n in before && blocks[n] == before[n]
  }

  lemma BatchAdvanced(db: DB, db': DB, c: Config, v: View, at: Checkpoint, hs: seq<Hash>)
    requires hs != [] && forall i :: 0 <= i < |hs| ==> Header(v, at.next + i) == Some(hs[i])
    requires ChainMoved(db.escrow, db'.escrow, c.stream, BlocksOf(hs, at.next), c.lookback)
    ensures Advanced(db, db', c, v, at, |hs|)
  {
    hide Header, StoredBlock, Numbered;
    var before := if c.stream in db.escrow.chains then db.escrow.chains[c.stream].blocks else map[];
    var blocks := db'.escrow.chains[c.stream].blocks;
    forall n ensures Numbered(BlocksOf(hs, at.next), n) <==> at.next <= n < at.next + |hs| { BatchNumbered(hs, at.next, n); }
    forall n | n in blocks
      ensures if at.next <= n < at.next + |hs| then Header(v, n) == Some(blocks[n]) else n in before && blocks[n] == before[n]
    {
      StoredIn(before, hs, at.next, n, blocks[n]);
      if at.next <= n < at.next + |hs| { assert Header(v, at.next + (n - at.next)) == Some(hs[n - at.next]); }
    }
    assert Header(v, at.next + (|hs| - 1)) == Some(hs[|hs| - 1]);
  }

  lemma BatchNumbered(hs: seq<Hash>, next: int, n: int)
    ensures Numbered(BlocksOf(hs, next), n) <==> next <= n < next + |hs|
  {
    if next <= n < next + |hs| { assert BlocksOf(hs, next)[n - next].number == n; }
  }

  lemma StoredIn(before: map<int, Hash>, hs: seq<Hash>, next: int, n: int, hash: Hash)
    requires StoredBlock(before, BlocksOf(hs, next), n, hash)
    ensures if next <= n < next + |hs| then hash == hs[n - next] else n in before && hash == before[n]
  {
    if next <= n < next + |hs| { assert BlocksOf(hs, next)[n - next].number == n; }
  }

  /**
   * A stream opens at the configured start, or at the head without one: the checkpoint
   * is the block before it, and the balances answered there are stored.
   */
  lemma OpeningStarts(db: DB, c: Config, v: View)
    requires EscrowInv(db) && ValidConfig(c) && v.head >= 0 && OpenStep(db, c, v).progress.Ok?
    ensures var db' := OpenStep(db, c, v).db;
            var next := if c.start.Some? then c.start.value else v.head;
            && OpenStep(db, c, v).progress == Ok(true) && CheckpointOf(db', c.stream).Some?
            && var at := CheckpointOf(db', c.stream).value;
            && at.next == next && (if next == 0 then at.hash == NoHash else Header(v, next - 1) == Some(at.hash) && v.anchorAgain == Some(at.hash))
            && (forall o :: o in v.openings ==> OpenedWith(db, db', c.stream, Block(next - 1, at.hash), o))
            && OthersKept(db, db', c.stream, v.openings)
  {
    hide EscrowInv, BootstrapChain, Header, OpenedWith, OthersKept;
    var next := if c.start.Some? then c.start.value else v.head;
    OpeningsAreStored(db, c.stream, OpeningAnchor(v, next).value, v.openings);
  }
}

/**
 * The listener converges: against a fixed valid chain that shares a retained block with
 * the stored one, steps rewind to the highest common block and then catch up with every
 * confirmed block.
 */
module Convergence {
  import opened Results
  import opened Blocks
  import opened Tables
  import opened EscrowStore
  import opened EscrowSteps
  import opened Reorgs
  import opened Rewinds
  import opened Bootstrap
  import opened Replay
  import opened ReplaySteps
  import opened History
  import opened LogOrder
  import opened Listener
  import opened ListenerSteps
  import R = Redemptions

  // ---- Batches of valid events are accepted ----

  lemma UniqueInBlock(h: Hash, a: Event, b: Event)
    requires ValidBlock(h) && a in BlockEvents(h) && b in BlockEvents(h) && a.log == b.log
    ensures a == b
  {
    BlockEventsMeaning(h);
    IndicesDiffer(h);
    hide ValidBlock, BlockEvents;
    var events := BlockEvents(h);
    var i :| 0 <= i < |events| && events[i] == a;
    var j :| 0 <= j < |events| && events[j] == b;
  }

  lemma IndicesDiffer(h: Hash)
    requires ValidBlock(h)
    ensures forall i, j :: 0 <= i < |h.logs| && 0 <= j < |h.logs| && h.logs[i].logIndex == h.logs[j].logIndex ==> i == j
  {
    forall i, j | 0 <= i < j < |h.logs| ensures h.logs[i].logIndex != h.logs[j].logIndex { }
  }

  /** A stored row cannot contradict an event of its block. */
  lemma StoredRowsMatch(db: DB, e: Event)
    requires RowsFromChain(db.escrow) && ValidBlock(e.log.blockHash) && e in BlockEvents(e.log.blockHash)
    ensures SameEvent(db, e)
    ensures e.settlement.Some? && e.settlement.value.log == e.log ==> SameSettlement(db, e.settlement.value)
  {
    hide ValidBlock, BlockEvents;
    if e.log in db.escrow.events {
      var ev :| ev in BlockEvents(e.log.blockHash) && ev.log == e.log && db.escrow.events[e.log].data == EventDataOf(ev);
      UniqueInBlock(e.log.blockHash, ev, e);
    }
    if e.log in db.escrow.settlements {
      var ev :| ev in BlockEvents(e.log.blockHash) && ev.log == e.log && ev.settlement.Some? &&
                db.escrow.settlements[e.log].data == SettlementDataOf(ev.settlement.value);
      UniqueInBlock(e.log.blockHash, ev, e);
    }
  }

  lemma EventAccepted(db: DB, history: seq<Event>, e: Event)
    requires EscrowInv(db) && Replays(db.escrow, history) && RowsFromChain(db.escrow)
    requires Decoded(e) && InOrder(history + [e]) && ValidBlock(e.log.blockHash) && e in BlockEvents(e.log.blockHash)
    requires Fold(OpeningPool(db.escrow, e.sender), history + [e], e.sender).Ok?
    ensures ApplyEvent(db, e).Ok?
  {
    hide EscrowInv, RowsFromChain, ValidBlock, BlockEvents, FoldsOk, ApplyEvent, Turn, Applicable, OpeningPool, SameSettlement;
    StoredRowsMatch(db, e);
    NotInHistory(db.escrow, history, e);
    InvParts(db);
    BalancesAreReplayed(db, history, e.sender);
    FoldLast(OpeningPool(db.escrow, e.sender), history, e);
    AcceptedIsTurn(db, e);
    ApplyEventKeeps(db, e);
  }

  lemma FoldLast(start: Pool, history: seq<Event>, e: Event)
    requires Fold(start, history + [e], e.sender).Ok?
    ensures Fold(start, history, e.sender).Ok? && Turn(Fold(start, history, e.sender).value, e, e.sender).Ok?
  {
    assert (history + [e])[..|history|] == history;
  }

  lemma {:induction false} EventsAccepted(db: DB, history: seq<Event>, events: seq<Event>)
    requires EscrowInv(db) && Replays(db.escrow, history) && RowsFromChain(db.escrow)
    requires (forall e :: e in events ==> Decoded(e)) && OnTheirBlocks(events) && InOrder(history + events)
    requires FoldsOk(db.escrow, history + events)
    ensures ApplyEvents(db, events).Ok?
  {
    hide EscrowInv, RowsFromChain, ValidBlock, BlockEvents, ApplyEvent, Decoded, Replays, FoldsOk;
    if events != [] {
      var front, last := events[..|events| - 1], events[|events| - 1];
      assert last in events;
      assert history + events == history + front + [last];
      InOrderFront(history + front, last);
      FoldsFront(db.escrow, history + front, last);
      EventsAccepted(db, history, front);
      var db1 := ApplyEvents(db, front).value;
      ApplyEventsReplay(db, history, front);
      EventsRows(db, front);
      FoldsAt(db.escrow, db1.escrow, history + front + [last], last.sender);
      EventAccepted(db1, history + front, last);
    }
  }

  lemma InOrderFront(history: seq<Event>, e: Event)
    requires InOrder(history + [e])
    ensures InOrder(history)
  {
    forall i, j | 0 <= i < j < |history| ensures Before(history[i], history[j]) {
      assert Before((history + [e])[i], (history + [e])[j]);
    }
  }

  lemma FoldsFront(e: Escrow, history: seq<Event>, last: Event)
    requires FoldsOk(e, history + [last])
    ensures FoldsOk(e, history)
  {
    assert (history + [last])[..|history|] == history;
    FoldsPrefix(e, e, history + [last], |history|);
  }

  lemma FoldsAt(e: Escrow, e': Escrow, history: seq<Event>, sender: Id)
    requires FoldsOk(e, history) && e'.snapshots == e.snapshots
    ensures Fold(OpeningPool(e', sender), history, sender).Ok?
  {
    assert OpeningPool(e', sender) == OpeningPool(e, sender);
  }

  // ---- The fixed chain ----

  /** A view of one chain, complete for the batch after this checkpoint. */
  ghost predicate ViewOf(v: View, tip: Hash, c: Config, at: Checkpoint) {
    && v.head == Number(tip)
    && (forall n :: 0 <= n <= Number(tip) ==> Header(v, n) == Some(At(tip, n)))
    && (forall n :: n in v.headers ==> 0 <= n <= Number(tip) && v.headers[n] == At(tip, n))
    && (at.next <= v.head - c.confirmations ==>
          var end := BatchEnd(c, at.next, v.head - c.confirmations);
          Complete(v.logs, Segment(At(tip, end), at.next - 1)) && v.lastAgain == Some(At(tip, end)))
  }

  /** The stored tip is on the chain. */
  predicate TipOnChain(tip: Hash, at: Checkpoint) {
    at.hash == At(tip, at.next - 1)
  }

  /** A retained block within the lookback is on the chain. */
  ghost predicate SharesBlock(db: DB, c: Config, tip: Hash, at: Checkpoint) {
    exists a :: a in ChainOf(db, c.stream).blocks && at.next - 1 - c.lookback <= a && ChainOf(db, c.stream).blocks[a] == At(tip, a)
  }

  lemma ViewHonest(v: View, tip: Hash, c: Config, at: Checkpoint)
    requires Linked(tip) && ValidChain(tip) && ViewOf(v, tip, c, at)
    ensures HonestHeaders(v)
  {
    hide Linked, ValidChain, At, BatchEnd;
    forall n | n in v.headers ensures Linked(v.headers[n]) && ValidChain(v.headers[n]) {
      AtNumber(tip, n);
      AtValid(tip, n);
    }
  }

  lemma {:induction false} ChainsSegment(v: View, tip: Hash, c: Config, at: Checkpoint, n: int, end: int)
    requires Linked(tip) && ViewOf(v, tip, c, at) && 0 <= n <= end + 1 && end <= Number(tip)
    ensures Chained(v, At(tip, n - 1), n, end) == Ok(Segment(At(tip, end), n - 1))
    decreases end - n + 1
  {
    hide Segment, At, Linked, ViewOf, Header, Number;
    AtNumber(tip, n - 1);
    if n <= end {
      AtNumber(tip, n);
      AtNumber(tip, end);
      AtAt(tip, n, n - 1);
      AtAt(tip, end, n);
      ParentAt(At(tip, n), n);
      ChainsSegment(v, tip, c, at, n + 1, end);
      SegmentFront(At(tip, end), n - 1);
      HeaderAt(v, tip, c, at, n);
    } else {
      AtNumber(tip, end);
      SegmentEmpty(At(tip, end), end);
    }
  }

  lemma FetchesSegment(v: View, tip: Hash, c: Config, at: Checkpoint, n: int, end: int)
    requires Linked(tip) && ViewOf(v, tip, c, at) && 0 <= n <= end + 1 && end <= Number(tip)
    ensures Fetch(v, At(tip, n - 1), n, end) == Ok(Segment(At(tip, end), n - 1))
  {
    ChainsSegment(v, tip, c, at, n, end);
    hide Segment, At, Linked, ViewOf, Header, Number, Chained;
    forall m | n <= m <= end ensures Header(v, m).Some? { HeaderAt(v, tip, c, at, m); }
  }

  lemma HeaderAt(v: View, tip: Hash, c: Config, at: Checkpoint, n: int)
    requires ViewOf(v, tip, c, at) && 0 <= n <= Number(tip)
    ensures Header(v, n) == Some(At(tip, n))
  {
    hide At, BatchEnd, Header;
  }

  lemma ParentAt(h: Hash, n: int)
    requires Number(h) == n >= 0
    ensures At(h, n - 1) == h.parent || At(h, n - 1) == At(h.parent, n - 1)
    ensures Linked(h) ==> At(h, n - 1) == h.parent
  {
  }

  lemma SegmentEmpty(h: Hash, from: int)
    requires Number(h) == from
    ensures Segment(h, from) == []
  {
  }

  // ---- One step ----

  /** A step off the chain rewinds to the highest retained block that is on it. */
  lemma RewindsToChain(db: DB, c: Config, v: View, tip: Hash, anchor: int, at: Checkpoint)
    requires Synced(db, c.stream, anchor, at) && ValidConfig(c) && Honest(db, c, v, at)
    requires Linked(tip) && ValidChain(tip) && ViewOf(v, tip, c, at)
    requires at.next - 1 <= Number(tip) && !TipOnChain(tip, at) && SharesBlock(db, c, tip, at)
    ensures var s := FollowStep(db, c, v, at);
            var blocks := ChainOf(db, c.stream).blocks;
            && s.progress == Ok(true)
            && exists a :: a in blocks && at.next - 1 - c.lookback <= a && blocks[a] == At(tip, a) &&
                 (forall m :: m in blocks && m > a ==> blocks[m] != At(tip, m)) &&
                 Synced(s.db, c.stream, anchor, Checkpoint(a + 1, At(tip, a))) && TipOnChain(tip, Checkpoint(a + 1, At(tip, a)))
  {
    hide *;
    var blocks := ChainOf(db, c.stream).blocks;
    SyncedParts(db, c.stream, anchor, at);
    NextPositive(tip, at);
    FindsShared(db, c, v, tip, anchor, at);
    var a := FindAncestor(v, blocks, at.next - 1, at.next - 1 - c.lookback).value;
    HonestListings(db, c, v, at, a);
    RewindSynced(db, c.stream, anchor, at, a, v.settled, v.canonical);
    HeaderAt(v, tip, c, at, at.next - 1);
    OffChain(tip, at);
    FollowRewinds(db, c, v, at, a);
    OnChainNext(tip, a);
  }

  /**
   * A tip mined again with the very same contract logs is orphaned all the same: against
   * any chain with the other block a step rewinds to the parent of both.
   */
  lemma ReminedTipIsOrphaned(db: DB, c: Config, v: View, tip: Hash, anchor: int, at: Checkpoint, rest: string)
    requires Synced(db, c.stream, anchor, at) && ValidConfig(c) && Honest(db, c, v, at)
    requires Linked(tip) && ValidChain(tip) && ViewOf(v, tip, c, at) && at.next - 1 <= Number(tip)
    requires at.hash.Hash? && rest != at.hash.rest && At(tip, at.next - 1) == at.hash.(rest := rest)
    requires at.next - 2 in ChainOf(db, c.stream).blocks
    ensures var s := FollowStep(db, c, v, at);
            s.progress == Ok(true) && Synced(s.db, c.stream, anchor, Checkpoint(at.next - 1, at.hash.parent))
  {
    hide *;
    SyncedParts(db, c.stream, anchor, at);
    SiblingShares(db, c, tip, anchor, at, rest);
    RewindsToChain(db, c, v, tip, anchor, at);
    var blocks := ChainOf(db, c.stream).blocks;
    var a :| a in blocks && blocks[a] == At(tip, a) && (forall m :: m in blocks && m > a ==> blocks[m] != At(tip, m)) &&
             Synced(FollowStep(db, c, v, at).db, c.stream, anchor, Checkpoint(a + 1, At(tip, a)));
    assert at.next - 2 <= a;
    RetainedBelow(blocks, at, anchor, a);
  }

  /** Such chains exist, the stored tip's own sibling to begin with. */
  lemma ReminedChain(h: Hash, rest: string)
    requires h.Hash? && Linked(h) && ValidChain(h) && rest != h.rest
    ensures Linked(h.(rest := rest)) && ValidChain(h.(rest := rest)) && h.(rest := rest) != h
  {
    Remined(h, rest);
    hide ValidBlock;
  }

  /** The parent of both siblings is retained, is on the new chain, and the old tip is not. */
  lemma SiblingShares(db: DB, c: Config, tip: Hash, anchor: int, at: Checkpoint, rest: string)
    requires Retained(ChainOf(db, c.stream).blocks, at, anchor) && ValidConfig(c) && Linked(tip) && at.next - 1 <= Number(tip)
    requires TipOf(at) && Linked(at.hash) && at.hash.Hash? && rest != at.hash.rest
    requires At(tip, at.next - 1) == at.hash.(rest := rest) && at.next - 2 in ChainOf(db, c.stream).blocks
    ensures !TipOnChain(tip, at) && SharesBlock(db, c, tip, at) && At(tip, at.next - 2) == at.hash.parent
    ensures ChainOf(db, c.stream).blocks[at.next - 2] == At(tip, at.next - 2)
    ensures at.next - 1 in ChainOf(db, c.stream).blocks && ChainOf(db, c.stream).blocks[at.next - 1] != At(tip, at.next - 1)
  {
    AtNumber(tip, at.next - 1);
    AtAt(tip, at.next - 1, at.next - 2);
    ParentAt(at.hash, at.next - 1);
    ParentAt(at.hash.(rest := rest), at.next - 1);
    hide ChainOf, Linked;
    var blocks := ChainOf(db, c.stream).blocks;
    assert blocks[at.next - 2] == At(at.hash, at.next - 2);
  }

  lemma RetainedBelow(blocks: map<int, Hash>, at: Checkpoint, anchor: int, n: int)
    requires Retained(blocks, at, anchor) && n in blocks
    ensures n <= at.next - 1
  {
  }

  lemma OffChain(tip: Hash, at: Checkpoint)
    requires !TipOnChain(tip, at)
    ensures at.hash != At(tip, at.next - 1)
  {
  }

  lemma HonestListings(db: DB, c: Config, v: View, at: Checkpoint, a: int)
    requires Honest(db, c, v, at) && a in ChainOf(db, c.stream).blocks
    requires FindAncestor(v, ChainOf(db, c.stream).blocks, at.next - 1, at.next - 1 - c.lookback) == Ok(a)
    ensures ListsSettlements(db, v.settled, a) && ListsEvents(db, v.canonical, a)
  {
    hide ListsSettlements, ListsEvents, FindAncestor, HonestHeaders, HonestLogs;
  }

  /** The search meets the highest retained block of the chain. */
  lemma FindsShared(db: DB, c: Config, v: View, tip: Hash, anchor: int, at: Checkpoint)
    requires Retained(ChainOf(db, c.stream).blocks, at, anchor) && ViewOf(v, tip, c, at)
    requires at.next - 1 <= Number(tip) && SharesBlock(db, c, tip, at)
    ensures var blocks := ChainOf(db, c.stream).blocks;
            var found := FindAncestor(v, blocks, at.next - 1, at.next - 1 - c.lookback);
            && found.Ok? && found.value in blocks && at.next - 1 - c.lookback <= found.value && blocks[found.value] == At(tip, found.value)
            && forall m :: m in blocks && m > found.value ==> blocks[m] != At(tip, m)
  {
    hide FindAncestor, ViewOf, At, Header;
    var blocks := ChainOf(db, c.stream).blocks;
    var floor := at.next - 1 - c.lookback;
    var b :| b in blocks && floor <= b && blocks[b] == At(tip, b);
    forall m | 0 <= m <= at.next - 1 ensures Header(v, m) == Some(At(tip, m)) { HeaderAt(v, tip, c, at, m); }
    AncestorFound(v, blocks, at.next - 1, floor, b);
    AncestorIsHighest(v, blocks, at.next - 1, floor);
  }

  lemma FollowRewinds(db: DB, c: Config, v: View, at: Checkpoint, a: int)
    requires at.next > 0 && Header(v, at.next - 1).Some? && Header(v, at.next - 1).value != at.hash
    requires a in ChainOf(db, c.stream).blocks
    requires FindAncestor(v, ChainOf(db, c.stream).blocks, at.next - 1, at.next - 1 - c.lookback) == Ok(a)
    requires Rewind(db, c.stream, Block(a, ChainOf(db, c.stream).blocks[a]), v.settled, v.canonical).Ok?
    ensures FollowStep(db, c, v, at) ==
            Step(Rewind(db, c.stream, Block(a, ChainOf(db, c.stream).blocks[a]), v.settled, v.canonical).value, Ok(true))
  {
    hide Rewind, FindAncestor, BatchStep, Header, ChainOf;
  }

  lemma NextPositive(tip: Hash, at: Checkpoint)
    requires TipOf(at) && !TipOnChain(tip, at) && Linked(tip)
    ensures at.next > 0
  {
    if at.next == 0 { BeforeGenesis(tip); }
  }

  lemma {:induction false} BeforeGenesis(tip: Hash)
    requires Linked(tip)
    ensures At(tip, -1) == NoHash
  {
    if tip.Hash? { BeforeGenesis(tip.parent); }
  }

  /** With no shared block within the lookback the step stops for good and changes nothing. */
  lemma TooDeep(db: DB, c: Config, v: View, tip: Hash, anchor: int, at: Checkpoint)
    requires Synced(db, c.stream, anchor, at) && ViewOf(v, tip, c, at) && Linked(tip)
    requires at.next - 1 <= Number(tip) && !TipOnChain(tip, at) && !SharesBlock(db, c, tip, at)
    ensures FollowStep(db, c, v, at) == Step(db, Err(ReorgTooDeep))
  {
    hide *;
    SyncedParts(db, c.stream, anchor, at);
    NextPositive(tip, at);
    FindsNothing(db, c, v, tip, at);
    HeaderAt(v, tip, c, at, at.next - 1);
    OffChain(tip, at);
    FollowFails(db, c, v, at);
  }

  lemma FindsNothing(db: DB, c: Config, v: View, tip: Hash, at: Checkpoint)
    requires ViewOf(v, tip, c, at) && at.next - 1 <= Number(tip) && !SharesBlock(db, c, tip, at)
    ensures FindAncestor(v, ChainOf(db, c.stream).blocks, at.next - 1, at.next - 1 - c.lookback) == Err(ReorgTooDeep)
  {
    hide FindAncestor, ViewOf, At, Header;
    forall m | 0 <= m <= at.next - 1 ensures Header(v, m) == Some(At(tip, m)) { HeaderAt(v, tip, c, at, m); }
    NothingFound(v, ChainOf(db, c.stream).blocks, at.next - 1, at.next - 1 - c.lookback);
  }

  lemma FollowFails(db: DB, c: Config, v: View, at: Checkpoint)
    requires at.next > 0 && Header(v, at.next - 1).Some? && Header(v, at.next - 1).value != at.hash
    requires FindAncestor(v, ChainOf(db, c.stream).blocks, at.next - 1, at.next - 1 - c.lookback) == Err(ReorgTooDeep)
    ensures FollowStep(db, c, v, at) == Step(db, Err(ReorgTooDeep))
  {
    hide Rewind, FindAncestor, BatchStep, Header, ChainOf;
  }

  lemma {:induction false} NothingFound(v: View, blocks: map<int, Hash>, n: int, floor: int)
    requires forall m :: 0 <= m <= n ==> Header(v, m).Some?
    requires forall m :: floor <= m <= n && 0 <= m && m in blocks ==> Header(v, m) != Some(blocks[m])
    ensures FindAncestor(v, blocks, n, floor) == Err(ReorgTooDeep)
    decreases n - floor + 1
  {
    if floor <= n && 0 <= n { NothingFound(v, blocks, n - 1, floor); }
  }

  /** A head below the stored tip is a transient error, not a reorg. */
  lemma ShorterChainWaits(db: DB, c: Config, v: View, tip: Hash, at: Checkpoint)
    requires ViewOf(v, tip, c, at) && at.next > 0 && Number(tip) < at.next - 1
    ensures FollowStep(db, c, v, at) == Step(db, Err(RpcError))
  {
    hide At, BatchEnd, Complete, Segment;
  }

  /** A step on the chain with confirmed blocks left applies the next batch. */
  lemma AppliesBatch(db: DB, c: Config, v: View, tip: Hash, anchor: int, at: Checkpoint)
    requires Synced(db, c.stream, anchor, at) && ValidConfig(c)
    requires Linked(tip) && ValidChain(tip) && ViewOf(v, tip, c, at) && TipOnChain(tip, at)
    requires at.next <= Number(tip) - c.confirmations
    requires FoldsOk(db.escrow, Past(At(tip, BatchEnd(c, at.next, Number(tip) - c.confirmations)), anchor))
    ensures var end := BatchEnd(c, at.next, Number(tip) - c.confirmations);
            var s := FollowStep(db, c, v, at);
            s.progress == Ok(true) && Synced(s.db, c.stream, anchor, Checkpoint(end + 1, At(tip, end))) &&
            TipOnChain(tip, Checkpoint(end + 1, At(tip, end))) && at.next <= end
  {
    hide *;
    var end := BatchEnd(c, at.next, Number(tip) - c.confirmations);
    SyncedParts(db, c.stream, anchor, at);
    NextNotNegative(at);
    EndAfterNext(c, at.next, Number(tip) - c.confirmations);
    ConfirmationsOk(c);
    LookbackOk(c);
    OnChainMeans(tip, at);
    BatchView(v, tip, c, at);
    AtNumber(tip, end);
    AtValid(tip, end);
    AtAt(tip, end, at.next - 1);
    var last := At(tip, end);
    var hs := Segment(last, at.next - 1);
    SegmentMeaning(last, at.next - 1);
    SegmentValid(last, at.next - 1);
    SelfAt(last);
    FetchesSegment(v, tip, c, at, at.next, end);
    SegmentConsecutive(last, at.next - 1);
    GathersTheLogs(v.logs, hs, at.next);
    BatchCorrelates(hs);
    BatchAccepted(db, c.stream, anchor, at, last, c.lookback);
    ApplySynced(db, c.stream, anchor, at, last, c.lookback);
    BatchStepOk(db, c, v, at, hs);
    FollowsBatch(db, c, v, tip, at);
    OnChainNext(tip, end);
  }

  lemma ConfirmationsOk(c: Config)
    requires ValidConfig(c)
    ensures c.confirmations >= 0
  {
  }

  lemma OnChainMeans(tip: Hash, at: Checkpoint)
    requires TipOnChain(tip, at)
    ensures at.hash == At(tip, at.next - 1)
  {
  }

  lemma OnChainNext(tip: Hash, end: int)
    ensures TipOnChain(tip, Checkpoint(end + 1, At(tip, end)))
  {
  }

  lemma BatchView(v: View, tip: Hash, c: Config, at: Checkpoint)
    requires ViewOf(v, tip, c, at) && at.next <= Number(tip) - c.confirmations
    ensures v.head == Number(tip)
    ensures var end := BatchEnd(c, at.next, Number(tip) - c.confirmations);
            Complete(v.logs, Segment(At(tip, end), at.next - 1)) && v.lastAgain == Some(At(tip, end))
  {
    hide Segment, At, BatchEnd, Complete, Header;
  }

  lemma BatchAccepted(db: DB, stream: Id, anchor: int, at: Checkpoint, tip: Hash, lookback: int)
    requires Synced(db, stream, anchor, at) && Linked(tip) && ValidChain(tip) && at.next <= Number(tip) && At(tip, at.next - 1) == at.hash
    requires FoldsOk(db.escrow, Past(tip, anchor))
    ensures ApplyChain(db, stream, BlocksOf(Segment(tip, at.next - 1), at.next), EventsOf(Segment(tip, at.next - 1)), lookback).Ok?
  {
    hide *;
    SyncedParts(db, stream, anchor, at);
    var hs := Segment(tip, at.next - 1);
    var events := EventsOf(hs);
    SegmentMeaning(tip, at.next - 1);
    SegmentValid(tip, at.next - 1);
    EventsOnBlocks(hs);
    PastExtends(tip, at.next - 1, anchor);
    PastBlocks(tip, anchor);
    EventsDecoded(Past(at.hash, anchor), events);
    var c := Chain(PutBlocks(ChainOf(db, stream).blocks, BlocksOf(hs, at.next)), ChainOf(db, stream).checkpoint);
    var db1 := WithChain(db, stream, c);
    ChainFrame(db, stream, c);
    ChainRows(db, stream, c, Past(at.hash, anchor), events);
    EventsAccepted(db1, Past(at.hash, anchor), events);
    ApplyChainOk(db, stream, BlocksOf(hs, at.next), events, lookback);
  }

  lemma ChainRows(db: DB, stream: Id, c: Chain, history: seq<Event>, events: seq<Event>)
    requires Replays(db.escrow, history) && RowsFromChain(db.escrow) && FoldsOk(db.escrow, history + events)
    ensures var db1 := WithChain(db, stream, c);
            Replays(db1.escrow, history) && RowsFromChain(db1.escrow) && FoldsOk(db1.escrow, history + events)
  {
    var db1 := WithChain(db, stream, c);
    assert Replays(db1.escrow, history) by { hide *; ChainRowsReplay(db, stream, c, history); }
    assert RowsFromChain(db1.escrow) by { hide Replays, FoldsOk, ValidBlock, BlockEvents; }
    hide Replays, RowsFromChain;
    forall sender ensures Fold(OpeningPool(db1.escrow, sender), history + events, sender).Ok? {
      FoldsAt(db.escrow, db1.escrow, history + events, sender);
    }
  }

  lemma ChainRowsReplay(db: DB, stream: Id, c: Chain, history: seq<Event>)
    requires Replays(db.escrow, history)
    ensures Replays(WithChain(db, stream, c).escrow, history)
  {
    hide Replays;
    ReplaysFrame(db.escrow, WithChain(db, stream, c).escrow, history);
  }

  lemma ApplyChainOk(db: DB, stream: Id, blocks: seq<Block>, events: seq<Event>, lookback: int)
    requires blocks != []
    requires ApplyEvents(WithChain(db, stream, Chain(PutBlocks(ChainOf(db, stream).blocks, blocks), ChainOf(db, stream).checkpoint)), events).Ok?
    ensures ApplyChain(db, stream, blocks, events, lookback).Ok?
  {
    hide ApplyEvents, PutBlocks;
  }

  lemma BatchStepOk(db: DB, c: Config, v: View, at: Checkpoint, hs: seq<Hash>)
    requires at.next <= v.head - c.confirmations && hs != [] && forall i :: 0 <= i < |hs| ==> hs[i].Hash?
    requires Fetch(v, at.hash, at.next, BatchEnd(c, at.next, v.head - c.confirmations)) == Ok(hs)
    requires Gather(v.logs, hs, at.next) == Ok(LogsOf(hs)) && v.lastAgain == Some(hs[|hs| - 1])
    requires R.Correlate(DecodeAll(LogsOf(hs))) == Ok(EventsOf(hs))
    requires ApplyChain(db, c.stream, BlocksOf(hs, at.next), EventsOf(hs), c.lookback).Ok?
    ensures BatchStep(db, c, v, at.next, at.hash) ==
            Step(ApplyChain(db, c.stream, BlocksOf(hs, at.next), EventsOf(hs), c.lookback).value, Ok(true))
  {
    hide *;
    BatchWrites(db, c, v, at, hs, LogsOf(hs), EventsOf(hs), ApplyChain(db, c.stream, BlocksOf(hs, at.next), EventsOf(hs), c.lookback).value);
  }

  lemma BatchWrites(db: DB, c: Config, v: View, at: Checkpoint, hs: seq<Hash>, logs: seq<Log>, events: seq<Event>, db': DB)
    requires at.next <= v.head - c.confirmations && hs != [] && FromBlocks(logs)
    requires Fetch(v, at.hash, at.next, BatchEnd(c, at.next, v.head - c.confirmations)) == Ok(hs)
    requires Gather(v.logs, hs, at.next) == Ok(logs) && v.lastAgain == Some(hs[|hs| - 1])
    requires R.Correlate(DecodeAll(logs)) == Ok(events)
    requires ApplyChain(db, c.stream, BlocksOf(hs, at.next), events, c.lookback) == Ok(db')
    ensures BatchStep(db, c, v, at.next, at.hash) == Step(db', Ok(true))
  {
    hide ApplyChain, Fetch, R.Correlate, DecodeAll, BlocksOf, BatchEnd, Gather, FromBlocks;
  }

  /** On the chain the tip check passes and the step is a batch step. */
  lemma FollowsBatch(db: DB, c: Config, v: View, tip: Hash, at: Checkpoint)
    requires ViewOf(v, tip, c, at) && TipOnChain(tip, at) && at.next - 1 <= Number(tip)
    ensures FollowStep(db, c, v, at) == BatchStep(db, c, v, at.next, at.hash)
  {
    hide At, BatchStep, ViewOf, Header;
    if at.next > 0 { HeaderAt(v, tip, c, at, at.next - 1); }
  }

  // ---- Repeated steps ----

  /** Repeated steps, each with the oracle's view of the moment. */
  ghost function Poll(db: DB, c: Config, views: DB -> View, n: nat): DB
    decreases n
  {
    if n == 0 then db else Poll(Advance(db, c, views(db)).db, c, views, n - 1)
  }

  /** Every confirmed block of the chain is applied. */
  ghost predicate CaughtUp(db: DB, c: Config, tip: Hash, anchor: int) {
    exists last :: Synced(db, c.stream, anchor, last) && TipOnChain(tip, last) && last.next > Number(tip) - c.confirmations
  }

  lemma AdvanceFollowsOn(db: DB, c: Config, v: View, anchor: int, at: Checkpoint)
    requires Synced(db, c.stream, anchor, at)
    ensures Advance(db, c, v) == FollowStep(db, c, v, at)
  {
    SyncedCheckpoint(db, c.stream, anchor, at);
    hide Synced, FollowStep, OpenStep, ChainOf, Blank;
  }

  /** At every synchronized state the oracle shows this chain, and lists the rows to rewind. */
  ghost predicate Shows(views: DB -> View, c: Config, tip: Hash) {
    Number(tip) >= 0 &&
    forall db, anchor, at :: Synced(db, c.stream, anchor, at) ==> ViewOf(views(db), tip, c, at) && RightListings(db, c, views(db), at)
  }

  /** A batch that links to the stored tip is the chain's own. */
  lemma FetchedIsChain(v: View, tip: Hash, c: Config, at: Checkpoint, end: int)
    requires Linked(tip) && ViewOf(v, tip, c, at) && TipOf(at) && at.next <= end <= Number(tip) && Fetch(v, at.hash, at.next, end).Ok?
    ensures Fetch(v, at.hash, at.next, end) == Ok(Segment(At(tip, end), at.next - 1))
  {
    NextNotNegative(at);
    TipNone(at);
    hide At, Linked, ViewOf, Segment, Header, Chained, Number, TipOf;
    var h := At(tip, at.next);
    HeaderAt(v, tip, c, at, at.next);
    ChainedOne(v, at.hash, at.next, end);
    AtNumber(tip, at.next);
    AtAt(tip, at.next, at.next - 1);
    ParentAt(h, at.next);
    if at.hash == NoHash { BeforeGenesis(tip); }
    FetchesSegment(v, tip, c, at, at.next, end);
  }

  lemma TipNone(at: Checkpoint)
    requires TipOf(at)
    ensures at.hash == NoHash ==> at.next == 0
  {
  }

  lemma ViewLogs(v: View, tip: Hash, c: Config, at: Checkpoint)
    requires Linked(tip) && ViewOf(v, tip, c, at) && TipOf(at) && ValidConfig(c)
    ensures HonestLogs(c, v, at)
  {
    hide Linked, TipOf, At, Segment, Fetch, BatchEnd, Complete, Header, Number;
    if at.next <= v.head - c.confirmations {
      EndAfterNext(c, at.next, v.head - c.confirmations);
      ConfirmationsOk(c);
      BatchView(v, tip, c, at);
      var end := BatchEnd(c, at.next, v.head - c.confirmations);
      if Fetch(v, at.hash, at.next, end).Ok? { FetchedIsChain(v, tip, c, at, end); }
    }
  }

  /** A view of a valid chain is honest; only the listings are left to require. */
  lemma ViewIsHonest(db: DB, v: View, tip: Hash, c: Config, at: Checkpoint)
    requires Linked(tip) && ValidChain(tip) && ViewOf(v, tip, c, at) && TipOf(at) && ValidConfig(c) && Number(tip) >= 0
    requires RightListings(db, c, v, at)
    ensures Honest(db, c, v, at)
  {
    hide *;
    ViewHead(v, tip, c, at);
    ViewHonest(v, tip, c, at);
    ViewLogs(v, tip, c, at);
    PartsHonest(db, c, v, at);
  }

  lemma PartsHonest(db: DB, c: Config, v: View, at: Checkpoint)
    requires v.head >= 0 && HonestHeaders(v) && HonestLogs(c, v, at) && RightListings(db, c, v, at)
    ensures Honest(db, c, v, at)
  {
    hide HonestHeaders, HonestLogs, RightListings;
  }

  lemma Shown(db: DB, c: Config, views: DB -> View, tip: Hash, anchor: int, at: Checkpoint)
    requires Shows(views, c, tip) && Synced(db, c.stream, anchor, at) && ValidConfig(c) && Linked(tip) && ValidChain(tip)
    ensures ViewOf(views(db), tip, c, at) && Honest(db, c, views(db), at)
  {
    SyncedParts(db, c.stream, anchor, at);
    hide Synced, ViewOf, RightListings, Honest, Linked, ValidChain, TipOf, ValidConfig, Number;
    ViewIsHonest(db, views(db), tip, c, at);
  }

  /** Replaying the chain from the opening snapshot succeeds at every block. */
  ghost predicate Replayable(e: Escrow, tip: Hash, anchor: int) {
    forall n :: anchor <= n <= Number(tip) ==> FoldsOk(e, Past(At(tip, n), anchor))
  }

  lemma OpeningsKept(e: Escrow, e': Escrow, tip: Hash, anchor: int)
    requires Replayable(e, tip, anchor) && e'.snapshots == e.snapshots
    ensures Replayable(e', tip, anchor)
  {
    hide FoldsOk, Past, At;
    forall n | anchor <= n <= Number(tip) ensures FoldsOk(e', Past(At(tip, n), anchor)) { FoldsSame(e, e', Past(At(tip, n), anchor)); }
  }

  lemma FoldsSame(e: Escrow, e': Escrow, history: seq<Event>)
    requires FoldsOk(e, history) && e'.snapshots == e.snapshots
    ensures FoldsOk(e', history)
  {
    hide Fold;
    forall sender ensures Fold(OpeningPool(e', sender), history, sender).Ok? { FoldsAt(e, e', history, sender); }
  }

  lemma StepKeepsSnapshots(db: DB, c: Config, v: View, anchor: int, at: Checkpoint)
    requires Synced(db, c.stream, anchor, at) && ValidConfig(c) && Honest(db, c, v, at)
    ensures FollowStep(db, c, v, at).db.escrow.snapshots == db.escrow.snapshots
  {
    hide *;
    SyncedParts(db, c.stream, anchor, at);
    HonestParts(db, c, v, at);
    FollowShape(db, c, v, at);
    BatchSnapshots(db, c, v, anchor, at);
    var blocks := ChainOf(db, c.stream).blocks;
    var found := FindAncestor(v, blocks, at.next - 1, at.next - 1 - c.lookback);
    if found.Ok? && found.value in blocks {
      HonestListings(db, c, v, at, found.value);
      var b := Block(found.value, blocks[found.value]);
      RewindKeeps(db, c.stream, b, v.settled, v.canonical);
      if Rewind(db, c.stream, b, v.settled, v.canonical).Ok? {
        ChainWriteSnapshots(db, Rewind(db, c.stream, b, v.settled, v.canonical).value);
      }
    }
  }

  lemma HonestParts(db: DB, c: Config, v: View, at: Checkpoint)
    requires Honest(db, c, v, at)
    ensures HonestHeaders(v) && HonestLogs(c, v, at)
  {
    hide HonestHeaders, HonestLogs, ListsSettlements, ListsEvents, FindAncestor;
  }

  /** A step leaves the database as it was, rewinds it, or applies a batch. */
  lemma FollowShape(db: DB, c: Config, v: View, at: Checkpoint)
    ensures var s := FollowStep(db, c, v, at);
            var blocks := ChainOf(db, c.stream).blocks;
            var found := FindAncestor(v, blocks, at.next - 1, at.next - 1 - c.lookback);
            || s.db == db
            || s == BatchStep(db, c, v, at.next, at.hash)
            || (found.Ok? && found.value in blocks &&
                Rewind(db, c.stream, Block(found.value, blocks[found.value]), v.settled, v.canonical) == Ok(s.db))
  {
    hide Rewind, FindAncestor, BatchStep, Header, ChainOf;
  }

  lemma BatchSnapshots(db: DB, c: Config, v: View, anchor: int, at: Checkpoint)
    requires Synced(db, c.stream, anchor, at) && ValidConfig(c) && HonestHeaders(v) && HonestLogs(c, v, at)
    ensures BatchStep(db, c, v, at.next, at.hash).db.escrow.snapshots == db.escrow.snapshots
  {
    hide *;
    BatchUnchanged(db, c, v, at.next, at.hash);
    if BatchStep(db, c, v, at.next, at.hash).progress == Ok(true) {
      SyncedParts(db, c.stream, anchor, at);
      BatchDecoded(db, c, v, at);
      BatchApplied(db, c, v, at.next, at.hash);
      var fetched := Fetch(v, at.hash, at.next, BatchEnd(c, at.next, v.head - c.confirmations));
      var events := R.Correlate(DecodeAll(Gather(v.logs, fetched.value, at.next).value)).value;
      ApplyChainKeeps(db, c.stream, BlocksOf(fetched.value, at.next), events, c.lookback);
      ChainWriteSnapshots(db, BatchStep(db, c, v, at.next, at.hash).db);
    }
  }

  lemma ChainWriteSnapshots(db: DB, db': DB)
    requires ChainWrite(db, db')
    ensures db'.escrow.snapshots == db.escrow.snapshots
  {
  }

  /** Whatever was correlated keeps the decoder's guarantees. */
  lemma BatchDecoded(db: DB, c: Config, v: View, at: Checkpoint)
    requires BatchStep(db, c, v, at.next, at.hash).progress == Ok(true)
    ensures var fetched := Fetch(v, at.hash, at.next, BatchEnd(c, at.next, v.head - c.confirmations));
            && fetched.Ok? && Gather(v.logs, fetched.value, at.next).Ok?
            && var logs := Gather(v.logs, fetched.value, at.next).value;
            && R.Correlate(DecodeAll(logs)).Ok? && forall e :: e in R.Correlate(DecodeAll(logs)).value ==> Decoded(e)
  {
    BatchApplied(db, c, v, at.next, at.hash);
    hide BatchStep, Fetch, R.Correlate, ApplyChain, BlocksOf, Gather, BatchEnd;
    var fetched := Fetch(v, at.hash, at.next, BatchEnd(c, at.next, v.head - c.confirmations));
    CorrelatedDecoded(DecodeAll(Gather(v.logs, fetched.value, at.next).value));
  }

  lemma CorrelatedDecoded(events: seq<Event>)
    requires R.Correlate(events).Ok? && forall e :: e in events ==> Decoded(e)
    ensures forall e :: e in R.Correlate(events).value ==> Decoded(e)
  {
    R.ScanOutputs(events, None, None);
    var out := R.Correlate(events).value;
    forall e | e in out ensures Decoded(e) {
      var i :| 0 <= i < |out| && out[i] == e;
      assert R.Corresponds(events[i], out[i]) && events[i] in events;
    }
  }

  /** The catch-up from a tip on the chain; each batch leaves fewer confirmed blocks. */
  lemma {:induction false} CatchesUp(db: DB, c: Config, views: DB -> View, tip: Hash, anchor: int, at: Checkpoint) returns (n: nat)
    requires Synced(db, c.stream, anchor, at) && ValidConfig(c) && Shows(views, c, tip) && Linked(tip) && ValidChain(tip)
    requires TipOnChain(tip, at) && Replayable(db.escrow, tip, anchor)
    ensures CaughtUp(Poll(db, c, views, n), c, tip, anchor)
    decreases Number(tip) - c.confirmations + 1 - at.next
  {
    hide Synced, Shows, ViewOf, Honest, Linked, ValidChain, TipOnChain, Replayable, FollowStep, Advance, ValidConfig, At, Number, BatchEnd, Past, FoldsOk, Retained,
         ChainOf, Replays, RowsFromChain, TipOf, OneAnchor;
    if at.next > Number(tip) - c.confirmations {
      n := 0;
    } else {
      SyncedParts(db, c.stream, anchor, at);
      Shown(db, c, views, tip, anchor, at);
      var v := views(db);
      var end := BatchEnd(c, at.next, Number(tip) - c.confirmations);
      EndAfterNext(c, at.next, Number(tip) - c.confirmations);
      ConfirmationsOk(c);
      ReplayableAt(db.escrow, tip, anchor, end);
      AppliesBatch(db, c, v, tip, anchor, at);
      StepKeepsSnapshots(db, c, v, anchor, at);
      AdvanceFollowsOn(db, c, v, anchor, at);
      var db1 := FollowStep(db, c, v, at).db;
      OpeningsKept(db.escrow, db1.escrow, tip, anchor);
      var m := CatchesUp(db1, c, views, tip, anchor, Checkpoint(end + 1, At(tip, end)));
      n := m + 1;
    }
  }

  lemma ReplayableAt(e: Escrow, tip: Hash, anchor: int, n: int)
    requires Replayable(e, tip, anchor) && anchor <= n <= Number(tip)
    ensures FoldsOk(e, Past(At(tip, n), anchor))
  {
    hide FoldsOk, Past, At;
  }

  /**
   * What a caller can check: the chain is at least as long as the stored one, and shares
   * its tip or a retained block within the lookback.
   */
  ghost predicate WithinReach(db: DB, c: Config, tip: Hash, at: Checkpoint) {
    at.next - 1 <= Number(tip) && (TipOnChain(tip, at) || SharesBlock(db, c, tip, at))
  }

  /**
   * Against a fixed valid chain within reach, replayable from the opening snapshot,
   * repeated steps apply every confirmed block of it.
   */
  lemma Converges(db: DB, c: Config, views: DB -> View, tip: Hash, anchor: int, at: Checkpoint) returns (n: nat)
    requires Synced(db, c.stream, anchor, at) && ValidConfig(c) && Shows(views, c, tip) && Linked(tip) && ValidChain(tip)
    requires WithinReach(db, c, tip, at) && Replayable(db.escrow, tip, anchor)
    ensures CaughtUp(Poll(db, c, views, n), c, tip, anchor)
  {
    hide Synced, Shows, ViewOf, Honest, Linked, ValidChain, TipOnChain, Replayable, FollowStep, Advance, ValidConfig, SharesBlock, At, Past, FoldsOk, Retained,
         ChainOf, Replays, RowsFromChain, TipOf, OneAnchor;
    if TipOnChain(tip, at) {
      n := CatchesUp(db, c, views, tip, anchor, at);
    } else {
      var v := views(db);
      SyncedParts(db, c.stream, anchor, at);
      Shown(db, c, views, tip, anchor, at);
      RewindsToChain(db, c, v, tip, anchor, at);
      StepKeepsSnapshots(db, c, v, anchor, at);
      AdvanceFollowsOn(db, c, v, anchor, at);
      var db1 := FollowStep(db, c, v, at).db;
      OpeningsKept(db.escrow, db1.escrow, tip, anchor);
      var a :| Synced(db1, c.stream, anchor, Checkpoint(a + 1, At(tip, a))) && TipOnChain(tip, Checkpoint(a + 1, At(tip, a)));
      var m := CatchesUp(db1, c, views, tip, anchor, Checkpoint(a + 1, At(tip, a)));
      n := m + 1;
    }
  }

  lemma TooShort(tip: Hash, at: Checkpoint)
    requires TipOf(at) && Number(tip) < at.next - 1
    ensures !TipOnChain(tip, at) && (at.next > 0)
  {
    AboveTip(tip, at.next - 1);
  }

  lemma AboveTip(tip: Hash, n: int)
    requires Number(tip) < n
    ensures At(tip, n) == tip
  {
  }

  /** Out of reach every step fails and changes nothing. */
  lemma StuckStep(db: DB, c: Config, v: View, tip: Hash, anchor: int, at: Checkpoint)
    requires Synced(db, c.stream, anchor, at) && ViewOf(v, tip, c, at) && Linked(tip) && -1 <= Number(tip) && !WithinReach(db, c, tip, at)
    ensures Advance(db, c, v).db == db && Advance(db, c, v).progress.Err? && !TipOnChain(tip, at)
  {
    hide Synced, ViewOf, Linked, TipOnChain, SharesBlock, FollowStep, Advance, Number, TipOf;
    SyncedParts(db, c.stream, anchor, at);
    AdvanceFollowsOn(db, c, v, anchor, at);
    if at.next - 1 > Number(tip) {
      TooShort(tip, at);
      ShorterChainWaits(db, c, v, tip, at);
    } else {
      TooDeep(db, c, v, tip, anchor, at);
    }
  }

  lemma NotCaughtUp(db: DB, c: Config, tip: Hash, anchor: int, at: Checkpoint)
    requires Synced(db, c.stream, anchor, at) && !TipOnChain(tip, at)
    ensures !CaughtUp(db, c, tip, anchor)
  {
    SyncedCheckpoint(db, c.stream, anchor, at);
    hide Synced, TipOnChain, ChainOf, Blank, Number;
    forall last | Synced(db, c.stream, anchor, last) ensures last == at { SyncedCheckpoint(db, c.stream, anchor, last); }
  }

  lemma NumberAtLeast(tip: Hash)
    ensures Number(tip) >= -1
  {
  }

  lemma {:induction false} StaysStuck(db: DB, c: Config, views: DB -> View, tip: Hash, anchor: int, at: Checkpoint, n: nat)
    requires Synced(db, c.stream, anchor, at) && Shows(views, c, tip) && Linked(tip) && !WithinReach(db, c, tip, at)
    ensures Poll(db, c, views, n) == db && !CaughtUp(db, c, tip, anchor)
  {
    NumberAtLeast(tip);
    hide Synced, ViewOf, Honest, Linked, TipOnChain, WithinReach, Advance, CaughtUp, Number;
    StuckStep(db, c, views(db), tip, anchor, at);
    NotCaughtUp(db, c, tip, anchor, at);
    if n > 0 { StaysStuck(db, c, views, tip, anchor, at, n - 1); }
  }

  /** Repeated steps catch up with a fixed valid chain exactly when it is within reach. */
  lemma ConvergesIff(db: DB, c: Config, views: DB -> View, tip: Hash, anchor: int, at: Checkpoint)
    requires Synced(db, c.stream, anchor, at) && ValidConfig(c) && Shows(views, c, tip) && Linked(tip) && ValidChain(tip)
    requires Replayable(db.escrow, tip, anchor)
    ensures (exists n: nat :: CaughtUp(Poll(db, c, views, n), c, tip, anchor)) <==> WithinReach(db, c, tip, at)
  {
    hide Synced, Linked, ValidChain, Shows, WithinReach, CaughtUp, Poll, Replayable, ValidConfig;
    if WithinReach(db, c, tip, at) {
      var n := Converges(db, c, views, tip, anchor, at);
    } else {
      forall n: nat ensures !CaughtUp(Poll(db, c, views, n), c, tip, anchor) { StaysStuck(db, c, views, tip, anchor, at, n); }
    }
  }

  /** Having caught up, a step finds nothing to do. */
  lemma CaughtUpRests(db: DB, c: Config, v: View, tip: Hash, anchor: int, at: Checkpoint)
    requires Synced(db, c.stream, anchor, at) && ViewOf(v, tip, c, at) && Linked(tip) && TipOnChain(tip, at)
    requires at.next > Number(tip) - c.confirmations
    ensures Advance(db, c, v) == Step(db, Ok(false))
  {
    SyncedParts(db, c.stream, anchor, at);
    hide Synced, ViewOf, Linked, TipOnChain, FollowStep, Advance, Number, TipOf, At;
    if at.next - 1 > Number(tip) { TooShort(tip, at); }
    AdvanceFollowsOn(db, c, v, anchor, at);
    FollowsBatch(db, c, v, tip, at);
    ViewHead(v, tip, c, at);
    NothingConfirmed(db, c, v, at);
  }

  lemma ViewHead(v: View, tip: Hash, c: Config, at: Checkpoint)
    requires ViewOf(v, tip, c, at)
    ensures v.head == Number(tip)
  {
    hide At, BatchEnd, Complete, Segment, Header;
  }

  lemma NothingConfirmed(db: DB, c: Config, v: View, at: Checkpoint)
    requires at.next > v.head - c.confirmations
    ensures BatchStep(db, c, v, at.next, at.hash) == Step(db, Ok(false))
  {
    hide Fetch, Gather, ApplyChain;
  }

  // ---- From the first start ----

  function StartOf(c: Config, tip: Hash): int {
    if c.start.Some? then c.start.value else Number(tip)
  }

  /** The first view of a blank stream: this chain, and opening balances for distinct senders. */
  ghost predicate OpeningShown(db: DB, v: View, c: Config, tip: Hash) {
    var start := StartOf(c, tip);
    var at := Checkpoint(start, At(tip, start - 1));
    && Number(tip) >= 0
    && ViewOf(v, tip, c, at)
    && (0 < start <= Number(tip) + 1 ==> v.anchorAgain == Some(At(tip, start - 1)))
    && v.openings != [] && (forall i, j :: 0 <= i < j < |v.openings| ==> v.openings[i].sender != v.openings[j].sender)
    && (start <= Number(tip) + 1 ==> RightListings(OpenStep(db, c, v).db, c, v, at))
  }

  lemma OpensAt(db: DB, c: Config, v: View, tip: Hash)
    requires Blank(db, c.stream) && ValidConfig(c) && Linked(tip) && ValidChain(tip)
    requires OpeningShown(db, v, c, tip) && StartOf(c, tip) <= Number(tip) + 1
    ensures var start := StartOf(c, tip);
            var s := OpenStep(db, c, v);
            s.progress == Ok(true) && Synced(s.db, c.stream, start - 1, Checkpoint(start, At(tip, start - 1)))
  {
    hide *;
    var start := StartOf(c, tip);
    OpeningView(db, v, c, tip);
    OpeningSucceeds(db, c, v, tip);
    ViewHonest(v, tip, c, Checkpoint(start, At(tip, start - 1)));
    StartIs(c, v, tip);
    OpenSynced(db, c, v);
    var db' := OpenStep(db, c, v).db;
    SyncedParts(db', c.stream, start - 1, CheckpointOf(db', c.stream).value);
  }

  lemma StartIs(c: Config, v: View, tip: Hash)
    requires v.head == Number(tip)
    ensures StartOf(c, tip) == if c.start.Some? then c.start.value else v.head
  {
  }

  lemma OpeningView(db: DB, v: View, c: Config, tip: Hash)
    requires OpeningShown(db, v, c, tip)
    ensures ViewOf(v, tip, c, Checkpoint(StartOf(c, tip), At(tip, StartOf(c, tip) - 1))) && v.head == Number(tip) && v.head >= 0
  {
    var at := Checkpoint(StartOf(c, tip), At(tip, StartOf(c, tip) - 1));
    hide RightListings, OpenStep, At, ViewOf;
    ViewHead(v, tip, c, at);
  }

  lemma OpeningAnchorIs(c: Config, v: View, tip: Hash, at: Checkpoint, start: int)
    requires ViewOf(v, tip, c, at) && Linked(tip) && 0 <= start <= Number(tip) + 1
    ensures OpeningAnchor(v, start) == Some(Block(start - 1, At(tip, start - 1)))
  {
    hide ViewOf, Linked, At, Header;
    if start > 0 { HeaderAt(v, tip, c, at, start - 1); } else { BeforeGenesis(tip); }
  }

  lemma OpeningSucceeds(db: DB, c: Config, v: View, tip: Hash)
    requires Blank(db, c.stream) && ValidConfig(c) && Linked(tip) && OpeningShown(db, v, c, tip) && StartOf(c, tip) <= Number(tip) + 1
    ensures v.head == Number(tip) && OpenStep(db, c, v).progress == Ok(true)
    ensures CheckpointOf(OpenStep(db, c, v).db, c.stream) == Some(Checkpoint(StartOf(c, tip), At(tip, StartOf(c, tip) - 1)))
  {
    hide *;
    var start := StartOf(c, tip);
    var anchor := Block(start - 1, At(tip, start - 1));
    OpeningView(db, v, c, tip);
    OpeningReads(db, v, c, tip);
    StartIs(c, v, tip);
    StartNotNegative(c, tip, v);
    OpeningAnchorIs(c, v, tip, Checkpoint(start, At(tip, start - 1)), start);
    BlankInv(db, c.stream);
    BlankAccepts(db, c, v, tip);
    BootstrapKeeps(db, c.stream, anchor, v.openings);
    OpenStepOk(db, c, v, anchor);
    OpenedCheckpoint(db, OpenStep(db, c, v).db, c.stream, anchor);
  }

  lemma OpeningReads(db: DB, v: View, c: Config, tip: Hash)
    requires OpeningShown(db, v, c, tip) && StartOf(c, tip) <= Number(tip) + 1
    ensures v.openings != [] && (0 < StartOf(c, tip) ==> v.anchorAgain == Some(At(tip, StartOf(c, tip) - 1)))
  {
    hide ViewOf, RightListings, OpenStep, At, Number;
  }

  lemma StartNotNegative(c: Config, tip: Hash, v: View)
    requires ValidConfig(c) && v.head == Number(tip) && v.head >= 0
    ensures StartOf(c, tip) >= 0
  {
  }

  lemma OpenStepOk(db: DB, c: Config, v: View, anchor: Block)
    requires var next := if c.start.Some? then c.start.value else v.head;
             OpeningAnchor(v, next) == Some(anchor) && (anchor.number >= 0 ==> v.anchorAgain == Some(anchor.hash))
    requires BootstrapChain(db, c.stream, anchor, v.openings).Ok?
    ensures OpenStep(db, c, v) == Step(BootstrapChain(db, c.stream, anchor, v.openings).value, Ok(true))
  {
    hide BootstrapChain;
  }

  lemma OpenedCheckpoint(db: DB, db': DB, stream: Id, anchor: Block)
    requires OpenedAt(db, db', stream, anchor)
    ensures CheckpointOf(db', stream) == Some(Checkpoint(anchor.number + 1, anchor.hash))
  {
  }

  lemma BlankAccepts(db: DB, c: Config, v: View, tip: Hash)
    requires Blank(db, c.stream) && ValidConfig(c) && Linked(tip) && OpeningShown(db, v, c, tip) && StartOf(c, tip) <= Number(tip) + 1
    ensures var start := StartOf(c, tip);
            AnchorOk(db, c.stream, Block(start - 1, At(tip, start - 1))) && Openable(db, c.stream, v.openings)
  {
    var start := StartOf(c, tip);
    AtNumber(tip, start - 1);
    hide ViewOf, RightListings, EscrowInv, Linked, At;
    if start == 0 { BeforeGenesis(tip); }
  }

  /** Starting past the head fails until the chain reaches the start. */
  lemma StartsTooHigh(db: DB, c: Config, v: View, tip: Hash)
    requires Blank(db, c.stream) && OpeningShown(db, v, c, tip) && StartOf(c, tip) > Number(tip) + 1
    ensures Advance(db, c, v).db == db
  {
    BlankCheckpoint(db, c.stream);
    hide Blank, RightListings, At, Complete, Segment, BatchEnd, BootstrapChain, FollowStep, ChainOf;
    var start := StartOf(c, tip);
    assert c.start.Some?;
    assert Header(v, start - 1).None?;
  }

  lemma {:induction false} StaysBlank(db: DB, c: Config, views: DB -> View, tip: Hash, n: nat)
    requires Blank(db, c.stream) && OpeningShown(db, views(db), c, tip) && StartOf(c, tip) > Number(tip) + 1
    ensures Poll(db, c, views, n) == db
  {
    hide Blank, OpeningShown, Advance;
    StartsTooHigh(db, c, views(db), tip);
    if n > 0 { StaysBlank(db, c, views, tip, n - 1); }
  }

  lemma BlankIsBehind(db: DB, c: Config, tip: Hash, anchor: int)
    requires Blank(db, c.stream)
    ensures !CaughtUp(db, c, tip, anchor)
  {
    hide Synced, Blank, TipOnChain;
    forall last ensures !Synced(db, c.stream, anchor, last) {
      if Synced(db, c.stream, anchor, last) { SyncedCheckpoint(db, c.stream, anchor, last); }
    }
  }

  lemma OpeningAdvance(db: DB, c: Config, v: View, tip: Hash)
    requires Blank(db, c.stream) && ValidConfig(c) && Linked(tip) && OpeningShown(db, v, c, tip) && StartOf(c, tip) <= Number(tip) + 1
    ensures Advance(db, c, v) == FollowStep(OpenStep(db, c, v).db, c, v, Checkpoint(StartOf(c, tip), At(tip, StartOf(c, tip) - 1)))
  {
    BlankCheckpoint(db, c.stream);
    OpeningSucceeds(db, c, v, tip);
    hide Blank, OpeningShown, OpenStep, FollowStep, ChainOf, At;
  }

  /**
   * From a blank stream, repeated steps open it and catch up with a fixed valid chain
   * exactly when the chain reaches the block before the configured start.
   */
  lemma ConvergesFromBlank(db: DB, c: Config, views: DB -> View, tip: Hash)
    requires Blank(db, c.stream) && ValidConfig(c) && Shows(views, c, tip) && Linked(tip) && ValidChain(tip)
    requires OpeningShown(db, views(db), c, tip)
    requires Replayable(OpenStep(db, c, views(db)).db.escrow, tip, StartOf(c, tip) - 1)
    ensures (exists n: nat :: CaughtUp(Poll(db, c, views, n), c, tip, StartOf(c, tip) - 1)) <==> StartOf(c, tip) <= Number(tip) + 1
  {
    var start := StartOf(c, tip);
    hide *;
    if start <= Number(tip) + 1 {
      var n := OpensAndCatchesUp(db, c, views, tip);
    } else {
      BlankIsBehind(db, c, tip, start - 1);
      forall n: nat ensures !CaughtUp(Poll(db, c, views, n), c, tip, start - 1) { StaysBlank(db, c, views, tip, n); }
    }
  }

  lemma OpenedHonest(db: DB, v: View, c: Config, tip: Hash)
    requires OpeningShown(db, v, c, tip) && StartOf(c, tip) <= Number(tip) + 1 && Linked(tip) && ValidChain(tip) && ValidConfig(c)
    requires TipOf(Checkpoint(StartOf(c, tip), At(tip, StartOf(c, tip) - 1)))
    ensures var at := Checkpoint(StartOf(c, tip), At(tip, StartOf(c, tip) - 1));
            ViewOf(v, tip, c, at) && Honest(OpenStep(db, c, v).db, c, v, at) && v.head == Number(tip)
  {
    hide Honest, HonestHeaders, RightListings, OpenStep, At, Header, ViewOf, Linked, ValidChain, ValidConfig, TipOf;
    var at := Checkpoint(StartOf(c, tip), At(tip, StartOf(c, tip) - 1));
    ViewHead(v, tip, c, at);
    ViewIsHonest(OpenStep(db, c, v).db, v, tip, c, at);
  }

  lemma PollOnce(db: DB, c: Config, views: DB -> View, n: nat)
    ensures Poll(db, c, views, n + 1) == Poll(Advance(db, c, views(db)).db, c, views, n) && Poll(db, c, views, 0) == db
  {
    hide Advance;
  }

  lemma CaughtUpAt(db: DB, c: Config, tip: Hash, anchor: int, last: Checkpoint)
    requires Synced(db, c.stream, anchor, last) && TipOnChain(tip, last) && last.next > Number(tip) - c.confirmations
    ensures CaughtUp(db, c, tip, anchor)
  {
    hide Synced, TipOnChain, Number;
  }

  lemma OpensAndCatchesUp(db: DB, c: Config, views: DB -> View, tip: Hash) returns (n: nat)
    requires Blank(db, c.stream) && ValidConfig(c) && Shows(views, c, tip) && Linked(tip) && ValidChain(tip)
    requires OpeningShown(db, views(db), c, tip) && StartOf(c, tip) <= Number(tip) + 1
    requires Replayable(OpenStep(db, c, views(db)).db.escrow, tip, StartOf(c, tip) - 1)
    ensures CaughtUp(Poll(db, c, views, n), c, tip, StartOf(c, tip) - 1)
  {
    hide *;
    var v, start := views(db), StartOf(c, tip);
    var at := Checkpoint(start, At(tip, start - 1));
    OpensAt(db, c, v, tip);
    OpeningAdvance(db, c, v, tip);
    SyncedParts(OpenStep(db, c, v).db, c.stream, start - 1, at);
    OpenedHonest(db, v, c, tip);
    OnChainNext(tip, start - 1);
    var db0 := OpenStep(db, c, v).db;
    AdvanceFollowsOn(db0, c, v, start - 1, at);
    if at.next > Number(tip) - c.confirmations {
      CaughtUpRests(db0, c, v, tip, start - 1, at);
      PollOnce(db, c, views, 0);
      PollOnce(db0, c, views, 0);
      CaughtUpAt(db0, c, tip, start - 1, at);
      n := 1;
    } else {
      var end := BatchEnd(c, at.next, Number(tip) - c.confirmations);
      EndAfterNext(c, at.next, Number(tip) - c.confirmations);
      ConfirmationsOk(c);
      ReplayableAt(db0.escrow, tip, start - 1, end);
      AppliesBatch(db0, c, v, tip, start - 1, at);
      StepKeepsSnapshots(db0, c, v, start - 1, at);
      var db1 := FollowStep(db0, c, v, at).db;
      OpeningsKept(db0.escrow, db1.escrow, tip, start - 1);
      var m := CatchesUp(db1, c, views, tip, start - 1, Checkpoint(end + 1, At(tip, end)));
      PollOnce(db, c, views, m);
      n := m + 1;
    }
  }
}
